/**
 * The signed-in user's transaction history route: pages of at most `take`
 * transactions, newest first, either from the start or after a cursor
 * transaction, with the id to continue from when the page came back full.
 */
module TransactionPages {
  import opened Common
  import opened Store
  import opened Sorting
  import opened JsString
  import opened UserActions
  import opened Ledger

  datatype PageResponse =
    | NotFound                 // 404
    | ServerError              // 500
    | Page(transactions: seq<Transaction>, nextCursor: Option<string>)

  function MadeOn(t: Transaction): int { t.transactionMadeOn }

  /** The user's transactions ordered by `transactionMadeOn`, newest first. */
  function Ordered(txs: seq<Transaction>, userId: string): (r: seq<Transaction>)
    ensures SortedDesc(r, MadeOn)
    ensures forall k :: 0 <= k < |r| ==> r[k].userId == userId
    ensures multiset(r) == multiset(TransactionsOf(txs, userId))
  {
    var mine := TransactionsOf(txs, userId);
    var r := SortDesc(mine, MadeOn);
    forall k | 0 <= k < |r| ensures r[k].userId == userId {
      SortDescMembers(mine, MadeOn, r[k]);
    }
    r
  }

  /** `parseInt(take || "10", 10)`: an absent or empty parameter means 10;
      `None` is NaN. */
  function TakeOf(param: Option<string>): Option<int> {
    if param.None? || param.value == "" then ParseInt("10") else ParseInt(param.value)
  }

  lemma TakeDefaultsToTen()
    ensures TakeOf(None) == Some(10)
  {
    assert NatToString(10) == "10";
    ParseIntOfNatToString(10);
  }

  /** `if (cursor)`: an absent or empty cursor means the first page. */
  function CursorOf(param: Option<string>): Option<string> {
    if param.None? || param.value == "" then None else param
  }

  /** Position of the cursor transaction among the ordered ones. */
  function CursorIndex(ordered: seq<Transaction>, id: string): (r: Option<nat>)
    ensures r.Some? ==> r.value < |ordered| && ordered[r.value].id == id
    ensures r.None? <==> forall k :: 0 <= k < |ordered| ==> ordered[k].id != id
  {
    FindFirst(ordered, (t: Transaction) => t.id == id)
  }

  function Min(a: int, b: int): int { if a <= b then a else b }

  function Max(a: int, b: int): int { if a >= b then a else b }

  /** The slice bounds of what the store's `findMany` returns for `take` and
      an optional cursor with `skip: 1`: forwards from the start or from just
      after the cursor for a non-negative `take`, backwards from the end or
      from just before the cursor for a negative one; nothing when the cursor
      is unknown. */
  function Bounds(ordered: seq<Transaction>, cursor: Option<string>, take: int): (r: (nat, nat))
    ensures r.0 <= r.1 <= |ordered|
    ensures r.1 - r.0 <= (if take >= 0 then take else -take)
    ensures take >= 0 && cursor.None? ==> r == (0, Min(take, |ordered|))
    ensures take >= 0 && cursor.Some? && CursorIndex(ordered, cursor.value).Some? ==>
      var c := CursorIndex(ordered, cursor.value).value;
      r == (c + 1, Min(c + 1 + take, |ordered|))
    ensures cursor.Some? && CursorIndex(ordered, cursor.value).None? ==> r.0 == r.1
  {
    match cursor
    case None =>
      if take >= 0 then (0, Min(take, |ordered|)) else (Max(0, |ordered| + take), |ordered|)
    case Some(id) =>
      match CursorIndex(ordered, id)
      case None => (0, 0)
      case Some(c) =>
        if take >= 0 then (c + 1, Min(c + 1 + take, |ordered|)) else (Max(0, c + take), c)
  }

  /** The page itself: a contiguous run of the ordered transactions. */
  function Window(ordered: seq<Transaction>, cursor: Option<string>, take: int): seq<Transaction>
  {
    var b := Bounds(ordered, cursor, take);
    ordered[b.0..b.1]
  }

  /** A page of length `take` carries the id of its last item as the next
      cursor; reading the last item of an empty page fails with 500. */
  function Respond(page: seq<Transaction>, take: int): (r: PageResponse)
    ensures r.ServerError? <==> take == 0 && |page| == 0
    ensures r.Page? ==> r.transactions == page
    ensures r.Page? ==> (r.nextCursor.Some? <==> |page| == take)
    ensures r.Page? && r.nextCursor.Some? ==> r.nextCursor.value == page[|page| - 1].id
  {
    if |page| == take then
      if |page| == 0 then ServerError else Page(page, Some(page[|page| - 1].id))
    else Page(page, None)
  }

  /** The `GET` handler as written: 404 unless the session is authenticated,
      500 when `take` is NaN (the store rejects it) or when a page of length
      `take` is empty, since the last item of an empty page is read. */
  function TransactionsPage(users: seq<User>, txs: seq<Transaction>, clerk: Option<ClerkUser>,
                            takeParam: Option<string>, cursorParam: Option<string>): (r: PageResponse)
    ensures r.NotFound? <==> GetSession(users, clerk).status != 200
    ensures r.ServerError? <==> GetSession(users, clerk).status == 200 && (TakeOf(takeParam).None? || TakeOf(takeParam) == Some(0))
    ensures r.Page? ==>
      r == Respond(Window(Ordered(txs, GetSession(users, clerk).user.value.id), CursorOf(cursorParam), TakeOf(takeParam).value),
                   TakeOf(takeParam).value)
    // only the caller's transactions, newest first
    ensures r.Page? ==> SortedDesc(r.transactions, MadeOn)
                        && forall k :: 0 <= k < |r.transactions| ==> r.transactions[k].userId == GetSession(users, clerk).user.value.id
  {
    var session := GetSession(users, clerk);
    if session.status != 200 then NotFound
    else
      match TakeOf(takeParam)
      case None => ServerError
      case Some(take) =>
        Respond(Window(Ordered(txs, session.user.value.id), CursorOf(cursorParam), take), take)
  }

  /** A request with `take=0` from a signed-in user always fails with 500. */
  lemma ZeroTakeFails(users: seq<User>, txs: seq<Transaction>, clerk: Option<ClerkUser>, cursorParam: Option<string>)
    requires GetSession(users, clerk).status == 200
    ensures TransactionsPage(users, txs, clerk, Some("0"), cursorParam) == ServerError
  {
    assert NatToString(0) == "0";
    ParseIntOfNatToString(0);
  }

  /** The handler with the evidently intended rule: a next cursor only for a
      full, non-empty page, so `take=0` yields an empty page and no cursor. */
  function TransactionsPageFixed(users: seq<User>, txs: seq<Transaction>, clerk: Option<ClerkUser>,
                                 takeParam: Option<string>, cursorParam: Option<string>): (r: PageResponse)
    ensures r.NotFound? <==> GetSession(users, clerk).status != 200
    ensures r.ServerError? <==> GetSession(users, clerk).status == 200 && TakeOf(takeParam).None?
    ensures r.Page? ==>
      var take := TakeOf(takeParam).value;
      var ordered := Ordered(txs, GetSession(users, clerk).user.value.id);
      && r.transactions == Window(ordered, CursorOf(cursorParam), take)
      && (r.nextCursor.Some? <==> take > 0 && |r.transactions| == take)
      && (r.nextCursor.Some? ==> r.nextCursor.value == r.transactions[|r.transactions| - 1].id)
  {
    var session := GetSession(users, clerk);
    if session.status != 200 then NotFound
    else
      match TakeOf(takeParam)
      case None => ServerError
      case Some(take) =>
        var page := Window(Ordered(txs, session.user.value.id), CursorOf(cursorParam), take);
        if take > 0 && |page| == take then Page(page, Some(page[|page| - 1].id))
        else Page(page, None)
  }

  /** The two handlers agree on every request except `take=0`. */
  lemma FixedAgreesExceptZeroTake(users: seq<User>, txs: seq<Transaction>, clerk: Option<ClerkUser>,
                                  takeParam: Option<string>, cursorParam: Option<string>)
    requires TakeOf(takeParam) != Some(0)
    ensures TransactionsPageFixed(users, txs, clerk, takeParam, cursorParam)
         == TransactionsPage(users, txs, clerk, takeParam, cursorParam)
  {
  }

  /** Keeping some transactions keeps their ids distinct. */
  lemma {:induction false} FilterKeepsUniqueIds(ts: seq<Transaction>, p: Transaction -> bool)
    requires UniqueTransactionIds(ts)
    ensures UniqueTransactionIds(Filter(ts, p))
  {
    if |ts| > 0 {
      FilterKeepsUniqueIds(ts[1..], p);
      var rest := Filter(ts[1..], p);
      forall k | 0 <= k < |rest| ensures rest[k].id != ts[0].id {
        var m :| 0 <= m < |ts[1..]| && ts[1..][m] == rest[k];
        assert ts[m + 1] == rest[k];
      }
    }
  }

  /** With distinct ids, no transaction occurs twice. */
  lemma {:induction false} UniqueIdsOccurOnce(ts: seq<Transaction>, x: Transaction)
    requires UniqueTransactionIds(ts)
    ensures multiset(ts)[x] <= 1
  {
    if |ts| > 0 {
      assert ts == [ts[0]] + ts[1..];
      assert UniqueTransactionIds(ts[1..]);
      UniqueIdsOccurOnce(ts[1..], x);
      if x == ts[0] {
        forall k | 0 <= k < |ts[1..]| ensures ts[1..][k] != x {
          assert ts[k + 1].id != ts[0].id;
        }
        assert x !in multiset(ts[1..]);
      }
    }
  }

  /** Reordering transactions with distinct ids keeps them distinct. */
  lemma PermutationKeepsUniqueIds(ts: seq<Transaction>, r: seq<Transaction>)
    requires UniqueTransactionIds(ts) && multiset(r) == multiset(ts)
    ensures UniqueTransactionIds(r)
  {
    forall i, j | 0 <= i < j < |r| ensures r[i].id != r[j].id {
      if r[i] == r[j] {
        assert r == r[..j] + r[j..];
        assert r[i] in r[..j] && r[j] in r[j..];
        assert multiset(r)[r[i]] == multiset(r[..j])[r[i]] + multiset(r[j..])[r[i]];
        UniqueIdsOccurOnce(ts, r[i]);
      } else {
        assert r[i] in multiset(ts) && r[j] in multiset(ts);
        var a :| 0 <= a < |ts| && ts[a] == r[i];
        var b :| 0 <= b < |ts| && ts[b] == r[j];
      }
    }
  }

  /** In a store with distinct transaction ids, the user's ordered
      transactions have distinct ids. */
  lemma OrderedKeepsUniqueIds(txs: seq<Transaction>, userId: string)
    requires UniqueTransactionIds(txs)
    ensures UniqueTransactionIds(Ordered(txs, userId))
  {
    FilterKeepsUniqueIds(txs, (t: Transaction) => t.userId == userId);
    PermutationKeepsUniqueIds(TransactionsOf(txs, userId), Ordered(txs, userId));
  }

  /** In a store whose transaction ids are distinct (as every valid store's
      are), following the cursor of a full page at offset `s` gives the page
      that starts right where it ended: pages neither skip nor repeat
      transactions. */
  lemma NextPageContinues(txs: seq<Transaction>, userId: string, s: nat, take: nat)
    requires UniqueTransactionIds(txs)
    requires 0 < take && s + take <= |Ordered(txs, userId)|
    ensures var ordered := Ordered(txs, userId);
      Window(ordered, Some(ordered[s + take - 1].id), take) == ordered[s + take..Min(s + 2 * take, |ordered|)]
  {
    var ordered := Ordered(txs, userId);
    OrderedKeepsUniqueIds(txs, userId);
    UniqueCursorIsIndex(ordered, s + take - 1);
  }

  /** With distinct ids, the cursor of the transaction at `k` is found at `k`. */
  lemma UniqueCursorIsIndex(ordered: seq<Transaction>, k: nat)
    requires UniqueTransactionIds(ordered) && k < |ordered|
    ensures CursorIndex(ordered, ordered[k].id) == Some(k)
  {
    var c := CursorIndex(ordered, ordered[k].id);
    assert c.Some?;
    assert ordered[c.value].id == ordered[k].id;
  }
}
