/**
 * The affiliate dashboard route: for a signed-in non-admin, the users they
 * referred, those users' combined profit and the combined amounts of their
 * deposit and withdrawal transactions.
 */
module Affiliate {
  import opened Common
  import opened Store
  import opened UserActions
  import opened Ledger

  /** The caller's row as the route selects it: names, affiliate code and,
      for each referral made, the referred user. */
  datatype UserData = UserData(firstName: Option<string>, lastName: Option<string>,
                               affiliateCode: Option<string>, referralsMade: seq<Option<User>>)

  /** The route's answers. `NoResponse` is the admin branch, which returns nothing. */
  datatype DashboardResponse =
    | Unauthenticated
    | NoResponse
    | Dashboard(userData: UserData, cntReferredUsers: nat, referredUsers: seq<Option<User>>,
                combinedProfit: int, combinedDeposit: int, combinedWithdrawal: int)

  /** The referral records `referrerId` made, in store order. */
  function ReferralsMade(referrals: seq<Referral>, referrerId: string): (r: seq<Referral>)
    ensures forall k :: 0 <= k < |r| ==> r[k].referrerId == referrerId && r[k] in referrals
    ensures forall k :: 0 <= k < |referrals| && referrals[k].referrerId == referrerId ==> referrals[k] in r
  {
    Filter(referrals, (x: Referral) => x.referrerId == referrerId)
  }

  /** `referralsMade.map(ref => ref.referred)`: the referred user row of each
      referral (absent when the store holds no such row). */
  function ReferredUsers(users: seq<User>, made: seq<Referral>): (r: seq<Option<User>>)
    ensures |r| == |made|
    ensures forall k :: 0 <= k < |r| ==> (r[k].Some? <==> UserById(users, made[k].referredId).Some?)
    ensures forall k :: 0 <= k < |r| && r[k].Some? ==> r[k].value.id == made[k].referredId && r[k].value in users
  {
    seq(|made|, k requires 0 <= k < |made| =>
      match UserById(users, made[k].referredId)
      case None => None
      case Some(j) => Some(users[j]))
  }

  /** `user?.profit || 0`. */
  function ProfitOrZero(u: Option<User>): int {
    if u.Some? && u.value.profit.Some? then u.value.profit.value else 0
  }

  /** The `reduce` that yields `combinedProfit`. */
  function CombinedProfit(referred: seq<Option<User>>): int
  {
    if |referred| == 0 then 0 else CombinedProfit(referred[..|referred| - 1]) + ProfitOrZero(referred[|referred| - 1])
  }

  /** Profits are only ever stored positive (see `Ledger.ProfitUpdate`), so the
      combined profit of the referred users is never negative. */
  lemma {:induction false} CombinedProfitNonNegative(referred: seq<Option<User>>)
    requires forall k :: 0 <= k < |referred| ==> ProfitOrZero(referred[k]) >= 0
    ensures CombinedProfit(referred) >= 0
  {
    if |referred| > 0 {
      CombinedProfitNonNegative(referred[..|referred| - 1]);
    }
  }

  /** `Number(txn.transactionAmount) || 0`. */
  function NumberOrZero(a: SignedAmount): (r: int)
    ensures AmountValue(a).Some? ==> r == AmountValue(a).value
    ensures AmountValue(a).None? ==> r == 0
  {
    match AmountValue(a)
    case None => 0
    case Some(v) => v
  }

  /** What one user's transactions add to the total of `kind`. */
  function KindSum(ts: seq<Transaction>, kind: TransactionKind): int
  {
    if |ts| == 0 then 0
    else KindSum(ts[..|ts| - 1], kind)
         + (if ts[|ts| - 1].transactionMadeFor == kind then NumberOrZero(ts[|ts| - 1].transactionAmount) else 0)
  }

  /** `user?.transactions ?? []`. */
  function UserTxs(u: Option<User>, txs: seq<Transaction>): seq<Transaction> {
    if u.None? then [] else TransactionsOf(txs, u.value.id)
  }

  /** `combinedDeposit` (for DEPOSIT) or `combinedWithdrawal` (for WITHDRAWL). */
  function CombinedKind(referred: seq<Option<User>>, txs: seq<Transaction>, kind: TransactionKind): int
  {
    if |referred| == 0 then 0
    else CombinedKind(referred[..|referred| - 1], txs, kind) + KindSum(UserTxs(referred[|referred| - 1], txs), kind)
  }

  /** For one user with readable amounts, the deposit total plus the
      withdrawal total is exactly the sum the ledger's profit loop computes. */
  lemma {:induction false} KindSumsMakeLedgerSum(ts: seq<Transaction>)
    requires WellFormedAmounts(ts)
    ensures SumAmounts(ts) == Some(KindSum(ts, DEPOSIT) + KindSum(ts, WITHDRAWL))
  {
    if |ts| > 0 {
      var init := ts[..|ts| - 1];
      assert WellFormedAmounts(init);
      KindSumsMakeLedgerSum(init);
    }
  }

  /** With amounts written as the ledger writes them, deposits add up to a
      non-negative total and withdrawals to a non-positive one: the withdrawal
      total is reported with its minus sign. */
  lemma {:induction false} KindSumSigns(ts: seq<Transaction>)
    requires WellFormedAmounts(ts) && ConsistentSigns(ts)
    ensures KindSum(ts, DEPOSIT) >= 0
    ensures KindSum(ts, WITHDRAWL) <= 0
  {
    if |ts| > 0 {
      var init := ts[..|ts| - 1];
      assert WellFormedAmounts(init) && ConsistentSigns(init);
      KindSumSigns(init);
    }
  }

  /** The nested loops over referred users and their transactions. */
  method ReferredTotals(referred: seq<Option<User>>, txs: seq<Transaction>)
    returns (combinedDeposit: int, combinedWithdrawal: int)
    ensures combinedDeposit == CombinedKind(referred, txs, DEPOSIT)
    ensures combinedWithdrawal == CombinedKind(referred, txs, WITHDRAWL)
  {
    combinedDeposit, combinedWithdrawal := 0, 0;
    var i := 0;
    while i < |referred|
      invariant 0 <= i <= |referred|
      invariant combinedDeposit == CombinedKind(referred[..i], txs, DEPOSIT)
      invariant combinedWithdrawal == CombinedKind(referred[..i], txs, WITHDRAWL)
    {
      var ts := UserTxs(referred[i], txs);
      ghost var depBefore, wdBefore := combinedDeposit, combinedWithdrawal;
      var j := 0;
      while j < |ts|
        invariant 0 <= j <= |ts|
        invariant combinedDeposit == depBefore + KindSum(ts[..j], DEPOSIT)
        invariant combinedWithdrawal == wdBefore + KindSum(ts[..j], WITHDRAWL)
      {
        assert ts[..j + 1][..j] == ts[..j];
        if ts[j].transactionMadeFor == DEPOSIT {
          combinedDeposit := combinedDeposit + NumberOrZero(ts[j].transactionAmount);
        } else if ts[j].transactionMadeFor == WITHDRAWL {
          combinedWithdrawal := combinedWithdrawal + NumberOrZero(ts[j].transactionAmount);
        }
        j := j + 1;
      }
      assert ts[..j] == ts;
      assert referred[..i + 1][..i] == referred[..i];
      i := i + 1;
    }
    assert referred[..i] == referred;
  }

  /** The `GET` handler: 401 unless the session is authenticated, nothing for
      the admin, otherwise the caller's data, the referred users and the three
      totals. */
  method DashboardData(db: Db, clerk: Option<ClerkUser>) returns (r: DashboardResponse)
    ensures r.Unauthenticated? <==> !Authenticated(GetSession(db.users, clerk))
    ensures r.NoResponse? <==> Authenticated(GetSession(db.users, clerk)) && GetSession(db.users, clerk).user.value.role == ADMIN
    ensures r.Dashboard? ==>
      var id := GetSession(db.users, clerk).user.value.id;
      var made := ReferralsMade(db.referrals, id);
      && UserById(db.users, id).Some?
      && var row := db.users[UserById(db.users, id).value];
      && r.userData == UserData(row.firstName, row.lastName, row.affiliateCode, r.referredUsers)
      && r.cntReferredUsers == |made|
      && r.referredUsers == ReferredUsers(db.users, made)
      && r.combinedProfit == CombinedProfit(r.referredUsers)
      && r.combinedDeposit == CombinedKind(r.referredUsers, db.transactions, DEPOSIT)
      && r.combinedWithdrawal == CombinedKind(r.referredUsers, db.transactions, WITHDRAWL)
  {
    var session := GetSession(db.users, clerk);
    if !Authenticated(session) {
      return Unauthenticated;
    }
    if session.user.value.role == ADMIN {
      return NoResponse;
    }
    var id := session.user.value.id;
    // the session's id is that of a stored row, so the lookup finds it
    var found := UserById(db.users, id);
    var row := db.users[found.value];
    var referredUsers := ReferredUsers(db.users, ReferralsMade(db.referrals, id));
    var userData := UserData(row.firstName, row.lastName, row.affiliateCode, referredUsers);
    var combinedProfit := CombinedProfit(referredUsers);
    var combinedDeposit, combinedWithdrawal := ReferredTotals(referredUsers, db.transactions);
    return Dashboard(userData, |referredUsers|, referredUsers, combinedProfit, combinedDeposit, combinedWithdrawal);
  }
}
