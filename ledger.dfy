/**
 * The admin's ledger actions: recording a deposit into, or a withdrawal from,
 * a user's gaming account. Both run the same guard chain, push the amount onto
 * the account's history and write one signed transaction; a withdrawal then
 * sums the user's transactions and, when the sum is negative, stores its
 * opposite as the user's profit.
 */
module Ledger {
  import opened Common
  import opened Store

  /** `platform.findFirst({ where: { userId, platformName, platformId } })`. */
  function PlatformFor(platforms: seq<Platform>, userId: string, name: string, pid: string): (r: Option<nat>)
    ensures r.Some? ==> r.value < |platforms| && platforms[r.value].userId == userId
                        && platforms[r.value].platformName == name && platforms[r.value].platformId == pid
    ensures r.None? <==> forall k :: 0 <= k < |platforms| ==>
      !(platforms[k].userId == userId && platforms[k].platformName == name && platforms[k].platformId == pid)
  {
    FindFirst(platforms, (p: Platform) => p.userId == userId && p.platformName == name && p.platformId == pid)
  }

  /** Outcome of the guard chain: the status of the first failing guard, or the
      chat's user and the index of the account to write to. */
  datatype Target = Rejected(status: int) | Found(userId: string, platform: nat)

  /** The guards of both actions, in the order they run: signed in (404),
      registered (404), not a USER (401), chat exists (404), the chat's user
      holds an account with this name and id (404). */
  function ResolveTarget(users: seq<User>, chats: seq<Chat>, platforms: seq<Platform>,
                         clerk: Option<ClerkUser>, chatId: string, name: string, pid: string): (r: Target)
    ensures r.Rejected? ==> r.status == 404 || r.status == 401
    ensures r.Rejected? && r.status == 401 <==>
      clerk.Some? && UserByClerk(users, clerk.value.id).Some? && users[UserByClerk(users, clerk.value.id).value].role == USER
    ensures r.Found? <==>
      && clerk.Some? && UserByClerk(users, clerk.value.id).Some?
      && users[UserByClerk(users, clerk.value.id).value].role != USER
      && ChatUser(chats, chatId).Some?
      && PlatformFor(platforms, ChatUser(chats, chatId).value, name, pid).Some?
    ensures r.Found? ==> r.userId == ChatUser(chats, chatId).value
                         && r.platform == PlatformFor(platforms, r.userId, name, pid).value
  {
    if clerk.None? then Rejected(404)
    else
      var caller := UserByClerk(users, clerk.value.id);
      if caller.None? then Rejected(404)
      else if users[caller.value].role == USER then Rejected(401)
      else
        match ChatUser(chats, chatId)
        case None => Rejected(404)
        case Some(uid) =>
          match PlatformFor(platforms, uid, name, pid)
          case None => Rejected(404)
          case Some(k) => Found(uid, k)
  }

  /** `Number(a) + Number(b)` where `None` is NaN: NaN absorbs everything. */
  function AddNumbers(a: Option<int>, b: Option<int>): (r: Option<int>)
    ensures r.Some? <==> a.Some? && b.Some?
    ensures r.Some? ==> r.value == a.value + b.value
  {
    if a.Some? && b.Some? then Some(a.value + b.value) else None
  }

  /** The value `userProfit` holds after adding up every amount of `txs`,
      starting from 0. */
  function SumAmounts(txs: seq<Transaction>): Option<int>
  {
    if |txs| == 0 then Some(0)
    else AddNumbers(SumAmounts(txs[..|txs| - 1]), AmountValue(txs[|txs| - 1].transactionAmount))
  }

  /** Every stored amount reads as a number (no `"+-"` or `"--"` text). */
  predicate WellFormedAmounts(txs: seq<Transaction>) {
    forall k :: 0 <= k < |txs| ==> txs[k].transactionAmount.magnitude >= 0
  }

  /** Total magnitude of the amounts written with sign `s`. */
  function SignTotal(txs: seq<Transaction>, s: Sign): int
  {
    if |txs| == 0 then 0
    else SignTotal(txs[..|txs| - 1], s)
         + (if txs[|txs| - 1].transactionAmount.sign == s then txs[|txs| - 1].transactionAmount.magnitude else 0)
  }

  /** With well-formed amounts the sum is what was deposited minus what was
      withdrawn; a single malformed amount makes it NaN. */
  lemma {:induction false} SumIsNetDeposit(txs: seq<Transaction>)
    ensures WellFormedAmounts(txs) ==> SumAmounts(txs) == Some(SignTotal(txs, Plus) - SignTotal(txs, Minus))
    ensures !WellFormedAmounts(txs) ==> SumAmounts(txs).None?
  {
    if |txs| > 0 {
      var init := txs[..|txs| - 1];
      SumIsNetDeposit(init);
      assert WellFormedAmounts(txs) ==> WellFormedAmounts(init);
      if !WellFormedAmounts(txs) && WellFormedAmounts(init) {
        assert txs[|txs| - 1].transactionAmount.magnitude < 0;
      }
    }
  }

  /** The `forEach` loop of `addWithdrawToPlatform`, over the user's transactions. */
  method SumUserAmounts(txs: seq<Transaction>) returns (userProfit: Option<int>)
    ensures userProfit == SumAmounts(txs)
  {
    userProfit := Some(0);
    var k := 0;
    while k < |txs|
      invariant 0 <= k <= |txs|
      invariant userProfit == SumAmounts(txs[..k])
    {
      assert txs[..k + 1][..k] == txs[..k];
      userProfit := AddNumbers(userProfit, AmountValue(txs[k].transactionAmount));
      k := k + 1;
    }
    assert txs[..k] == txs;
  }

  /** The profit a withdrawal stores: the opposite of a negative sum, nothing
      otherwise (a NaN sum is not below 0). */
  function ProfitUpdate(sum: Option<int>): (r: Option<int>)
    ensures r.Some? <==> sum.Some? && sum.value < 0
    ensures r.Some? ==> r.value > 0 && r.value == -sum.value
  {
    if sum.Some? && sum.value < 0 then Some(-sum.value) else None
  }

  /** With well-formed amounts, a withdrawal stores a profit exactly when more
      was withdrawn than deposited, and the profit is the difference. */
  lemma ProfitIsNetWithdrawal(txs: seq<Transaction>)
    requires WellFormedAmounts(txs)
    ensures ProfitUpdate(SumAmounts(txs)).Some? <==> SignTotal(txs, Minus) > SignTotal(txs, Plus)
    ensures ProfitUpdate(SumAmounts(txs)).Some? ==>
      ProfitUpdate(SumAmounts(txs)).value == SignTotal(txs, Minus) - SignTotal(txs, Plus)
  {
    SumIsNetDeposit(txs);
  }

  /** Deposits are written with "+" and withdrawals with "-", as both actions do. */
  predicate ConsistentSigns(txs: seq<Transaction>) {
    forall k :: 0 <= k < |txs| ==>
      (txs[k].transactionMadeFor == DEPOSIT ==> txs[k].transactionAmount.sign == Plus)
      && (txs[k].transactionMadeFor == WITHDRAWL ==> txs[k].transactionAmount.sign == Minus)
  }

  lemma ConsistentSignsAppend(txs: seq<Transaction>, t: Transaction)
    requires (t.transactionMadeFor == DEPOSIT ==> t.transactionAmount.sign == Plus)
    requires (t.transactionMadeFor == WITHDRAWL ==> t.transactionAmount.sign == Minus)
    ensures ConsistentSigns(txs) ==> ConsistentSigns(txs + [t])
  {
  }

  /** The user's transactions, as `transaction.findMany({ where: { userId } })` returns them. */
  function TransactionsOf(txs: seq<Transaction>, userId: string): (r: seq<Transaction>)
    ensures forall k :: 0 <= k < |r| ==> r[k].userId == userId && r[k] in txs
    ensures forall k :: 0 <= k < |txs| && txs[k].userId == userId ==> txs[k] in r
  {
    Filter(txs, (t: Transaction) => t.userId == userId)
  }

  /** `addDepositToPlatform`: on success the amount is pushed onto the account's
      deposits and one "+amount" DEPOSIT transaction is written; profit never changes. */
  method AddDepositToPlatform(db: Db, clerk: Option<ClerkUser>, name: string, pid: string, amount: int,
                              chatId: string, txId: string, now: int)
    returns (status: int)
    requires db.Valid()
    // the transaction id is the new row's primary key
    requires forall k :: 0 <= k < |db.transactions| ==> db.transactions[k].id != txId
    modifies db
    ensures db.Valid()
    ensures db.users == old(db.users) && db.workspaces == old(db.workspaces) && db.chats == old(db.chats)
    ensures db.messages == old(db.messages) && db.settings == old(db.settings) && db.referrals == old(db.referrals)
    ensures ConsistentSigns(old(db.transactions)) ==> ConsistentSigns(db.transactions)
    ensures var t := ResolveTarget(old(db.users), old(db.chats), old(db.platforms), clerk, chatId, name, pid);
      match t
      case Rejected(s) =>
        status == s && db.platforms == old(db.platforms) && db.transactions == old(db.transactions)
      case Found(uid, k) =>
        && status == 200
        && |db.platforms| == |old(db.platforms)|
        && db.platforms[k] == old(db.platforms)[k].(deposits := old(db.platforms)[k].deposits + [amount])
        && (forall j :: 0 <= j < |db.platforms| && j != k ==> db.platforms[j] == old(db.platforms)[j])
        && db.transactions == old(db.transactions) + [Transaction(txId, uid, DEPOSIT, SignedAmount(Plus, amount), now)]
  {
    var t := ResolveTarget(db.users, db.chats, db.platforms, clerk, chatId, name, pid);
    if t.Rejected? {
      return t.status;
    }
    var p := db.platforms[t.platform];
    db.platforms := db.platforms[t.platform := p.(deposits := p.deposits + [amount])];
    var tx := Transaction(txId, t.userId, DEPOSIT, SignedAmount(Plus, amount), now);
    ConsistentSignsAppend(db.transactions, tx);
    AppendFreshTransaction(db.transactions, tx);
    db.transactions := db.transactions + [tx];
    return 200;
  }

  /** The end of `addWithdrawToPlatform`: sums the user's transactions and,
      when the sum is negative, writes its opposite as the user's profit. */
  method StoreProfit(db: Db, uid: string) returns (status: int, profit: Option<int>)
    requires db.Valid()
    modifies db`users
    ensures db.Valid()
    ensures var update := ProfitUpdate(SumAmounts(TransactionsOf(db.transactions, uid)));
      && (update.None? ==> status == 200 && profit.None? && db.users == old(db.users))
      && (update.Some? && UserById(old(db.users), uid).None? ==>
            status == 500 && profit.None? && db.users == old(db.users))
      && (update.Some? && UserById(old(db.users), uid).Some? ==>
            var j := UserById(old(db.users), uid).value;
            && status == 200 && profit == update
            && db.users == old(db.users)[j := old(db.users)[j].(profit := update)])
  {
    var allTransactions := TransactionsOf(db.transactions, uid);
    var userProfit := SumUserAmounts(allTransactions);
    if userProfit.Some? && userProfit.value < 0 {
      var j := UserById(db.users, uid);
      if j.None? {
        return 500, None;
      }
      var u := db.users[j.value];
      db.users := db.users[j.value := u.(profit := Some(-userProfit.value))];
      return 200, Some(-userProfit.value);
    }
    return 200, None;
  }

  /** `addWithdrawToPlatform`: the same guards; on success the amount is pushed
      onto the account's withdrawals, one "-amount" WITHDRAWL transaction is
      written, and the user's profit becomes the opposite of the sum of their
      amounts when that sum is negative (and is returned). When the user row the
      chat points to is missing the profit write fails with 500, after the
      other writes. */
  method AddWithdrawToPlatform(db: Db, clerk: Option<ClerkUser>, name: string, pid: string, amount: int,
                               chatId: string, txId: string, now: int)
    returns (status: int, profit: Option<int>)
    requires db.Valid()
    // the transaction id is the new row's primary key
    requires forall k :: 0 <= k < |db.transactions| ==> db.transactions[k].id != txId
    modifies db
    ensures db.Valid()
    ensures db.workspaces == old(db.workspaces) && db.chats == old(db.chats)
    ensures db.messages == old(db.messages) && db.settings == old(db.settings) && db.referrals == old(db.referrals)
    ensures ConsistentSigns(old(db.transactions)) ==> ConsistentSigns(db.transactions)
    ensures var t := ResolveTarget(old(db.users), old(db.chats), old(db.platforms), clerk, chatId, name, pid);
      match t
      case Rejected(s) =>
        && status == s && profit.None?
        && db.platforms == old(db.platforms) && db.transactions == old(db.transactions) && db.users == old(db.users)
      case Found(uid, k) =>
        && |db.platforms| == |old(db.platforms)|
        && db.platforms[k] == old(db.platforms)[k].(withdrawals := old(db.platforms)[k].withdrawals + [amount])
        && (forall j :: 0 <= j < |db.platforms| && j != k ==> db.platforms[j] == old(db.platforms)[j])
        && db.transactions == old(db.transactions) + [Transaction(txId, uid, WITHDRAWL, SignedAmount(Minus, amount), now)]
        && var update := ProfitUpdate(SumAmounts(TransactionsOf(db.transactions, uid)));
           && (update.None? ==> status == 200 && profit.None? && db.users == old(db.users))
           && (update.Some? && UserById(old(db.users), uid).None? ==>
                 status == 500 && profit.None? && db.users == old(db.users))
           && (update.Some? && UserById(old(db.users), uid).Some? ==>
                 var j := UserById(old(db.users), uid).value;
                 && status == 200 && profit == update
                 && db.users == old(db.users)[j := old(db.users)[j].(profit := update)])
  {
    var t := ResolveTarget(db.users, db.chats, db.platforms, clerk, chatId, name, pid);
    if t.Rejected? {
      return t.status, None;
    }
    RecordWithdrawal(db, t.platform, t.userId, amount, txId, now);
    status, profit := StoreProfit(db, t.userId);
  }

  /** The two writes of a withdrawal: the amount onto account `k`'s
      withdrawals and one "-amount" WITHDRAWL transaction. */
  method RecordWithdrawal(db: Db, k: nat, uid: string, amount: int, txId: string, now: int)
    requires db.Valid() && k < |db.platforms|
    requires forall j :: 0 <= j < |db.transactions| ==> db.transactions[j].id != txId
    modifies db`platforms, db`transactions
    ensures db.Valid()
    ensures db.platforms == old(db.platforms)[k := old(db.platforms)[k].(withdrawals := old(db.platforms)[k].withdrawals + [amount])]
    ensures db.transactions == old(db.transactions) + [Transaction(txId, uid, WITHDRAWL, SignedAmount(Minus, amount), now)]
    ensures ConsistentSigns(old(db.transactions)) ==> ConsistentSigns(db.transactions)
  {
    var p := db.platforms[k];
    db.platforms := db.platforms[k := p.(withdrawals := p.withdrawals + [amount])];
    var tx := Transaction(txId, uid, WITHDRAWL, SignedAmount(Minus, amount), now);
    ConsistentSignsAppend(db.transactions, tx);
    AppendFreshTransaction(db.transactions, tx);
    db.transactions := db.transactions + [tx];
  }
}
