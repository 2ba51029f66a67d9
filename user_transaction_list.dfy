/**
 * The admin's user directory: the conversations and their users, searchable
 * by name, email or id; clicking a user opens that user's transaction
 * history, and "Back" returns to the list.
 */
module UserTransactionList {
  import opened Common
  import opened JsString
  import opened Store

  /** A user as the user-list route sends it, with its transactions. */
  datatype ListedUser = ListedUser(
    email: string,
    firstName: Option<string>,
    id: string,
    lastName: Option<string>,
    transactions: seq<Transaction>)

  /** One entry of the list: the assignment record and its user. */
  datatype UserListItem = UserListItem(id: string, adminId: string, userId: string, user: ListedUser)

  /** `field?.toLowerCase().includes(needle)`: a missing field matches nothing. */
  predicate FieldContains(field: Option<string>, needle: string) {
    field.Some? && Includes(ToLower(field.value), needle)
  }

  /** The search test of one entry against the lower-cased term. */
  predicate Matches(item: UserListItem, needle: string) {
    || FieldContains(item.user.firstName, needle)
    || FieldContains(item.user.lastName, needle)
    || Includes(ToLower(item.user.email), needle)
    || Includes(ToLower(item.user.id), needle)
    || Includes(ToLower(item.id), needle)
  }

  /** `filteredUsers`: every entry when the term is empty; otherwise the
      entries whose first name, last name, email, user id or entry id contains
      the term, ignoring case, in list order. */
  function FilterUsers(users: seq<UserListItem>, term: string): (r: seq<UserListItem>)
    ensures term == "" ==> r == users
    ensures forall k :: 0 <= k < |r| ==> r[k] in users
    ensures term != "" ==> forall k :: 0 <= k < |r| ==> Matches(r[k], ToLower(term))
    ensures term != "" ==> forall k :: 0 <= k < |users| && Matches(users[k], ToLower(term)) ==> users[k] in r
  {
    if term == "" then users
    else Filter(users, (item: UserListItem) => Matches(item, ToLower(term)))
  }

  /** The search result keeps the list's order. */
  lemma FilterUsersKeepsOrder(users: seq<UserListItem>, term: string)
    ensures Subsequence(FilterUsers(users, term), users)
  {
    if term == "" {
      SubsequenceOfItself(users);
    } else {
      FilterIsSubsequence(users, (item: UserListItem) => Matches(item, ToLower(term)));
    }
  }

  lemma {:induction false} SubsequenceOfItself(s: seq<UserListItem>)
    ensures Subsequence(s, s)
  {
    if |s| > 0 {
      SubsequenceOfItself(s[1..]);
    }
  }

  /** Lower-casing twice is lower-casing once. */
  lemma ToLowerIdempotent(s: string)
    ensures ToLower(ToLower(s)) == ToLower(s)
  {
  }

  /** Every text contains itself. */
  lemma IncludesItself(s: string)
    ensures Includes(s, s)
  {
    assert s[..|s|] == s;
  }

  /** The search ignores case: a term and its lower-case form find the same users. */
  lemma SearchIgnoresCase(users: seq<UserListItem>, term: string)
    ensures FilterUsers(users, term) == FilterUsers(users, ToLower(term))
  {
    ToLowerIdempotent(term);
  }

  /** Searching for an entry's user id, whatever its case, finds that entry. */
  lemma SearchFindsUserId(users: seq<UserListItem>, k: nat, term: string)
    requires k < |users| && ToLower(term) == ToLower(users[k].user.id)
    ensures users[k] in FilterUsers(users, term)
  {
    IncludesItself(ToLower(users[k].user.id));
  }

  /** `{transactionCount} transaction{transactionCount !== 1 ? "s" : ""}`. */
  function CountLabel(n: nat): (r: string)
    ensures |NatToString(n)| <= |r| && r[..|NatToString(n)|] == NatToString(n)
    ensures r[|NatToString(n)|..] == (if n == 1 then " transaction" else " transactions")
  {
    NatToString(n) + " transaction" + (if n != 1 then "s" else "")
  }

  /** The label is plural exactly when the count is not one. */
  lemma CountLabelPluralIff(n: nat)
    ensures CountLabel(n)[|CountLabel(n)| - 1] == 's' <==> n != 1
  {
    var tail := CountLabel(n)[|NatToString(n)|..];
    assert CountLabel(n)[|CountLabel(n)| - 1] == tail[|tail| - 1];
  }

  /** How a transaction row is styled: a deposit with the rising icon and the
      default badge, anything else with the falling icon and the red badge. */
  datatype RowStyle = Rising | Falling

  function RowStyleOf(t: Transaction): (r: RowStyle)
    ensures r == Rising <==> t.transactionMadeFor.DEPOSIT?
    ensures r == Falling <==> t.transactionMadeFor.WITHDRAWL?
  {
    if t.transactionMadeFor.DEPOSIT? then Rising else Falling
  }

  /** What the page shows; `Crashed` is a render that throws. */
  datatype Screen =
    | LoadingList
    | NoUsers(message: string)
    | UserCards(items: seq<UserListItem>)
    | History(item: UserListItem)
    | Blank
    | Crashed

  /** How the list request ended: a JSON body, whose `users` is absent on the
      route's 401 and 500 answers (`{ error }`), or a throw. */
  datatype FetchOutcome = Answered(users: Option<seq<UserListItem>>) | FetchThrew

  /** The page's state. */
  class UserList {
    /** `None` is `undefined`. */
    var users: Option<seq<UserListItem>>
    var loading: bool
    var searchTerm: string
    var selectedUser: Option<UserListItem>
    var showTransactions: bool

    constructor()
      ensures users == Some([]) && loading && searchTerm == "" && selectedUser.None? && !showTransactions
    {
      users := Some([]);
      loading := true;
      searchTerm := "";
      selectedUser := None;
      showTransactions := false;
    }

    /** The render throws when `users` is undefined and is read: by
        `users.filter` whenever a search term is set, and by
        `filteredUsers.length` on the list view. */
    predicate RenderThrows()
      reads this
    {
      users.None? && (searchTerm != "" || (!showTransactions && !loading))
    }

    /** What the page renders for the current state. */
    function CurrentScreen(): (r: Screen)
      reads this
      ensures r.Crashed? <==> RenderThrows()
      ensures r.History? <==> !RenderThrows() && showTransactions && selectedUser.Some?
      ensures r.History? ==> r.item == selectedUser.value
      ensures r.UserCards? ==>
        !showTransactions && !loading && users.Some? && r.items == FilterUsers(users.value, searchTerm) && |r.items| > 0
      ensures r.NoUsers? <==>
        !showTransactions && !loading && users.Some? && |FilterUsers(users.value, searchTerm)| == 0
      ensures r.NoUsers? ==>
        r.message == (if searchTerm != "" then "No users found matching your search." else "No users available.")
    {
      if RenderThrows() then Crashed
      else if showTransactions then
        if selectedUser.Some? then History(selectedUser.value) else Blank
      else if loading then LoadingList
      else
        var shown := FilterUsers(users.value, searchTerm);
        if |shown| == 0 then
          NoUsers(if searchTerm != "" then "No users found matching your search." else "No users available.")
        else UserCards(shown)
    }

    /** The end of the initial fetch as written: `setUsers(data.users)` takes
        whatever the body holds, undefined on an error answer; a throw keeps
        the list; loading ends either way. */
    method CompleteFetch(outcome: FetchOutcome)
      modifies this`users, this`loading
      ensures !loading
      ensures users == if outcome.Answered? then outcome.users else old(users)
    {
      if outcome.Answered? {
        users := outcome.users;
      }
      loading := false;
    }

    /** The fetch with the evidently intended rule: an answer without users
        leaves an empty list. */
    method CompleteFetchFixed(outcome: FetchOutcome)
      modifies this`users, this`loading
      ensures !loading
      ensures outcome.Answered? && outcome.users.Some? ==> users == outcome.users
      ensures outcome.Answered? && outcome.users.None? ==> users == Some([])
      ensures outcome.FetchThrew? ==> users == old(users)
    {
      if outcome.Answered? {
        users := if outcome.users.Some? then outcome.users else Some([]);
      }
      loading := false;
    }

    /** Typing in the search box. */
    method SetSearchTerm(term: string)
      modifies this`searchTerm
      ensures searchTerm == term
    {
      searchTerm := term;
    }

    /** `handleUserClick`: the user becomes the selection and the history opens. */
    method HandleUserClick(item: UserListItem)
      modifies this`selectedUser, this`showTransactions
      ensures selectedUser == Some(item) && showTransactions
      ensures !RenderThrows() ==> CurrentScreen() == History(item)
    {
      selectedUser := Some(item);
      showTransactions := true;
    }

    /** `handleBackClick`: the history closes and the selection is cleared. */
    method HandleBackClick()
      modifies this`selectedUser, this`showTransactions
      ensures selectedUser.None? && !showTransactions
      ensures !CurrentScreen().History? && !CurrentScreen().Blank?
      ensures CurrentScreen().Crashed? <==> users.None? && (searchTerm != "" || !loading)
    {
      showTransactions := false;
      selectedUser := None;
    }
  }

  /** Opening a user and going back shows the same list as before. */
  method OpenThenBack(page: UserList, item: UserListItem)
    requires !page.showTransactions
    modifies page
    ensures page.CurrentScreen() == old(page.CurrentScreen())
  {
    page.HandleUserClick(item);
    page.HandleBackClick();
  }

  /** As written, a 401 or 500 answer to the list request makes the list view
      throw, with or without a search term. */
  method ErrorAnswerCrashes(page: UserList)
    requires !page.showTransactions
    modifies page
    ensures page.CurrentScreen() == Crashed
  {
    page.CompleteFetch(Answered(None));
  }

  /** With the corrected fetch, the same answer shows the empty-list message. */
  method ErrorAnswerShowsNoUsersFixed(page: UserList)
    requires !page.showTransactions
    modifies page
    ensures page.CurrentScreen() ==
      NoUsers(if page.searchTerm != "" then "No users found matching your search." else "No users available.")
  {
    page.CompleteFetchFixed(Answered(None));
    assert FilterUsers([], page.searchTerm) == [];
  }
}
