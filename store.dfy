/**
 * The relational store the server actions and routes talk to, held in memory:
 * one class whose fields are the tables, each a sequence of rows in insertion
 * order. Rows are datatypes; the identity provider's "current user" is a value
 * handed to each action.
 */
module Store {
  import opened Common

  datatype Role = USER | ADMIN

  /** What the identity provider reports about the signed-in person. */
  datatype ClerkUser = ClerkUser(
    id: string,
    primaryEmail: Option<string>,
    firstName: Option<string>,
    lastName: Option<string>,
    imageUrl: string)

  datatype User = User(
    id: string,
    clerkId: string,
    email: string,
    firstName: Option<string>,
    lastName: Option<string>,
    image: string,
    role: Role,
    profit: Option<int>,
    affiliateCode: Option<string>,
    workspaceId: string)

  datatype Workspace = Workspace(id: string, userId: string)

  /** A conversation between one user and the admin. */
  datatype Chat = Chat(id: string, userId: string, adminId: string, createdAt: int)

  datatype MessageKind = TEXT | FILE

  datatype Message = Message(
    id: string,
    chatId: string,
    senderId: string,
    kind: MessageKind,
    content: Option<string>,
    fileUrl: Option<string>,
    fileName: Option<string>,
    fileType: Option<string>,
    createdAt: int)

  /** A gaming account held for a user, with its deposit and withdrawal history. */
  datatype Platform = Platform(
    id: string,
    userId: string,
    platformName: string,
    platformId: string,
    platformPassword: string,
    deposits: seq<int>,
    withdrawals: seq<int>)

  datatype Sign = Plus | Minus

  /** The text `"+" + amount` or `"-" + amount` stored as a transaction amount,
      kept as its sign character and the number written after it. */
  datatype SignedAmount = SignedAmount(sign: Sign, magnitude: int)

  datatype TransactionKind = DEPOSIT | WITHDRAWL

  datatype Transaction = Transaction(
    id: string,
    userId: string,
    transactionMadeFor: TransactionKind,
    transactionAmount: SignedAmount,
    transactionMadeOn: int)

  datatype Setting = Setting(
    id: string,
    estimatedReplyTime: int,
    onlineStatus: bool,
    adminChatTemplates: seq<string>,
    userChatTemplates: seq<string>)

  /** `referrerId` brought `referredId` to the platform. */
  datatype Referral = Referral(referrerId: string, referredId: string)

  /** `Number(text)` of a stored amount: `"+5"` is 5 and `"-5"` is -5, while a
      negative number written after the sign (`"+-5"`, `"--5"`) is NaN, here `None`. */
  function AmountValue(a: SignedAmount): (r: Option<int>)
    ensures r.Some? <==> a.magnitude >= 0
    ensures r.Some? ==> (a.sign == Plus ==> r.value == a.magnitude) && (a.sign == Minus ==> r.value == -a.magnitude)
  {
    if a.magnitude < 0 then None
    else if a.sign == Plus then Some(a.magnitude) else Some(-a.magnitude)
  }

  /** No two users share an identity-provider id (the `clerkId` unique key). */
  ghost predicate UniqueClerkIds(users: seq<User>) {
    forall i, j :: 0 <= i < j < |users| ==> users[i].clerkId != users[j].clerkId
  }

  /** No two transactions share an id (the primary key). */
  ghost predicate UniqueTransactionIds(ts: seq<Transaction>) {
    forall i, j :: 0 <= i < j < |ts| ==> ts[i].id != ts[j].id
  }

  /** Appending a transaction with a new id keeps the ids distinct. */
  lemma AppendFreshTransaction(ts: seq<Transaction>, t: Transaction)
    requires UniqueTransactionIds(ts)
    requires forall k :: 0 <= k < |ts| ==> ts[k].id != t.id
    ensures UniqueTransactionIds(ts + [t])
  {
  }

  /** No two users share an id (the primary key). */
  ghost predicate UniqueUserIds(users: seq<User>) {
    forall i, j :: 0 <= i < j < |users| ==> users[i].id != users[j].id
  }

  /** No two chats share an id (the primary key). */
  ghost predicate UniqueChatIds(chats: seq<Chat>) {
    forall i, j :: 0 <= i < j < |chats| ==> chats[i].id != chats[j].id
  }

  /** At most one chat per (user, admin) pair (the `userId_adminId` unique key). */
  ghost predicate UniqueChatPairs(chats: seq<Chat>) {
    forall i, j :: 0 <= i < j < |chats| ==>
      (chats[i].userId, chats[i].adminId) != (chats[j].userId, chats[j].adminId)
  }

  class Db {
    var users: seq<User>
    var workspaces: seq<Workspace>
    var chats: seq<Chat>
    var messages: seq<Message>
    var platforms: seq<Platform>
    var transactions: seq<Transaction>
    var settings: seq<Setting>
    var referrals: seq<Referral>

    /** The unique keys the store enforces. */
    ghost predicate Valid()
      reads this
    {
      && UniqueUserIds(users) && UniqueClerkIds(users)
      && UniqueChatIds(chats) && UniqueChatPairs(chats)
      && UniqueTransactionIds(transactions)
    }

    constructor ()
      ensures Valid()
      ensures users == [] && workspaces == [] && chats == [] && messages == []
      ensures platforms == [] && transactions == [] && settings == [] && referrals == []
    {
      users, workspaces, chats, messages := [], [], [], [];
      platforms, transactions, settings, referrals := [], [], [], [];
    }
  }

  /** `user.findUnique({ where: { <field>: value } })` for a key column
      read by `field`. */
  function UserWhere(users: seq<User>, field: User -> string, value: string): (r: Option<nat>)
    ensures r.Some? ==> r.value < |users| && field(users[r.value]) == value
    ensures r.None? <==> forall k :: 0 <= k < |users| ==> field(users[k]) != value
  {
    FindFirst(users, (u: User) => field(u) == value)
  }

  /** `user.findUnique({ where: { clerkId } })`. */
  function UserByClerk(users: seq<User>, clerkId: string): (r: Option<nat>)
    ensures r.Some? ==> r.value < |users| && users[r.value].clerkId == clerkId
    ensures r.None? <==> forall k :: 0 <= k < |users| ==> users[k].clerkId != clerkId
  {
    UserWhere(users, (u: User) => u.clerkId, clerkId)
  }

  /** `user.findUnique({ where: { id } })`. */
  function UserById(users: seq<User>, id: string): (r: Option<nat>)
    ensures r.Some? ==> r.value < |users| && users[r.value].id == id
    ensures r.None? <==> forall k :: 0 <= k < |users| ==> users[k].id != id
  {
    UserWhere(users, (u: User) => u.id, id)
  }

  /** `chat.findUnique({ where: { id } })`. */
  function ChatById(chats: seq<Chat>, id: string): (r: Option<nat>)
    ensures r.Some? ==> r.value < |chats| && chats[r.value].id == id
    ensures r.None? <==> forall k :: 0 <= k < |chats| ==> chats[k].id != id
  {
    FindFirst(chats, (c: Chat) => c.id == id)
  }

  /** `chat.findUnique({ where: { userId_adminId: { userId, adminId } } })`. */
  function ChatByPair(chats: seq<Chat>, userId: string, adminId: string): (r: Option<nat>)
    ensures r.Some? ==> r.value < |chats| && chats[r.value].userId == userId && chats[r.value].adminId == adminId
    ensures r.None? <==> forall k :: 0 <= k < |chats| ==> !(chats[k].userId == userId && chats[k].adminId == adminId)
  {
    FindFirst(chats, (c: Chat) => c.userId == userId && c.adminId == adminId)
  }

  /** The user id a chat id refers to, when the chat exists. */
  function ChatUser(chats: seq<Chat>, chatId: string): (r: Option<string>)
    ensures r.Some? <==> ChatById(chats, chatId).Some?
    ensures r.Some? ==> exists k :: 0 <= k < |chats| && chats[k].id == chatId && chats[k].userId == r.value
  {
    match ChatById(chats, chatId)
    case None => None
    case Some(k) => Some(chats[k].userId)
  }
}
