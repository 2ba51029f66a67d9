/**
 * The conversation directory route. `GET` gives the admin every chat, newest
 * first, each with its user and its latest message, and gives a user the id
 * of their own chat with the configured admin. `POST` lets a user open that
 * chat, once.
 */
module ChatDirectory {
  import opened Common
  import opened Store
  import opened Sorting
  import opened UserActions

  /** One entry of the admin's listing. */
  datatype ChatSummary = ChatSummary(chat: Chat, user: Option<User>, latest: Option<Message>)

  datatype ChatListing =
    | Unauthorized                  // 401
    | Listing(chats: seq<ChatSummary>)
    | OwnChat(id: string)
    | NoChat                        // 404
    | ServerError                   // 500

  function ChatCreatedAt(c: Chat): int { c.createdAt }

  function MessageCreatedAt(m: Message): int { m.createdAt }

  /** The chat's messages, newest first, cut to one: its latest message. */
  function LatestMessage(messages: seq<Message>, chatId: string): (r: Option<Message>)
    ensures r.Some? <==> exists k :: 0 <= k < |messages| && messages[k].chatId == chatId
    ensures r.Some? ==> r.value in messages && r.value.chatId == chatId
    ensures r.Some? ==> forall k :: 0 <= k < |messages| && messages[k].chatId == chatId ==>
                          messages[k].createdAt <= r.value.createdAt
  {
    var mine := Filter(messages, (m: Message) => m.chatId == chatId);
    var ordered := SortDesc(mine, MessageCreatedAt);
    if |ordered| == 0 then
      assert forall k :: 0 <= k < |messages| && messages[k].chatId == chatId ==> messages[k] in mine;
      None
    else
      SortDescMembers(mine, MessageCreatedAt, ordered[0]);
      assert forall k :: 0 <= k < |messages| && messages[k].chatId == chatId ==>
        messages[k] in ordered by {
        forall k | 0 <= k < |messages| && messages[k].chatId == chatId ensures messages[k] in ordered {
          SortDescMembers(mine, MessageCreatedAt, messages[k]);
        }
      }
      Some(ordered[0])
  }

  function Summarize(users: seq<User>, messages: seq<Message>, c: Chat): ChatSummary {
    ChatSummary(c,
                match UserById(users, c.userId) case None => None case Some(j) => Some(users[j]),
                LatestMessage(messages, c.id))
  }

  /** The admin's listing: every chat exactly once, newest first, each with its
      latest message. */
  function AdminListing(users: seq<User>, chats: seq<Chat>, messages: seq<Message>): (r: seq<ChatSummary>)
    ensures |r| == |chats|
    ensures forall i, j :: 0 <= i < j < |r| ==> r[i].chat.createdAt >= r[j].chat.createdAt
    ensures multiset(seq(|r|, k requires 0 <= k < |r| => r[k].chat)) == multiset(chats)
    ensures forall k :: 0 <= k < |r| ==> r[k].latest == LatestMessage(messages, r[k].chat.id)
  {
    var ordered := SortDesc(chats, ChatCreatedAt);
    var r := seq(|ordered|, k requires 0 <= k < |ordered| => Summarize(users, messages, ordered[k]));
    assert seq(|r|, k requires 0 <= k < |r| => r[k].chat) == ordered;
    r
  }

  /** `GET`: 401 unless authenticated; the admin gets the listing; a user gets
      the id of the chat keyed by (their id, the configured admin id), or 404.
      An unset admin id makes the user's lookup fail with 500. */
  function GetChats(users: seq<User>, chats: seq<Chat>, messages: seq<Message>,
                    clerk: Option<ClerkUser>, adminId: Option<string>): (r: ChatListing)
    ensures r.Unauthorized? <==> !Authenticated(GetSession(users, clerk))
    ensures r.Listing? <==> Authenticated(GetSession(users, clerk)) && GetSession(users, clerk).user.value.role == ADMIN
    ensures r.Listing? ==> r.chats == AdminListing(users, chats, messages)
    ensures r.ServerError? <==>
      Authenticated(GetSession(users, clerk)) && GetSession(users, clerk).user.value.role != ADMIN && adminId.None?
    ensures r.OwnChat? <==>
      && Authenticated(GetSession(users, clerk)) && GetSession(users, clerk).user.value.role != ADMIN && adminId.Some?
      && ChatByPair(chats, GetSession(users, clerk).user.value.id, adminId.value).Some?
    ensures r.OwnChat? ==> exists k :: 0 <= k < |chats| && chats[k].id == r.id
                                       && chats[k].userId == GetSession(users, clerk).user.value.id
                                       && chats[k].adminId == adminId.value
  {
    var session := GetSession(users, clerk);
    if !Authenticated(session) then Unauthorized
    else if session.user.value.role == ADMIN then Listing(AdminListing(users, chats, messages))
    else if adminId.None? then ServerError
    else
      match ChatByPair(chats, session.user.value.id, adminId.value)
      case None => NoChat
      case Some(k) => OwnChat(chats[k].id)
  }

  /** `POST`: 401 unless authenticated, 403 for the admin, 500 when no admin id
      is configured (unset or empty), 400 when the pair already has a chat,
      500 when the admin row to connect does not exist; otherwise one new chat
      for (user, admin) and 201. */
  method CreateChat(db: Db, clerk: Option<ClerkUser>, adminId: Option<string>, newId: string, now: int)
    returns (status: int, chat: Option<Chat>)
    requires db.Valid()
    requires forall k :: 0 <= k < |db.chats| ==> db.chats[k].id != newId
    modifies db`chats
    ensures db.Valid()
    ensures status == 201 <==> chat.Some?
    ensures status != 201 ==> db.chats == old(db.chats)
    ensures var session := GetSession(db.users, clerk);
      && (!Authenticated(session) ==> status == 401)
      && (Authenticated(session) && session.user.value.role == ADMIN ==> status == 403)
      && (Authenticated(session) && session.user.value.role != ADMIN ==>
            if adminId.None? || adminId.value == "" then status == 500
            else if ChatByPair(old(db.chats), session.user.value.id, adminId.value).Some? then status == 400
            else if UserById(db.users, adminId.value).None? then status == 500
            else status == 201
                 && chat == Some(Chat(newId, session.user.value.id, adminId.value, now))
                 && db.chats == old(db.chats) + [chat.value])
    // the user's next GET finds the chat, whether it was just created or already there
    ensures status == 201 ==> GetChats(db.users, db.chats, db.messages, clerk, adminId) == OwnChat(newId)
    ensures status == 400 ==> GetChats(db.users, db.chats, db.messages, clerk, adminId).OwnChat?
  {
    var session := GetSession(db.users, clerk);
    if !Authenticated(session) {
      return 401, None;
    }
    var userId := session.user.value.id;
    if session.user.value.role == ADMIN {
      return 403, None;
    }
    if adminId.None? || adminId.value == "" {
      return 500, None;
    }
    if ChatByPair(db.chats, userId, adminId.value).Some? {
      return 400, None;
    }
    if UserById(db.users, adminId.value).None? {
      return 500, None;
    }
    var c := Chat(newId, userId, adminId.value, now);
    db.chats := db.chats + [c];
    assert db.chats[|db.chats| - 1] == c;
    return 201, Some(c);
  }
}
