/**
 * Server actions of a signed-in person: the session lookup every route
 * starts from, find-or-create registration, the estimated reply time, the
 * admin-only creation of a gaming account for a chat's user, and the listing
 * of the caller's own gaming accounts.
 */
module UserActions {
  import opened Common
  import opened Store

  /** The `user` part of a session: the store row's id, role and profit. */
  datatype SessionUser = SessionUser(id: string, role: Role, profit: Option<int>)

  /** What `getSession` returns: an HTTP-like status and the user, if any. */
  datatype Session = Session(status: int, user: Option<SessionUser>)

  /** The check the routes make before anything else:
      `session && session.status === 200 && session.user`. */
  predicate Authenticated(s: Session) {
    s.status == 200 && s.user.Some?
  }

  /** `getSession`: 404 without a signed-in person, 403 when that person has no
      store row, otherwise 200 with the row's id, role and profit. */
  function GetSession(users: seq<User>, clerk: Option<ClerkUser>): (r: Session)
    ensures r.status == 404 <==> clerk.None?
    ensures r.status == 403 <==> clerk.Some? && UserByClerk(users, clerk.value.id).None?
    ensures r.status == 200 <==> clerk.Some? && UserByClerk(users, clerk.value.id).Some?
    ensures r.user.Some? <==> r.status == 200
    ensures r.user.Some? ==> exists k :: 0 <= k < |users| && users[k].clerkId == clerk.value.id
                                         && r.user.value == SessionUser(users[k].id, users[k].role, users[k].profit)
  {
    match clerk
    case None => Session(404, None)
    case Some(c) =>
      match UserByClerk(users, c.id)
      case None => Session(403, None)
      case Some(k) => Session(200, Some(SessionUser(users[k].id, users[k].role, users[k].profit)))
  }

  /** The row `onAuthenticateUser` inserts for a first-time visitor; it sets
      neither a profit nor an affiliate code. */
  function NewUserRow(c: ClerkUser, userId: string, workspaceId: string): User {
    User(userId, c.id, match c.primaryEmail case Some(e) => e case None => "",
         c.firstName, c.lastName, c.imageUrl, USER, None, None, workspaceId)
  }

  /** `onAuthenticateUser`: returns the existing row (200) or registers the
      visitor with a new workspace (201); without a signed-in person, 404. */
  method OnAuthenticateUser(db: Db, clerk: Option<ClerkUser>, newUserId: string, newWorkspaceId: string)
    returns (status: int, user: Option<User>)
    requires db.Valid()
    requires forall k :: 0 <= k < |db.users| ==> db.users[k].id != newUserId
    modifies db
    ensures db.Valid()
    ensures clerk.None? ==> status == 404 && user.None? && unchanged(db)
    ensures clerk.Some? && UserByClerk(old(db.users), clerk.value.id).Some? ==>
      status == 200 && user == Some(old(db.users)[UserByClerk(old(db.users), clerk.value.id).value]) && unchanged(db)
    ensures clerk.Some? && UserByClerk(old(db.users), clerk.value.id).None? ==>
      && status == 201
      && user == Some(NewUserRow(clerk.value, newUserId, newWorkspaceId))
      && db.users == old(db.users) + [NewUserRow(clerk.value, newUserId, newWorkspaceId)]
      && db.workspaces == old(db.workspaces) + [Workspace(newWorkspaceId, newUserId)]
    ensures db.chats == old(db.chats) && db.messages == old(db.messages) && db.platforms == old(db.platforms)
    ensures db.transactions == old(db.transactions) && db.settings == old(db.settings) && db.referrals == old(db.referrals)
    // after any call by a signed-in person, that person is registered, so a repeat call answers 200
    ensures clerk.Some? ==> UserByClerk(db.users, clerk.value.id).Some?
  {
    if clerk.None? {
      return 404, None;
    }
    var c := clerk.value;
    var found := UserByClerk(db.users, c.id);
    if found.Some? {
      return 200, Some(db.users[found.value]);
    }
    var row := NewUserRow(c, newUserId, newWorkspaceId);
    db.users := db.users + [row];
    db.workspaces := db.workspaces + [Workspace(newWorkspaceId, newUserId)];
    assert db.users[|db.users| - 1].clerkId == c.id;
    return 201, Some(row);
  }

  /** A second call right after a registering one finds the row and answers 200. */
  method RegisterTwice(db: Db, c: ClerkUser, uid: string, wid: string, uid2: string, wid2: string)
    returns (first: int, second: int)
    requires db.Valid()
    requires uid != uid2
    requires forall k :: 0 <= k < |db.users| ==> db.users[k].id != uid && db.users[k].id != uid2
    modifies db
    ensures UserByClerk(old(db.users), c.id).None? ==> first == 201
    ensures second == 200
  {
    var row;
    first, row := OnAuthenticateUser(db, Some(c), uid, wid);
    second, row := OnAuthenticateUser(db, Some(c), uid2, wid2);
  }

  datatype ReplyTimeResult = ReplyTimeResult(status: int, estimatedReplyTime: Option<int>)

  /** `getEstimatedReplyTime`: only a registered person gets 200 and the first
      settings row's value (absent when there is no row); an unregistered one
      gets 401 and a visitor without a session 404. */
  function GetEstimatedReplyTime(users: seq<User>, settings: seq<Setting>, clerk: Option<ClerkUser>): (r: ReplyTimeResult)
    ensures r.status == 200 <==> clerk.Some? && UserByClerk(users, clerk.value.id).Some?
    ensures r.status == 401 <==> clerk.Some? && UserByClerk(users, clerk.value.id).None?
    ensures r.status == 404 <==> clerk.None?
    ensures r.estimatedReplyTime.Some? <==> r.status == 200 && |settings| > 0
    ensures r.estimatedReplyTime.Some? ==> r.estimatedReplyTime.value == settings[0].estimatedReplyTime
  {
    match clerk
    case None => ReplyTimeResult(404, None)
    case Some(c) =>
      if UserByClerk(users, c.id).None? then ReplyTimeResult(401, None)
      else if |settings| == 0 then ReplyTimeResult(200, None)
      else ReplyTimeResult(200, Some(settings[0].estimatedReplyTime))
  }

  /** Some gaming account of `userId` already carries `platformId`. */
  predicate HasPlatformId(platforms: seq<Platform>, userId: string, platformId: string) {
    exists k :: 0 <= k < |platforms| && platforms[k].userId == userId && platforms[k].platformId == platformId
  }

  /** `createUserGamingId`: the guards in the order the action runs them,
      then one new account with empty histories for the chat's user. */
  method CreateUserGamingId(db: Db, clerk: Option<ClerkUser>, chatId: string, platformName: string,
                            platformId: string, platformPassword: string, newId: string)
    returns (status: int)
    modifies db
    ensures db.users == old(db.users) && db.workspaces == old(db.workspaces) && db.chats == old(db.chats)
    ensures db.messages == old(db.messages) && db.transactions == old(db.transactions)
    ensures db.settings == old(db.settings) && db.referrals == old(db.referrals)
    ensures clerk.None? ==> status == 404
    ensures clerk.Some? ==>
      var caller := UserByClerk(db.users, clerk.value.id);
      (caller.None? || db.users[caller.value].role == USER ==> status == 401)
      && (caller.Some? && db.users[caller.value].role != USER ==>
            match ChatUser(db.chats, chatId)
            case None => status == 404
            case Some(uid) =>
              if UserById(db.users, uid).None? then status == 404
              else if HasPlatformId(old(db.platforms), uid, platformId) then status == 401
              else status == 200)
    ensures status == 200 ==>
      db.platforms == old(db.platforms) + [Platform(newId, ChatUser(db.chats, chatId).value, platformName, platformId, platformPassword, [], [])]
    ensures status != 200 ==> db.platforms == old(db.platforms)
  {
    if clerk.None? {
      return 404;
    }
    var caller := UserByClerk(db.users, clerk.value.id);
    if caller.None? || db.users[caller.value].role == USER {
      return 401;
    }
    var chatUser := ChatUser(db.chats, chatId);
    if chatUser.None? {
      return 404;
    }
    var owner := UserById(db.users, chatUser.value);
    if owner.None? {
      return 404;
    }
    var uid := db.users[owner.value].id;
    var k := 0;
    while k < |db.platforms|
      invariant 0 <= k <= |db.platforms|
      invariant forall j :: 0 <= j < k ==> !(db.platforms[j].userId == uid && db.platforms[j].platformId == platformId)
    {
      if db.platforms[k].userId == uid && db.platforms[k].platformId == platformId {
        return 401;
      }
      k := k + 1;
    }
    db.platforms := db.platforms + [Platform(newId, uid, platformName, platformId, platformPassword, [], [])];
    return 200;
  }

  datatype PlatformList = PlatformList(status: int, platforms: seq<Platform>)

  /** `getPlatform`: a registered caller gets exactly the gaming accounts whose
      `userId` is their store id, in store order. */
  function GetPlatform(users: seq<User>, platforms: seq<Platform>, clerk: Option<ClerkUser>): (r: PlatformList)
    ensures r.status == 404 <==> clerk.None? || UserByClerk(users, clerk.value.id).None?
    ensures r.status == 200 <==> !(clerk.None? || UserByClerk(users, clerk.value.id).None?)
    ensures r.status == 200 ==>
      var uid := users[UserByClerk(users, clerk.value.id).value].id;
      (forall k :: 0 <= k < |r.platforms| ==> r.platforms[k] in platforms && r.platforms[k].userId == uid)
      && (forall k :: 0 <= k < |platforms| && platforms[k].userId == uid ==> platforms[k] in r.platforms)
      && Subsequence(r.platforms, platforms)
    ensures r.status != 200 ==> r.platforms == []
  {
    match clerk
    case None => PlatformList(404, [])
    case Some(c) =>
      match UserByClerk(users, c.id)
      case None => PlatformList(404, [])
      case Some(k) =>
        var uid := users[k].id;
        FilterIsSubsequence(platforms, (p: Platform) => p.userId == uid);
        PlatformList(200, Filter(platforms, (p: Platform) => p.userId == uid))
  }
}
