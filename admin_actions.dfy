/**
 * Server actions of the admin side: deciding whether the signed-in person is
 * the admin, and replacing the single settings row with a new estimated
 * reply time.
 */
module AdminActions {
  import opened Common
  import opened Store
  import opened UserActions

  datatype AdminAuth = AdminAuth(status: int, isAdmin: bool)

  /** `onAuthenticateAdmin`: 404 without a signed-in person or without a store
      row; otherwise 200, and `isAdmin` exactly when the row's role is ADMIN. */
  function OnAuthenticateAdmin(users: seq<User>, clerk: Option<ClerkUser>): (r: AdminAuth)
    ensures r.status == 200 <==> clerk.Some? && UserByClerk(users, clerk.value.id).Some?
    ensures r.status != 200 ==> r.status == 404
    ensures r.isAdmin <==> r.status == 200 && users[UserByClerk(users, clerk.value.id).value].role == ADMIN
  {
    match clerk
    case None => AdminAuth(404, false)
    case Some(c) =>
      match UserByClerk(users, c.id)
      case None => AdminAuth(404, false)
      case Some(k) => AdminAuth(200, users[k].role == ADMIN)
  }

  /** `setEstimatedReplyTime`: only the admin may change the setting; every
      settings row is deleted and one row holding `time` is created, so the
      template lists held in settings start over empty (the store's defaults). */
  method SetEstimatedReplyTime(db: Db, clerk: Option<ClerkUser>, time: int, newId: string)
    returns (status: int, success: bool)
    modifies db`settings
    ensures success <==> status == 200
    ensures status == 200 <==> OnAuthenticateAdmin(db.users, clerk).isAdmin
    ensures status == 401 <==> OnAuthenticateAdmin(db.users, clerk).status == 200 && !OnAuthenticateAdmin(db.users, clerk).isAdmin
    ensures status == 404 <==> OnAuthenticateAdmin(db.users, clerk).status == 404
    ensures status == 200 ==> db.settings == [Setting(newId, time, false, [], [])]
    ensures status != 200 ==> db.settings == old(db.settings)
    // every registered reader now gets the new value back
    ensures status == 200 ==> forall c: ClerkUser :: UserByClerk(db.users, c.id).Some? ==>
      GetEstimatedReplyTime(db.users, db.settings, Some(c)).estimatedReplyTime == Some(time)
  {
    var auth := OnAuthenticateAdmin(db.users, clerk);
    if auth.status != 200 {
      return 404, false;
    }
    if !auth.isAdmin {
      return 401, false;
    }
    db.settings := [];
    db.settings := db.settings + [Setting(newId, time, false, [], [])];
    return 200, true;
  }
}
