/**
 * The upload-grant route: for a signed-in person and a body naming a file and
 * its type, builds the object key `uploads/{userId}/{timestamp}.{ext}`, asks
 * the object store's signer for a five-minute upload URL for that key, and
 * returns it with the public URL of the same key.
 */
module UploadPresign {
  import opened Common
  import opened Store
  import opened JsString
  import opened UserActions

  /** The JSON body; an absent field is `None`. */
  datatype Body = Body(fileName: Option<string>, fileType: Option<string>)

  /** The object store account and bucket the route is configured with. */
  datatype StoreConfig = StoreConfig(accountId: string, bucket: string)

  datatype PresignResponse =
    | Unauthorized                     // 401
    | BadRequest                       // 400
    | ServerError                      // 500
    | Presigned(uploadUrl: string, publicUrl: string)

  /** Seconds an upload URL stays valid. */
  const ExpiresIn: nat := 300

  /** A field is usable when present and non-empty (`!fileName` is false). */
  predicate Given(f: Option<string>) {
    f.Some? && f.value != ""
  }

  /** `fileName.split(".").pop()`: the text after the last '.', or the whole
      name when it has none. */
  function Extension(fileName: string): (r: string)
    ensures '.' !in r
  {
    var parts := Split(fileName, '.');
    parts[|parts| - 1]
  }

  /** The extension is what follows the last '.' of the name, or the whole
      name when it has no '.'. */
  lemma ExtensionIsLastSegment(fileName: string)
    ensures '.' !in fileName ==> Extension(fileName) == fileName
    ensures '.' in fileName ==>
      var e := Extension(fileName);
      |e| < |fileName| && fileName[|fileName| - |e|..] == e && fileName[|fileName| - |e| - 1] == '.'
  {
    var parts := Split(fileName, '.');
    JoinSplit(fileName, '.');
    if |parts| >= 2 {
      JoinLast(parts, '.');
      var init := Join(parts[..|parts| - 1], '.');
      assert fileName == init + ['.'] + parts[|parts| - 1];
      assert fileName[|init|] == '.';
    }
  }

  /** The last piece of a join is preceded by the separator. */
  lemma {:induction false} JoinLast(parts: seq<string>, c: char)
    requires |parts| >= 2
    ensures Join(parts, c) == Join(parts[..|parts| - 1], c) + [c] + parts[|parts| - 1]
    decreases |parts|
  {
    if |parts| > 2 {
      JoinLast(parts[1..], c);
      assert parts[1..][..|parts| - 2] == parts[..|parts| - 1][1..];
    } else {
      assert parts[..1] == [parts[0]];
    }
  }

  /** The object key of an upload. */
  function ObjectKey(userId: string, timestamp: nat, fileName: string): string {
    "uploads/" + userId + "/" + NatToString(timestamp) + "." + Extension(fileName)
  }

  predicate IsSlash(c: char) { c == '/' }

  predicate IsDot(c: char) { c == '.' }

  /** In `u + "/" + rest` with no '/' in `u`, the first '/' is at `|u|`. */
  lemma FirstSlash(u: string, rest: string)
    requires '/' !in u
    ensures FindFirst(u + "/" + rest, IsSlash) == Some(|u|)
  {
    var s := u + "/" + rest;
    assert s[|u|] == '/';
    assert forall k :: 0 <= k < |u| ==> s[k] == u[k];
  }

  /** In `d + "." + rest` with only digits in `d`, the first '.' is at `|d|`. */
  lemma FirstDot(d: string, rest: string)
    requires forall k :: 0 <= k < |d| ==> IsDigit(d[k])
    ensures FindFirst(d + "." + rest, IsDot) == Some(|d|)
  {
    var s := d + "." + rest;
    assert s[|d|] == '.';
    assert forall k :: 0 <= k < |d| ==> s[k] == d[k];
  }

  /** A key names its uploader and its instant: two uploads share a key only
      when they come from the same user at the same instant (for user ids
      without '/', as the store's ids are). */
  lemma KeyDeterminesUploader(u1: string, t1: nat, f1: string, u2: string, t2: nat, f2: string)
    requires '/' !in u1 && '/' !in u2
    requires ObjectKey(u1, t1, f1) == ObjectKey(u2, t2, f2)
    ensures u1 == u2 && t1 == t2
  {
    var k := ObjectKey(u1, t1, f1);
    var d1, d2 := NatToString(t1), NatToString(t2);
    var r1, r2 := d1 + "." + Extension(f1), d2 + "." + Extension(f2);
    assert k[8..] == u1 + "/" + r1;
    assert k[8..] == u2 + "/" + r2;
    SameBeforeSlash(u1, r1, u2, r2);
    SameBeforeDot(d1, Extension(f1), d2, Extension(f2));
    DigitsValueOfNatToString(t1);
    DigitsValueOfNatToString(t2);
  }

  lemma SameBeforeSlash(u1: string, r1: string, u2: string, r2: string)
    requires '/' !in u1 && '/' !in u2
    requires u1 + "/" + r1 == u2 + "/" + r2
    ensures u1 == u2 && r1 == r2
  {
    var s := u1 + "/" + r1;
    FirstSlash(u1, r1);
    FirstSlash(u2, r2);
    assert u1 == s[..|u1|];
    assert r1 == s[|u1| + 1..];
  }

  lemma SameBeforeDot(d1: string, e1: string, d2: string, e2: string)
    requires forall k :: 0 <= k < |d1| ==> IsDigit(d1[k])
    requires forall k :: 0 <= k < |d2| ==> IsDigit(d2[k])
    requires d1 + "." + e1 == d2 + "." + e2
    ensures d1 == d2
  {
    var s := d1 + "." + e1;
    FirstDot(d1, e1);
    FirstDot(d2, e2);
    assert d1 == s[..|d1|];
  }

  /** The public URL of a key in the configured bucket. */
  function PublicUrl(cfg: StoreConfig, key: string): (r: string)
    ensures |key| <= |r| && r[|r| - |key|..] == key
  {
    var r := "https://" + cfg.accountId + ".r2.cloudflarestorage.com/" + cfg.bucket + "/" + key;
    assert r == ("https://" + cfg.accountId + ".r2.cloudflarestorage.com/" + cfg.bucket + "/") + key;
    r
  }

  /** The `POST` handler. `body` is `None` when the request is not JSON;
      `sign(key, contentType, expiresIn)` is the object store's signer, `None`
      when it fails; `timestamp` is the clock reading. */
  function Presign(users: seq<User>, clerk: Option<ClerkUser>, body: Option<Body>, timestamp: nat,
                   cfg: StoreConfig, sign: (string, string, nat) -> Option<string>): (r: PresignResponse)
    ensures r.Unauthorized? <==> !Authenticated(GetSession(users, clerk))
    ensures r.BadRequest? <==>
      Authenticated(GetSession(users, clerk)) && (body.None? || !Given(body.value.fileName) || !Given(body.value.fileType))
    ensures r.ServerError? || r.Presigned? ==>
      Authenticated(GetSession(users, clerk)) && body.Some? && Given(body.value.fileName) && Given(body.value.fileType)
    ensures r.ServerError? || r.Presigned? ==>
      var key := ObjectKey(GetSession(users, clerk).user.value.id, timestamp, body.value.fileName.value);
      && (r.ServerError? <==> sign(key, body.value.fileType.value, ExpiresIn).None?)
      && (r.Presigned? ==> r.uploadUrl == sign(key, body.value.fileType.value, ExpiresIn).value
                           && r.publicUrl == PublicUrl(cfg, key))
  {
    var session := GetSession(users, clerk);
    if !Authenticated(session) then Unauthorized
    else if body.None? || !Given(body.value.fileName) || !Given(body.value.fileType) then BadRequest
    else
      var key := ObjectKey(session.user.value.id, timestamp, body.value.fileName.value);
      match sign(key, body.value.fileType.value, ExpiresIn)
      case None => ServerError
      case Some(url) => Presigned(url, PublicUrl(cfg, key))
  }

  /** Every key lies under its uploader's own `uploads/{userId}/` folder. */
  lemma KeyInUploaderFolder(userId: string, timestamp: nat, fileName: string)
    ensures IsPrefix("uploads/" + userId + "/", ObjectKey(userId, timestamp, fileName))
  {
    var prefix := "uploads/" + userId + "/";
    var key := ObjectKey(userId, timestamp, fileName);
    assert key == prefix + (NatToString(timestamp) + "." + Extension(fileName));
    assert key[..|prefix|] == prefix;
  }
}
