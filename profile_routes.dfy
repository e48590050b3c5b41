/**
 * The profile routes of the server: the read projection, the allow-list
 * partial update, the BMR overwrite and the avatar upload, together with
 * the file name the upload storage gives an avatar.
 */
module ProfileRoutes {
  import opened Wrappers
  import opened Json
  import opened Http
  import opened UserModel
  import opened UserCollection

  // ---------------------------------------------------------------------
  // GET /

  /** The body of GET /: these eight fields and no others. */
  datatype ProfileView = ProfileView(
    name: Option<string>,
    email: string,
    organization: Option<string>,
    age: Option<int>,
    weight: Option<int>,
    height: Option<int>,
    profilePic: Option<string>,
    bmr: int)

  function ReadProfile(u: User): ProfileView {
    ProfileView(u.name, u.email, u.organization, u.age, u.weight, u.height, u.profilePic, u.bmr)
  }

  /** The two records agree on every field that GET / shows. */
  predicate SameVisibleFields(u: User, w: User) {
    && u.name == w.name && u.email == w.email && u.organization == w.organization
    && u.age == w.age && u.weight == w.weight && u.height == w.height
    && u.profilePic == w.profilePic && u.bmr == w.bmr
  }

  /**
   * GET / shows exactly the eight visible fields: two records give the same
   * body if and only if they agree on them, so the password, googleId,
   * totalCalories, id and creation time never reach the body.
   */
  lemma ReadProfileShowsExactlyVisibleFields(u: User, w: User)
    ensures ReadProfile(u) == ReadProfile(w) <==> SameVisibleFields(u, w)
  {
  }

  // ---------------------------------------------------------------------
  // PUT /: the allow-list

  /** The fields a profile update may change, in the order the route visits them. */
  const AllowedUpdates: seq<string> := ["name", "organization", "age", "weight", "height", "profilePic"]

  /** The keys of the body that survive the allow-list filter, with their values. */
  function Allowed(body: Blob): (upd: Blob)
    ensures upd.Keys == body.Keys * (set f | f in AllowedUpdates)
    ensures forall k :: k in upd ==> upd[k] == body[k]
  {
    map k | k in body && k in AllowedUpdates :: body[k]
  }

  /** The route's loop that copies every allow-listed key present in the body into `updates`. */
  method BuildUpdates(body: Blob) returns (updates: Blob)
    ensures updates == Allowed(body)
  {
    updates := map[];
    var i := 0;
    while i < |AllowedUpdates|
      invariant 0 <= i <= |AllowedUpdates|
      invariant updates.Keys == body.Keys * (set f | f in AllowedUpdates[..i])
      invariant forall k :: k in updates ==> updates[k] == body[k]
    {
      var field := AllowedUpdates[i];
      if field in body {
        updates := updates[field := body[field]];
      }
      assert AllowedUpdates[..i + 1] == AllowedUpdates[..i] + [field];
      i := i + 1;
    }
    assert AllowedUpdates[..i] == AllowedUpdates;
  }

  // ---------------------------------------------------------------------
  // PUT /: casting the values to the schema types and writing them

  predicate IsNumberField(f: string) {
    f == "age" || f == "weight" || f == "height"
  }

  /** A JSON value that an allow-listed field of the given type can hold: null, or a value of its type. */
  predicate Fits(f: string, j: Json) {
    j.JNull? || (if IsNumberField(f) then j.JNum? else j.JStr?)
  }

  /**
   * The value the schema stores for `v` in field `f`, or `None` when the
   * cast fails: `null` clears the field, a boolean becomes 1/0 in a number
   * field and "true"/"false" in a string field, the empty string clears a
   * number field.
   */
  function CastValue(f: string, v: Json): (r: Option<Json>)
    ensures r.Some? ==> Fits(f, r.value)
    ensures r.None? <==> (IsNumberField(f) && v.JStr? && v.s != "") || (!IsNumberField(f) && v.JNum?)
    ensures IsNumberField(f) && v.JNum? ==> r == Some(v)
    ensures !IsNumberField(f) && v.JStr? ==> r == Some(v)
    ensures IsNumberField(f) && v == JStr("") ==> r == Some(JNull)
    ensures v.JNull? ==> r == Some(JNull)
  {
    match v
    case JNull => Some(JNull)
    case JBool(b) =>
      if IsNumberField(f) then Some(JNum(if b then 1 else 0))
      else Some(JStr(if b then "true" else "false"))
    case JNum(_) => if IsNumberField(f) then Some(v) else None
    case JStr(s) =>
      if !IsNumberField(f) then Some(v)
      else if s == "" then Some(JNull)
      else None
  }

  /** Every value of the update casts. */
  predicate CastsOk(upd: Blob) {
    forall f :: f in upd ==> CastValue(f, upd[f]).Some?
  }

  function TextJson(s: Option<string>): Json {
    if s.Some? then JStr(s.value) else JNull
  }

  function NumJson(n: Option<int>): Json {
    if n.Some? then JNum(n.value) else JNull
  }

  function TextOf(j: Json): Option<string> {
    if j.JStr? then Some(j.s) else None
  }

  function NumOf(j: Json): Option<int> {
    if j.JNum? then Some(j.n) else None
  }

  /** An allow-listed field of the record, as the JSON it is written as. */
  function FieldJson(u: User, f: string): Json
    requires f in AllowedUpdates
  {
    if f == "name" then TextJson(u.name)
    else if f == "organization" then TextJson(u.organization)
    else if f == "age" then NumJson(u.age)
    else if f == "weight" then NumJson(u.weight)
    else if f == "height" then NumJson(u.height)
    else TextJson(u.profilePic)
  }

  /** The fields no profile update may touch are equal in the two records. */
  predicate SameProtectedFields(u: User, w: User) {
    && u.id == w.id && u.googleId == w.googleId && u.email == w.email
    && u.password == w.password && u.bmr == w.bmr && u.totalCalories == w.totalCalories
    && u.createdAt == w.createdAt
  }

  /** Writes an already-cast value into one allow-listed field; it reads back as written, and nothing else moves. */
  function WithField(u: User, f: string, j: Json): (w: User)
    requires f in AllowedUpdates && Fits(f, j)
    ensures FieldJson(w, f) == j
    ensures forall g :: g in AllowedUpdates && g != f ==> FieldJson(w, g) == FieldJson(u, g)
    ensures SameProtectedFields(u, w)
  {
    if f == "name" then u.(name := TextOf(j))
    else if f == "organization" then u.(organization := TextOf(j))
    else if f == "age" then u.(age := NumOf(j))
    else if f == "weight" then u.(weight := NumOf(j))
    else if f == "height" then u.(height := NumOf(j))
    else u.(profilePic := TextOf(j))
  }

  datatype UpdateError = CastError(path: string)

  /** Applies the update to the fields listed, in order, stopping at the first value that does not cast. */
  function ApplyFields(u: User, fields: seq<string>, upd: Blob): Result<User, UpdateError>
    requires forall f :: f in fields ==> f in AllowedUpdates
    decreases |fields|
  {
    if fields == [] then Success(u)
    else
      var f := fields[0];
      if f !in upd then ApplyFields(u, fields[1..], upd)
      else match CastValue(f, upd[f])
        case None => Failure(CastError(f))
        case Some(j) => ApplyFields(WithField(u, f, j), fields[1..], upd)
  }

  /** The record that `findByIdAndUpdate(id, updates, { new: true })` returns. */
  function ApplyUpdates(u: User, upd: Blob): Result<User, UpdateError> {
    ApplyFields(u, AllowedUpdates, upd)
  }

  lemma {:induction false} ApplyFieldsSpec(u: User, fields: seq<string>, upd: Blob)
    requires forall f :: f in fields ==> f in AllowedUpdates
    ensures ApplyFields(u, fields, upd).Success? <==>
      (forall f :: f in fields && f in upd ==> CastValue(f, upd[f]).Some?)
    ensures ApplyFields(u, fields, upd).Success? ==>
      var w := ApplyFields(u, fields, upd).value;
      && SameProtectedFields(u, w)
      && forall g :: g in AllowedUpdates ==>
           FieldJson(w, g) == if g in fields && g in upd then CastValue(g, upd[g]).value else FieldJson(u, g)
    decreases |fields|
  {
    if fields != [] {
      var f := fields[0];
      assert forall g :: g in fields <==> g == f || g in fields[1..];
      if f !in upd {
        ApplyFieldsSpec(u, fields[1..], upd);
      } else if CastValue(f, upd[f]).Some? {
        var j := CastValue(f, upd[f]).value;
        ApplyFieldsSpec(WithField(u, f, j), fields[1..], upd);
      }
    }
  }

  /**
   * The update succeeds exactly when every allow-listed value casts. Then
   * each allow-listed field present in the update holds its cast value, each
   * one absent keeps its stored value, and email, bmr, password,
   * totalCalories, googleId, id and createdAt are unchanged.
   */
  lemma ApplyUpdatesSpec(u: User, upd: Blob)
    ensures ApplyUpdates(u, Allowed(upd)).Success? <==> CastsOk(Allowed(upd))
    ensures ApplyUpdates(u, Allowed(upd)).Success? ==>
      var w := ApplyUpdates(u, Allowed(upd)).value;
      && SameProtectedFields(u, w)
      && (forall g :: g in AllowedUpdates && g in upd ==> FieldJson(w, g) == CastValue(g, upd[g]).value)
      && (forall g :: g in AllowedUpdates && g !in upd ==> FieldJson(w, g) == FieldJson(u, g))
  {
    ApplyFieldsSpec(u, AllowedUpdates, Allowed(upd));
  }

  /**
   * PUT / does not run the schema validators: a body `{ "name": "" }`
   * empties the required name of a valid record.
   */
  lemma UpdateCanEmptyRequiredName(u: User)
    requires RecordValid(u)
    ensures ApplyUpdates(u, Allowed(map["name" := JStr("")])).Success?
    ensures !RecordValid(ApplyUpdates(u, Allowed(map["name" := JStr("")])).value)
  {
    var upd := map["name" := JStr("")];
    assert Allowed(upd) == upd;
    ApplyUpdatesSpec(u, upd);
  }

  /** PUT /: filter the body, then update the stored record and answer with it. */
  method PutProfile(db: Users, id: UserId, body: Blob) returns (r: HttpReply<Option<User>>)
    requires db.Valid()
    modifies db
    ensures db.Valid()
    ensures !CastsOk(Allowed(body)) ==> r == Status(500, "Server error") && db.docs == old(db.docs)
    ensures CastsOk(Allowed(body)) && id !in old(db.docs) ==> r == Ok(None) && db.docs == old(db.docs)
    ensures CastsOk(Allowed(body)) && id in old(db.docs) ==>
      && ApplyUpdates(old(db.docs)[id], Allowed(body)).Success?
      && db.docs == old(db.docs)[id := ApplyUpdates(old(db.docs)[id], Allowed(body)).value]
      && r == Ok(Some(db.docs[id]))
  {
    var updates := BuildUpdates(body);
    if !CastsOk(updates) {
      r := Status(500, "Server error");
      return;
    }
    if id !in db.docs {
      r := Ok(None);
      return;
    }
    var u := db.docs[id];
    ApplyUpdatesSpec(u, body);
    var w := ApplyUpdates(u, updates).value;
    ReplacePreservesInvariant(db.docs, id, w);
    db.docs := db.docs[id := w];
    r := Ok(Some(w));
  }

  // ---------------------------------------------------------------------
  // PUT /bmr

  /** PUT /bmr: overwrite the BMR with whatever number the body holds, and answer with it. */
  method PutBmr(db: Users, id: UserId, bmr: int) returns (r: HttpReply<int>)
    requires db.Valid()
    modifies db
    ensures db.Valid()
    ensures id in old(db.docs) ==> db.docs == old(db.docs)[id := old(db.docs)[id].(bmr := bmr)] && r == Ok(bmr)
    ensures id !in old(db.docs) ==> db.docs == old(db.docs) && r == Status(500, "Server error")
  {
    if id !in db.docs {
      r := Status(500, "Server error");
      return;
    }
    var w := db.docs[id].(bmr := bmr);
    ReplacePreservesInvariant(db.docs, id, w);
    db.docs := db.docs[id := w];
    r := Ok(bmr);
  }

  // ---------------------------------------------------------------------
  // POST /avatar

  /** The index of the last `c` in `s`, or -1. */
  function LastIndexOf(s: string, c: char): (i: int)
    ensures -1 <= i < |s|
    ensures i >= 0 ==> s[i] == c
    ensures forall j :: i < j < |s| ==> s[j] != c
    decreases |s|
  {
    if s == [] then -1
    else if s[|s| - 1] == c then |s| - 1
    else LastIndexOf(s[..|s| - 1], c)
  }

  /** `s` without its trailing slashes. */
  function TrimTrailingSlashes(s: string): (r: string)
    ensures |r| <= |s| && r == s[..|r|]
    ensures r == [] || r[|r| - 1] != '/'
    ensures forall j :: |r| <= j < |s| ==> s[j] == '/'
    decreases |s|
  {
    if s != [] && s[|s| - 1] == '/' then TrimTrailingSlashes(s[..|s| - 1]) else s
  }

  /** The last path component, as Node's POSIX `path` module sees it. */
  function BaseName(s: string): (b: string)
    ensures '/' !in b
  {
    var t := TrimTrailingSlashes(s);
    t[LastIndexOf(t, '/') + 1..]
  }

  /**
   * Node's POSIX `path.extname`: from the last dot of the last component to
   * its end, or "" when that component has no dot, starts with its only
   * dot, or is "..".
   */
  function ExtName(s: string): (e: string)
    ensures e != "" ==> e[0] == '.' && forall j :: 0 < j < |e| ==> e[j] != '.'
    ensures '/' !in e
    ensures '.' !in BaseName(s) ==> e == ""
  {
    var b := BaseName(s);
    var i := LastIndexOf(b, '.');
    if i <= 0 || b == ".." then "" else b[i..]
  }

  /**
   * Both directions of `path.extname`'s rule: the extension is empty
   * exactly when the last component has no dot after its first character
   * or is ".."; otherwise it is the component's suffix from its last dot.
   */
  lemma ExtNameSpec(s: string)
    ensures var b := BaseName(s);
      ExtName(s) == "" <==> (|b| <= 1 || '.' !in b[1..] || b == "..")
    ensures var b := BaseName(s); var e := ExtName(s);
      e != "" ==> |e| < |b| && b[|b| - |e|..] == e && b[..|b| - |e|] != "" && '.' !in b[|b| - |e| + 1..]
  {
    var b := BaseName(s);
    var i := LastIndexOf(b, '.');
    if i > 0 {
      assert b[1..][i - 1] == '.';
    }
  }

  /** `path.extname` on two typical upload names. */
  lemma ExtNameExamples()
    ensures ExtName("photo.jpg") == ".jpg"
    ensures ExtName(".profile") == ""
  {
    var a := "photo.jpg";
    assert a[|a| - 1] != '/';
    assert TrimTrailingSlashes(a) == a;
    assert LastIndexOf(a, '/') == -1;
    assert BaseName(a) == a;
    assert a[5] == '.';
    assert LastIndexOf(a, '.') == 5;
    var b := ".profile";
    assert b[|b| - 1] != '/';
    assert TrimTrailingSlashes(b) == b;
    assert LastIndexOf(b, '/') == -1;
    assert BaseName(b) == b;
    assert b[0] == '.';
    assert LastIndexOf(b, '.') == 0;
  }

  /** The extension the stored avatar gets: the original's, or ".png" when it has none. */
  function AvatarExt(originalName: string): string {
    var ext := ExtName(originalName);
    if ext == "" then ".png" else ext
  }

  /** The upload storage's file name: `<userId>-<unique><ext>`. */
  function AvatarFileName(userId: UserId, unique: string, originalName: string): string {
    userId + "-" + unique + AvatarExt(originalName)
  }

  /** The extension of `p + e` is `e` when `e` is a slash-free extension and `p` a slash-free stem. */
  lemma ExtNameOfStemAndExt(p: string, e: string)
    requires '/' !in p && p != "" && (|p| == 1 ==> p[0] != '.')
    requires e != "" && e[0] == '.' && '/' !in e
    requires forall j :: 0 < j < |e| ==> e[j] != '.'
    ensures BaseName(p + e) == p + e
    ensures ExtName(p + e) == e
  {
    var name := p + e;
    assert '/' !in name;
    assert name[|name| - 1] == e[|e| - 1];
    assert TrimTrailingSlashes(name) == name;
    assert LastIndexOf(name, '/') == -1;
    assert BaseName(name) == name;
    var i := LastIndexOf(name, '.');
    assert name[|p|] == '.';
    assert i == |p|;
    assert name != ".." by {
      if |name| == 2 {
        assert name[0] == p[0];
      }
    }
    assert name[i..] == e;
  }

  /**
   * The stored file name starts with the owner's id and keeps the
   * original extension (".png" when there is none): reading the extension
   * of the generated name gives back the one chosen, as long as the id and
   * the unique part hold no slash.
   */
  lemma AvatarFileNameShape(userId: UserId, unique: string, originalName: string)
    requires '/' !in userId && '/' !in unique
    ensures var name := AvatarFileName(userId, unique, originalName);
      && name[..|userId| + 1] == userId + "-"
      && ExtName(name) == AvatarExt(originalName)
      && BaseName(name) == name
  {
    var p := userId + "-" + unique;
    var e := AvatarExt(originalName);
    assert e != "" && e[0] == '.' && '/' !in e && forall j :: 0 < j < |e| ==> e[j] != '.' by {
      if ExtName(originalName) == "" {
        assert e == ".png";
      }
    }
    assert |p| >= 1 && '/' !in p;
    assert p[|userId|] == '-';
    ExtNameOfStemAndExt(p, e);
    var name := p + e;
    assert name == AvatarFileName(userId, unique, originalName);
    PrefixKept(userId + "-", unique, |userId| + 1);
    PrefixKept(p, e, |userId| + 1);
  }

  /** A concatenation starts with its left part. */
  lemma PrefixKept(a: string, b: string, n: nat)
    requires n <= |a|
    ensures (a + b)[..n] == a[..n]
  {
  }

  /** The reference written to the record and answered: the public upload path of the file. */
  function PublicPath(fileName: string): (p: string)
    ensures |p| == 9 + |fileName| && p[..9] == "/uploads/" && p[9..] == fileName
  {
    "/uploads/" + fileName
  }

  datatype AvatarBody = AvatarBody(profilePic: string, user: User)

  /**
   * POST /avatar. `file` is the original name of the uploaded file, if
   * one was sent; `unique` is the storage's time-and-random part of the
   * file name.
   */
  method PostAvatar(db: Users, id: UserId, file: Option<string>, unique: string) returns (r: HttpReply<AvatarBody>)
    requires db.Valid()
    modifies db
    ensures db.Valid()
    ensures file.None? ==> r == Status(400, "No file uploaded") && db.docs == old(db.docs)
    ensures file.Some? && id !in old(db.docs) ==> r == Status(500, "Server error") && db.docs == old(db.docs)
    ensures file.Some? && id in old(db.docs) ==>
      var path := PublicPath(AvatarFileName(id, unique, file.value));
      && db.docs == old(db.docs)[id := old(db.docs)[id].(profilePic := Some(path))]
      && r == Ok(AvatarBody(path, db.docs[id]))
  {
    if file.None? {
      r := Status(400, "No file uploaded");
      return;
    }
    var path := PublicPath(AvatarFileName(id, unique, file.value));
    if id !in db.docs {
      r := Status(500, "Server error");
      return;
    }
    var w := db.docs[id].(profilePic := Some(path));
    ReplacePreservesInvariant(db.docs, id, w);
    db.docs := db.docs[id := w];
    r := Ok(AvatarBody(path, w));
  }
}
