/**
 * The user record of the server and its schema: which fields exist, which
 * are required, their defaults, and the uniqueness of `email` and of the
 * sparse `googleId` across the collection.
 */
module UserModel {
  import opened Wrappers

  type UserId = string

  /**
   * One document of the users collection. Optional schema fields are
   * `Option`s (`None` is an unset field or `null`; for `googleId` it is
   * only an unset field, since the sparse index still indexes a `null`,
   * and no route writes one). `name` is required by
   * the schema but is an `Option` because the updates of the profile
   * routes bypass validation and may clear it. `createdAt` is the
   * creation time, given by the caller.
   */
  datatype User = User(
    id: UserId,
    googleId: Option<string>,
    name: Option<string>,
    email: string,
    password: Option<string>,
    profilePic: Option<string>,
    organization: Option<string>,
    bmr: int,
    age: Option<int>,
    weight: Option<int>,
    height: Option<int>,
    totalCalories: int,
    createdAt: int)

  datatype CreateError =
    | ValidationError(path: string)   // a required field is missing
    | DuplicateKey(index: string)     // a unique index already holds the value

  /** The schema's `required` check: a required string must be non-empty. */
  predicate Required(s: Option<string>) {
    s.Some? && s.value != ""
  }

  /** What the schema validator accepts when a document is created. */
  predicate RecordValid(u: User) {
    Required(u.name) && u.email != ""
  }

  /** A new document with the schema defaults: no profile fields, BMR 0, total 0. */
  function NewUser(id: UserId, googleId: Option<string>, name: string, email: string,
                   password: Option<string>, createdAt: int): (u: User)
    ensures u.bmr == 0 && u.totalCalories == 0
    ensures u.id == id && u.googleId == googleId && u.name == Some(name)
    ensures u.email == email && u.password == password && u.createdAt == createdAt
    ensures u.profilePic.None? && u.organization.None?
    ensures u.age.None? && u.weight.None? && u.height.None?
  {
    User(id, googleId, Some(name), email, password, None, None, 0, None, None, None, 0, createdAt)
  }

  /** No two documents share an email. */
  ghost predicate UniqueEmails(users: map<UserId, User>) {
    forall a, b :: a in users && b in users && users[a].email == users[b].email ==> a == b
  }

  /** No two documents share a googleId; documents without one are exempt (sparse index). */
  ghost predicate UniqueGoogleIds(users: map<UserId, User>) {
    forall a, b ::
      a in users && b in users && users[a].googleId.Some? && users[a].googleId == users[b].googleId ==> a == b
  }

  /** The collection invariant that the unique indexes keep. */
  ghost predicate StoreInvariant(users: map<UserId, User>) {
    && (forall k :: k in users ==> users[k].id == k)
    && UniqueEmails(users)
    && UniqueGoogleIds(users)
  }

  predicate EmailTaken(users: map<UserId, User>, email: string) {
    exists k :: k in users && users[k].email == email
  }

  predicate GoogleIdTaken(users: map<UserId, User>, googleId: Option<string>) {
    googleId.Some? && exists k :: k in users && users[k].googleId == googleId
  }

  /** Inserting a document: validation first, then the three unique indexes. */
  function Insert(users: map<UserId, User>, u: User): (r: Result<map<UserId, User>, CreateError>)
    ensures r.Success? <==>
      RecordValid(u) && u.id !in users && !EmailTaken(users, u.email) && !GoogleIdTaken(users, u.googleId)
    ensures r.Success? ==> r.value == users[u.id := u]
    ensures r.Failure? && !Required(u.name) ==> r.error == ValidationError("name")
  {
    if !Required(u.name) then Failure(ValidationError("name"))
    else if u.email == "" then Failure(ValidationError("email"))
    else if u.id in users then Failure(DuplicateKey("_id"))
    else if EmailTaken(users, u.email) then Failure(DuplicateKey("email"))
    else if GoogleIdTaken(users, u.googleId) then Failure(DuplicateKey("googleId"))
    else Success(users[u.id := u])
  }

  /** A successful insert keeps the collection invariant, and every stored document got in valid. */
  lemma InsertPreservesInvariant(users: map<UserId, User>, u: User)
    requires StoreInvariant(users)
    requires Insert(users, u).Success?
    ensures StoreInvariant(Insert(users, u).value)
    ensures RecordValid(Insert(users, u).value[u.id])
  {
  }

  /** Any number of documents may lack a googleId: two such documents never clash. */
  lemma SparseGoogleId(users: map<UserId, User>, u: User, w: User)
    requires StoreInvariant(users)
    requires u.googleId.None? && w.googleId.None?
    requires RecordValid(u) && RecordValid(w) && u.id != w.id && u.email != w.email
    requires u.id !in users && w.id !in users
    requires !EmailTaken(users, u.email) && !EmailTaken(users, w.email)
    ensures Insert(users, u).Success?
    ensures Insert(Insert(users, u).value, w).Success?
  {
  }

  /** A second document with an email already in the collection is refused. */
  lemma DuplicateEmailRefused(users: map<UserId, User>, k: UserId, u: User)
    requires k in users && users[k].email == u.email
    ensures Insert(users, u).Failure?
  {
  }

  /**
   * An update that only rewrites fields other than `id`, `email` and
   * `googleId` keeps the collection invariant.
   */
  lemma ReplacePreservesInvariant(users: map<UserId, User>, id: UserId, u: User)
    requires StoreInvariant(users) && id in users
    requires u.id == users[id].id && u.email == users[id].email && u.googleId == users[id].googleId
    ensures StoreInvariant(users[id := u])
  {
    var users' := users[id := u];
    assert forall k :: k in users' ==> users'[k].email == users[k].email && users'[k].googleId == users[k].googleId;
  }
}

/**
 * The users collection, updated in place by the routes. Every method keeps
 * the unique-index invariant.
 */
module UserCollection {
  import opened Wrappers
  import opened UserModel

  class Users {
    var docs: map<UserId, User>

    ghost predicate Valid()
      reads this
    {
      StoreInvariant(docs)
    }

    constructor ()
      ensures Valid() && docs == map[]
    {
      docs := map[];
    }

    /** `new User({...}).save()`: a document with the schema defaults, if validation and the indexes allow it. */
    method Create(id: UserId, googleId: Option<string>, name: string, email: string,
                  password: Option<string>, createdAt: int) returns (r: Result<User, CreateError>)
      requires Valid()
      modifies this
      ensures Valid()
      ensures var u := NewUser(id, googleId, name, email, password, createdAt);
        match Insert(old(docs), u)
        case Success(d) => docs == d && r == Success(u) && docs[id].bmr == 0 && docs[id].totalCalories == 0
        case Failure(e) => docs == old(docs) && r == Failure(e)
    {
      var u := NewUser(id, googleId, name, email, password, createdAt);
      var ins := Insert(docs, u);
      if ins.Success? {
        InsertPreservesInvariant(docs, u);
        docs := ins.value;
        r := Success(u);
      } else {
        r := Failure(ins.error);
      }
    }
  }
}
