/**
 * The profile screen of the client: its form state, and what each handler
 * reads from and writes to the local `user` slot, depending on whether a
 * real token is stored and on what the server answered.
 */
module ProfileScreen {
  import opened Wrappers
  import opened Json
  import opened LocalCache
  import opened Media

  /** The keys the form always holds. */
  const ProfileKeys: set<string> := {"name", "email", "organization", "age", "weight", "height", "bmr", "profilePic"}

  /** The keys the save sends to the server. */
  const PayloadKeys: set<string> := {"name", "organization", "age", "weight", "height", "profilePic"}

  /** The form as the `user` prop fills it (the effect run whenever the prop changes). */
  function SyncedData(user: Option<Blob>): (d: Blob)
    ensures d.Keys == ProfileKeys
    ensures forall k :: k in ProfileKeys && k != "bmr" ==> d[k] == Or(UserField(user, k), JStr(""))
    ensures d["bmr"] == Or(UserField(user, "bmr"), JNum(0))
  {
    map k | k in ProfileKeys :: if k == "bmr" then Or(UserField(user, k), JNum(0)) else Or(UserField(user, k), JStr(""))
  }

  /** The form the component starts with: as synced, but with empty age, weight and height. */
  function InitialData(user: Option<Blob>): (d: Blob)
    ensures d.Keys == ProfileKeys
    ensures d["age"] == JStr("") && d["weight"] == JStr("") && d["height"] == JStr("")
    ensures forall k :: k in ProfileKeys && k !in {"age", "weight", "height"} ==> d[k] == SyncedData(user)[k]
  {
    SyncedData(user)["age" := JStr("")]["weight" := JStr("")]["height" := JStr("")]
  }

  /** The body of the save request: six fields of the form, never email or bmr. */
  function Payload(data: Blob): (p: Blob)
    requires ProfileKeys <= data.Keys
    ensures p.Keys == PayloadKeys
    ensures "email" !in p && "bmr" !in p
    ensures forall k :: k in p ==> p[k] == data[k]
  {
    map k | k in PayloadKeys :: data[k]
  }

  /** `parseInt(profileData.bmr || 0)` */
  function BmrValue(data: Blob): Json {
    ParseIntJson(Or(Get(data, "bmr"), JNum(0)))
  }

  /** The BMR written is the form's number, or 0 when the form's BMR is missing or falsy. */
  lemma BmrValueDefaultsToZero(data: Blob)
    ensures !Truthy(Get(data, "bmr")) ==> BmrValue(data) == JNum(0)
    ensures "bmr" in data && data["bmr"].JNum? ==> BmrValue(data) == data["bmr"]
  {
  }

  /** The local slot after a save: what the server answered, the whole form after an exception, else the payload. */
  function SavedUser(stored: Blob, realToken: bool, reply: Reply<Blob>, data: Blob): Blob
    requires ProfileKeys <= data.Keys
  {
    if realToken && reply.Ok? then Merge(stored, reply.data)
    else if realToken && reply.Throws? then Merge(stored, data)
    else Merge(stored, Payload(data))
  }

  /**
   * A save never loses a stored key, and writes the form's email and bmr
   * only on the exception path: without a real token or with a non-ok
   * answer they keep their stored values.
   */
  lemma SavedUserKeeps(stored: Blob, realToken: bool, reply: Reply<Blob>, data: Blob)
    requires ProfileKeys <= data.Keys
    ensures stored.Keys <= SavedUser(stored, realToken, reply, data).Keys
    ensures !realToken || reply.NotOk? ==>
      forall k :: k in stored && k !in PayloadKeys ==> SavedUser(stored, realToken, reply, data)[k] == stored[k]
    ensures realToken && reply.Throws? ==>
      SavedUser(stored, realToken, reply, data)["email"] == data["email"] &&
      SavedUser(stored, realToken, reply, data)["bmr"] == data["bmr"]
  {
  }

  class Profile {
    var profileData: Blob
    var isEditing: bool

    ghost predicate Valid()
      reads this
    {
      ProfileKeys <= profileData.Keys
    }

    constructor (user: Option<Blob>)
      ensures Valid() && profileData == InitialData(user) && !isEditing
    {
      profileData := InitialData(user);
      isEditing := false;
    }

    /** The effect run when the `user` prop changes: the eight fields from the prop, other keys kept. */
    method OnUserChange(user: Option<Blob>)
      requires Valid()
      modifies this`profileData
      ensures Valid()
      ensures profileData == Merge(old(profileData), SyncedData(user))
    {
      profileData := Merge(profileData, SyncedData(user));
    }

    /**
     * `fetchProfile`: with a real token and an ok answer the server data
     * goes over both the form and the stored user; otherwise the stored
     * user goes over the form and no slot is written.
     */
    method FetchProfile(ls: Storage, reply: Reply<Blob>) returns (requested: bool)
      requires Valid()
      modifies this`profileData, ls`user
      ensures Valid()
      ensures requested == IsRealToken(ls.token)
      ensures IsRealToken(ls.token) && reply.Ok? ==>
        && profileData == Merge(old(profileData), reply.data)
        && ls.user == Some(Merge(old(ls.UserBlob()), reply.data))
      ensures !(IsRealToken(ls.token) && reply.Ok?) ==>
        && profileData == Merge(old(profileData), old(ls.UserBlob()))
        && ls.user == old(ls.user)
    {
      requested := IsRealToken(ls.token);
      if requested && reply.Ok? {
        profileData := Merge(profileData, reply.data);
        ls.user := Some(Merge(ls.UserBlob(), reply.data));
        return;
      }
      profileData := Merge(profileData, ls.UserBlob());
    }

    /**
     * `handleAvatarUpload`: with a file, the upload is sent whatever the
     * token; on success only `profilePic` changes, in the form and in the
     * stored user. A failure changes nothing.
     */
    method HandleAvatarUpload(ls: Storage, file: Option<MediaFile>, reply: Reply<string>) returns (requested: bool)
      requires Valid()
      modifies this`profileData, ls`user
      ensures Valid()
      ensures requested == file.Some?
      ensures file.Some? && reply.Ok? ==>
        && profileData == old(profileData)["profilePic" := JStr(reply.data)]
        && ls.user == Some(old(ls.UserBlob())["profilePic" := JStr(reply.data)])
      ensures !(file.Some? && reply.Ok?) ==> profileData == old(profileData) && ls.user == old(ls.user)
    {
      requested := file.Some?;
      if file.None? {
        return;
      }
      if reply.Ok? {
        var newPic := JStr(reply.data);
        profileData := profileData["profilePic" := newPic];
        ls.user := Some(ls.UserBlob()["profilePic" := newPic]);
      }
    }

    /** `saveProfile`: the payload goes to the server only with a real token; the stored user is always rewritten. */
    method SaveProfile(ls: Storage, reply: Reply<Blob>) returns (request: Option<Blob>)
      requires Valid()
      modifies this`isEditing, ls`user
      ensures Valid() && !isEditing
      ensures request == if IsRealToken(ls.token) then Some(Payload(profileData)) else None
      ensures ls.user == Some(SavedUser(old(ls.UserBlob()), IsRealToken(ls.token), reply, profileData))
    {
      var payload := Payload(profileData);
      if IsRealToken(ls.token) {
        request := Some(payload);
        if reply.Ok? {
          ls.user := Some(Merge(ls.UserBlob(), reply.data));
          isEditing := false;
          return;
        } else if reply.Throws? {
          ls.user := Some(Merge(ls.UserBlob(), profileData));
          isEditing := false;
          return;
        }
      } else {
        request := None;
      }
      ls.user := Some(Merge(ls.UserBlob(), payload));
      isEditing := false;
    }

    /**
     * `saveBmr`: the BMR goes to the server only with a real token, and is
     * written into the stored user unless that request failed.
     */
    method SaveBmr(ls: Storage, reply: Reply<()>) returns (request: Option<Json>)
      requires Valid()
      modifies ls`user
      ensures request == if IsRealToken(ls.token) then Some(BmrValue(profileData)) else None
      ensures !IsRealToken(ls.token) || reply.Ok? ==> ls.user == Some(old(ls.UserBlob())["bmr" := BmrValue(profileData)])
      ensures IsRealToken(ls.token) && !reply.Ok? ==> ls.user == old(ls.user)
    {
      request := None;
      if IsRealToken(ls.token) {
        request := Some(BmrValue(profileData));
        if !reply.Ok? {
          return;
        }
      }
      ls.user := Some(ls.UserBlob()["bmr" := BmrValue(profileData)]);
    }
  }
}
