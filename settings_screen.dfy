/**
 * The settings screen of the client: the BMR save, logout, the avatar
 * upload and the password change.
 */
module SettingsScreen {
  import opened Wrappers
  import opened Json
  import opened LocalCache
  import opened Media

  class Settings {
    var bmr: Json
    var currentPassword: string
    var newPassword: string

    constructor (user: Option<Blob>)
      ensures bmr == Or(UserField(user, "bmr"), JNum(0))
      ensures currentPassword == "" && newPassword == ""
    {
      bmr := Or(UserField(user, "bmr"), JNum(0));
      currentPassword, newPassword := "", "";
    }

    /** The effect run when the `user` prop changes. */
    method OnUserChange(user: Option<Blob>)
      modifies this`bmr
      ensures bmr == Or(UserField(user, "bmr"), JNum(0))
    {
      bmr := Or(UserField(user, "bmr"), JNum(0));
    }

    /**
     * `saveBmr`: `parseInt(bmr)` goes to the server only with a real token,
     * and into the stored user unless that request failed.
     */
    method SaveBmr(ls: Storage, reply: Reply<()>) returns (request: Option<Json>)
      modifies ls`user
      ensures request == if IsRealToken(ls.token) then Some(ParseIntJson(bmr)) else None
      ensures !IsRealToken(ls.token) || reply.Ok? ==> ls.user == Some(old(ls.UserBlob())["bmr" := ParseIntJson(bmr)])
      ensures IsRealToken(ls.token) && !reply.Ok? ==> ls.user == old(ls.user)
    {
      request := None;
      if IsRealToken(ls.token) {
        request := Some(ParseIntJson(bmr));
        if !reply.Ok? {
          return;
        }
      }
      ls.user := Some(ls.UserBlob()["bmr" := ParseIntJson(bmr)]);
    }

    /** `handleLogout`: exactly the `token` and `user` slots are removed (the frame keeps the other three). */
    method Logout(ls: Storage)
      modifies ls`token, ls`user
      ensures ls.token.None? && ls.user.None?
    {
      ls.token := None;
      ls.user := None;
    }

    /** `handleProfilePic`: with a file, the upload is sent; on success only `profilePic` of the stored user changes. */
    method HandleProfilePic(ls: Storage, file: Option<MediaFile>, reply: Reply<string>) returns (requested: bool)
      modifies ls`user
      ensures requested == file.Some?
      ensures file.Some? && reply.Ok? ==> ls.user == Some(old(ls.UserBlob())["profilePic" := JStr(reply.data)])
      ensures !(file.Some? && reply.Ok?) ==> ls.user == old(ls.user)
    {
      requested := file.Some?;
      if file.Some? && reply.Ok? {
        ls.user := Some(ls.UserBlob()["profilePic" := JStr(reply.data)]);
      }
    }

    /**
     * `handlePasswordChange`: refused without a real token, with no request;
     * the two fields are cleared only after a successful change.
     */
    method HandlePasswordChange(ls: Storage, reply: Reply<()>) returns (request: Option<(string, string)>)
      modifies this`currentPassword, this`newPassword
      ensures request == if IsRealToken(ls.token) then Some((old(currentPassword), old(newPassword))) else None
      ensures IsRealToken(ls.token) && reply.Ok? ==> currentPassword == "" && newPassword == ""
      ensures !(IsRealToken(ls.token) && reply.Ok?) ==>
        currentPassword == old(currentPassword) && newPassword == old(newPassword)
    {
      if !IsRealToken(ls.token) {
        request := None;
        return;
      }
      request := Some((currentPassword, newPassword));
      if reply.Ok? {
        currentPassword := "";
        newPassword := "";
      }
    }
  }
}
