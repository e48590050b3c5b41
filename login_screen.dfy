/**
 * The login screen of the client: the password login with its demo-mode
 * fallback, and the guest login.
 */
module LoginScreen {
  import opened Wrappers
  import opened Json
  import opened LocalCache
  import opened App

  /** The body of an ok login answer. */
  datatype Session = Session(token: string, user: Blob)

  /** The user stored when the server cannot be reached. */
  function DemoUser(email: string): (u: Blob)
    ensures u.Keys == {"_id", "name", "email", "bmr", "profilePic"}
    ensures u["_id"] == JStr("demo-user-id") && u["email"] == JStr(email) && u["bmr"] == JNum(1800)
  {
    map["_id" := JStr("demo-user-id"), "name" := JStr("Demo User"), "email" := JStr(email),
        "bmr" := JNum(1800), "profilePic" := JStr("")]
  }

  /** The user stored by the guest login. */
  function GuestUser(): (u: Blob)
    ensures u.Keys == {"_id", "name", "email", "bmr", "profilePic"}
    ensures u["_id"] == JStr("guest") && u["email"] == JStr("guest@example.com") && u["bmr"] == JNum(0)
  {
    map["_id" := JStr("guest"), "name" := JStr("Guest User"), "email" := JStr("guest@example.com"),
        "bmr" := JNum(0), "profilePic" := JStr("")]
  }

  /**
   * The guest reaches every protected page but is not authenticated; the
   * demo user counts as authenticated, yet its token is not real, so every
   * real-token gate stays closed and the gated handlers use the local
   * slots (the avatar uploads and the analysis request are still sent,
   * carrying the demo token).
   */
  lemma FallbackIdentities(email: string)
    ensures IsGuestOrAuthenticated(Some(GuestUser())) && !IsAuthenticated(Some(GuestUser()))
    ensures IsAuthenticated(Some(DemoUser(email)))
    ensures !IsRealToken(Some(DemoToken))
  {
  }

  /** The token slot after `handleSubmit`, from the slot before and the server's answer. */
  function TokenAfterSubmit(before: Option<string>, reply: Reply<Session>): Option<string> {
    match reply
    case Ok(session) => Some(session.token)
    case NotOk => before
    case Throws => Some(DemoToken)
  }

  /**
   * What a login decides for every later real-token gate: after a network
   * error the stored token is the demo token, so every gate stays closed
   * (the avatar uploads and the analysis request are still sent, carrying
   * that token); after a refused login the earlier token still decides;
   * after an ok login the gates open exactly when the answered token is
   * non-empty and not the demo token.
   */
  lemma SubmitDecidesGates(before: Option<string>, reply: Reply<Session>)
    ensures reply.Throws? ==> !IsRealToken(TokenAfterSubmit(before, reply))
    ensures reply.NotOk? ==> (IsRealToken(TokenAfterSubmit(before, reply)) <==> IsRealToken(before))
    ensures reply.Ok? ==>
      (IsRealToken(TokenAfterSubmit(before, reply)) <==> reply.data.token != "" && reply.data.token != DemoToken)
  {
  }

  class Login {
    var email: string
    var password: string

    constructor ()
      ensures email == "" && password == ""
    {
      email, password := "", "";
    }

    /**
     * `handleSubmit`: an ok answer stores its token and user and sets the
     * current user; any other answer stores nothing; a network error
     * stores the demo token and the demo user with the entered email.
     */
    method HandleSubmit(ls: Storage, app: AppState, reply: Reply<Session>)
      modifies ls`token, ls`user, app`user
      ensures ls.token == TokenAfterSubmit(old(ls.token), reply)
      ensures reply.Ok? ==>
        ls.token == Some(reply.data.token) && ls.user == Some(reply.data.user) && app.user == Some(reply.data.user)
      ensures reply.NotOk? ==> ls.token == old(ls.token) && ls.user == old(ls.user) && app.user == old(app.user)
      ensures reply.Throws? ==>
        ls.token == Some(DemoToken) && ls.user == Some(DemoUser(email)) && app.user == Some(DemoUser(email))
    {
      match reply
      case Ok(session) =>
        ls.token := Some(session.token);
        ls.user := Some(session.user);
        app.user := Some(session.user);
      case NotOk =>
      case Throws =>
        ls.token := Some(DemoToken);
        ls.user := Some(DemoUser(email));
        app.user := Some(DemoUser(email));
    }

    /**
     * `handleGuestLogin`: the guest user is stored and set; the token slot
     * is not written, so a real token left from an earlier login still
     * opens the server to the guest.
     */
    method HandleGuestLogin(ls: Storage, app: AppState)
      modifies ls`user, app`user
      ensures ls.user == Some(GuestUser()) && app.user == Some(GuestUser())
      ensures ls.token == old(ls.token)
    {
      ls.user := Some(GuestUser());
      app.user := Some(GuestUser());
    }
  }
}
