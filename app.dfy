/**
 * The client's top-level state: the current user and the dark-mode flag,
 * the two effects run on start, the dark-mode toggle, and the routes.
 */
module App {
  import opened Wrappers
  import opened Json
  import opened LocalCache

  /** `user && user._id !== 'guest'` */
  predicate IsAuthenticated(user: Option<Blob>) {
    user.Some? && Get(user.value, "_id") != Some(JStr("guest"))
  }

  /** `user`: a guest counts. */
  predicate IsGuestOrAuthenticated(user: Option<Blob>) {
    user.Some?
  }

  /** Being authenticated implies having a user; the converse fails for the guest. */
  lemma AuthenticatedHasUser(user: Option<Blob>)
    ensures IsAuthenticated(user) ==> IsGuestOrAuthenticated(user)
    ensures IsGuestOrAuthenticated(user) && !IsAuthenticated(user) ==> user.value["_id"] == JStr("guest")
  {
  }

  /** `localStorage.getItem('darkMode') === 'true'` */
  predicate DarkModeFromSlot(slot: Option<string>) {
    slot == Some("true")
  }

  /** `String(flag)`, as `setItem` stores a boolean. */
  function DarkModeString(flag: bool): (s: string)
    ensures DarkModeFromSlot(Some(s)) == flag
  {
    if flag then "true" else "false"
  }

  datatype Page = LoginPage | SignupPage | HomePage | ExercisePage | SettingsPage | ProfilePage

  datatype View = Render(page: Page) | Redirect(to: string) | NoRoute

  /** The routes that need a user. */
  function ProtectedPage(path: string): Option<Page> {
    if path == "/" then Some(HomePage)
    else if path == "/exercise-ai" then Some(ExercisePage)
    else if path == "/settings" then Some(SettingsPage)
    else if path == "/profile" then Some(ProfilePage)
    else None
  }

  /** What the router shows at `path` for the current user. */
  function Route(path: string, user: Option<Blob>): (v: View)
    ensures ProtectedPage(path).Some? ==>
      v == if IsGuestOrAuthenticated(user) then Render(ProtectedPage(path).value) else Redirect("/login")
    ensures path in {"/login", "/signup"} && user.Some? ==> v == Redirect("/")
    ensures ProtectedPage(path).None? && path !in {"/login", "/signup"} ==> v == NoRoute
  {
    if path == "/login" then (if IsGuestOrAuthenticated(user) then Redirect("/") else Render(LoginPage))
    else if path == "/signup" then (if IsGuestOrAuthenticated(user) then Redirect("/") else Render(SignupPage))
    else if ProtectedPage(path).Some? then
      (if IsGuestOrAuthenticated(user) then Render(ProtectedPage(path).value) else Redirect("/login"))
    else NoRoute
  }

  /** Without a user, only the login and signup pages ever render; with one, they never do. */
  lemma RoutesGateOnUser(path: string, user: Option<Blob>)
    ensures user.None? && Route(path, user).Render? ==> Route(path, user).page in {LoginPage, SignupPage}
    ensures user.Some? && Route(path, user).Render? ==> Route(path, user).page !in {LoginPage, SignupPage}
  {
  }

  class AppState {
    var user: Option<Blob>
    var darkMode: bool

    /** The initial state and the first effect: the stored user, and the flag from its slot. */
    constructor (ls: Storage)
      ensures user == ls.user
      ensures darkMode == DarkModeFromSlot(ls.darkMode)
    {
      user := ls.user;
      darkMode := DarkModeFromSlot(ls.darkMode);
    }

    /**
     * The second effect: `token` and `user` from the URL are stored and the
     * user set only when both parameters are present and non-empty.
     */
    method IntakeOAuth(ls: Storage, tokenParam: Option<string>, userParam: Option<Blob>)
      modifies this`user, ls`token, ls`user
      ensures var taken := tokenParam.Some? && tokenParam.value != "" && userParam.Some?;
        && (taken ==> ls.token == tokenParam && ls.user == userParam && user == userParam)
        && (!taken ==> ls.token == old(ls.token) && ls.user == old(ls.user) && user == old(user))
    {
      if tokenParam.Some? && tokenParam.value != "" && userParam.Some? {
        ls.token := tokenParam;
        ls.user := userParam;
        user := userParam;
      }
    }

    /** `toggleDarkMode`: the flag flips and its new value is stored. */
    method ToggleDarkMode(ls: Storage)
      modifies this`darkMode, ls`darkMode
      ensures darkMode == !old(darkMode)
      ensures ls.darkMode == Some(DarkModeString(darkMode))
      ensures DarkModeFromSlot(ls.darkMode) == darkMode
    {
      darkMode := !darkMode;
      ls.darkMode := Some(DarkModeString(darkMode));
    }
  }

  /** Toggling twice restores the flag, and the slot then reads back as the original flag. */
  method ToggleTwice(app: AppState, ls: Storage)
    modifies app`darkMode, ls`darkMode
    ensures app.darkMode == old(app.darkMode)
    ensures DarkModeFromSlot(ls.darkMode) == old(app.darkMode)
  {
    app.ToggleDarkMode(ls);
    app.ToggleDarkMode(ls);
  }
}
