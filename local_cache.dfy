/**
 * The browser's local storage as the client uses it: five named slots,
 * each holding an already-parsed value or nothing, and the rule every
 * component applies before it talks to the server.
 */
module LocalCache {
  import opened Wrappers
  import opened Json

  /** The token the client stores when it fell back to demo mode. */
  const DemoToken: string := "demo-jwt-token"

  /** `token && token !== 'demo-jwt-token'` */
  predicate IsRealToken(token: Option<string>) {
    token.Some? && token.value != "" && token.value != DemoToken
  }

  /**
   * What a request to the server gave: a 2xx response with its parsed
   * body, a response with another status, or a network error. (axios
   * rejects a non-2xx status, so for the components that use it `NotOk`
   * takes the same path as `Throws`.)
   */
  datatype Reply<T> = Ok(data: T) | NotOk | Throws

  class Storage {
    var token: Option<string>
    var user: Option<Blob>
    var totalCalories: Option<int>
    var fitnessNotes: Option<string>
    var darkMode: Option<string>

    constructor ()
      ensures token.None? && user.None? && totalCalories.None? && fitnessNotes.None? && darkMode.None?
    {
      token, user, totalCalories, fitnessNotes, darkMode := None, None, None, None, None;
    }

    /** `JSON.parse(localStorage.getItem('user') || '{}')` */
    function UserBlob(): (b: Blob)
      reads this
      ensures user.Some? ==> b == user.value
      ensures user.None? ==> b == map[]
    {
      user.GetOr(map[])
    }

    /** `parseInt(localStorage.getItem('totalCalories') || '0', 10)` */
    function LocalTotal(): (n: int)
      reads this
      ensures totalCalories.Some? ==> n == totalCalories.value
      ensures totalCalories.None? ==> n == 0
    {
      totalCalories.GetOr(0)
    }
  }

  /** `user?.[key]`: a field of an optional user object. */
  function UserField(user: Option<Blob>, key: string): (r: Option<Json>)
    ensures r.Some? <==> user.Some? && key in user.value
    ensures r.Some? ==> r.value == user.value[key]
  {
    if user.Some? then Get(user.value, key) else None
  }
}
