/** The access guard of `src/components/ProtectedAdminDashboard.tsx`: what it
    renders and where its effect navigates, from the session's `loading` and
    `isAuthenticated` alone. */
module ProtectedAdminDashboard {
  import opened Wrappers
  import AuthContext

  datatype Screen = Spinner | Blank | Dashboard

  /** One render: the navigation the effect requests, if any, and the screen. */
  datatype GuardView = GuardView(redirect: Option<string>, screen: Screen)

  function Guard(loading: bool, isAuthenticated: bool): (v: GuardView)
    ensures v.screen == Spinner <==> loading
    ensures v.screen == Dashboard <==> !loading && isAuthenticated
    ensures v.screen == Blank <==> !loading && !isAuthenticated
    ensures v.redirect.Some? <==> !loading && !isAuthenticated
    ensures v.redirect.Some? ==> v.redirect.value == "/login"
    ensures isAuthenticated ==> v.redirect.None?
  {
    var redirect := if !loading && !isAuthenticated then Some("/login") else None;
    if loading then GuardView(redirect, Spinner)
    else if !isAuthenticated then GuardView(redirect, Blank)
    else GuardView(redirect, Dashboard)
  }

  /** After the provider hydrates on a page load, the dashboard shows exactly
      when storage holds a token and user text that parses; otherwise the
      guard sends the visitor to the login page. */
  lemma GuardAfterReload(storage: map<string, string>, parse: string -> Option<AuthContext.User>)
    ensures var s := AuthContext.Reloaded(storage, parse);
            var v := Guard(false, s.isAuthenticated);
            && (v.screen == Dashboard <==>
                  AuthContext.Stored(storage, AuthContext.TokenKey) && AuthContext.Stored(storage, AuthContext.UserKey)
                  && parse(storage[AuthContext.UserKey]).Some?)
            && (v.redirect == Some("/login") <==> v.screen != Dashboard)
  {
  }
}
