/** The two route guards: the provider that sends visitors to the login page and
    signed-in users away from it (src/auth/provider/auth-provider.tsx), and the guard of
    the guest-only pages (src/auth/guard/guest-guard.tsx). Each effect is a method run
    with the values of the render it belongs to; a navigation is returned as the path it
    goes to. The authentication state is an input. */
module Auth {
  import opened Js

  const LoginPath: string := "/auth/login"
  const DashboardPath: string := "/dashboard"
  const AuthPrefix: string := "/auth/"

  /** The routes that need no sign-in. */
  const PublicRoutes: seq<string> := ["/auth/login", "/auth/register", "/auth/forgot-password"]

  /** `publicRoutes.includes(pathname) || pathname.startsWith('/auth/')`. The login
      page is public and the dashboard is not, so neither redirect sends a user to a
      page that would redirect them back. */
  predicate IsPublicRoute(pathname: string): (r: bool)
    ensures pathname in PublicRoutes ==> r
    ensures StartsWith(pathname, AuthPrefix) ==> r
    ensures pathname == LoginPath ==> r
    ensures pathname == DashboardPath ==> !r
  {
    DashboardOutsideAuth();
    pathname in PublicRoutes || StartsWith(pathname, AuthPrefix)
  }

  /** The dashboard path is neither listed nor under `/auth/`. */
  lemma DashboardOutsideAuth()
    ensures DashboardPath !in PublicRoutes && !StartsWith(DashboardPath, AuthPrefix)
  {
    assert DashboardPath[1] != AuthPrefix[1];
  }

  /** Every listed route lies under `/auth/`, so the list adds nothing to the prefix
      test: a route is public exactly when it starts with `/auth/`. */
  lemma PublicIffAuthPrefix(pathname: string)
    ensures IsPublicRoute(pathname) <==> StartsWith(pathname, AuthPrefix)
  {
    if pathname in PublicRoutes {
      assert pathname[..|AuthPrefix|] == AuthPrefix;
    }
  }

  /** The provider's one state: whether the initial check has run. */
  class AuthProvider {
    var isInitialized: bool

    constructor()
      ensures !isInitialized
    {
      isInitialized := false;
    }

    /** The first effect: it acts only before initialisation, marks the provider
        initialised, and sends a visitor who is not signed in on a non-public route to the
        login page. Once initialised it does nothing, so the check runs once. */
    method InitialCheck(pathname: string, isAuthenticated: bool) returns (redirect: Option<string>)
      modifies this`isInitialized
      ensures isInitialized
      ensures old(isInitialized) ==> redirect == None
      ensures !old(isInitialized) ==>
        (redirect == Some(LoginPath) <==> !isAuthenticated && !IsPublicRoute(pathname))
      ensures redirect.Some? ==> redirect == Some(LoginPath)
    {
      redirect := None;
      if !isInitialized {
        isInitialized := true;
        if !isAuthenticated && !IsPublicRoute(pathname) {
          redirect := Some(LoginPath);
        }
      }
    }

    /** The second effect: after initialisation, a signed-in user on a public route is
        sent to the dashboard; no other combination navigates. `initialized` is the value
        the render saw. */
    method AuthChange(initialized: bool, pathname: string, isAuthenticated: bool) returns (redirect: Option<string>)
      ensures redirect.Some? <==> initialized && isAuthenticated && IsPublicRoute(pathname)
      ensures redirect.Some? ==> redirect == Some(DashboardPath)
    {
      if initialized && isAuthenticated && IsPublicRoute(pathname) {
        redirect := Some(DashboardPath);
      } else {
        redirect := None;
      }
    }

    /** The commit of one render: both effects run with the value of `isInitialized` that
        the render read, the first before the second. On the first render only the login
        redirect can happen; on any later one only the dashboard redirect. */
    method RunEffects(pathname: string, isAuthenticated: bool) returns (redirects: seq<string>)
      modifies this`isInitialized
      ensures isInitialized
      ensures !old(isInitialized) ==>
        redirects == (if !isAuthenticated && !IsPublicRoute(pathname) then [LoginPath] else [])
      ensures old(isInitialized) ==>
        redirects == (if isAuthenticated && IsPublicRoute(pathname) then [DashboardPath] else [])
    {
      var seen := isInitialized;
      var first := InitialCheck(pathname, isAuthenticated);
      var second := AuthChange(seen, pathname, isAuthenticated);
      redirects := (if first.Some? then [first.value] else []) + (if second.Some? then [second.value] else []);
    }
  }

  /** `searchParams.get('returnTo') || CONFIG.auth.redirectPath`: the query parameter
      when it is present and non-empty, else the configured path. */
  function ReturnTo(param: Option<string>, redirectPath: string): (r: string)
    ensures param.Some? && param.value != "" ==> r == param.value
    ensures param.None? || param.value == "" ==> r == redirectPath
  {
    if param.Some? && param.value != "" then param.value else redirectPath
  }

  /** The splash condition of the guest guard: always while loading; after loading, only
      for a signed-in user whose redirect is still under way. A guest sees the page as
      soon as loading ends, and so does anyone once the check is over. */
  function ShowSplash(loading: bool, isChecking: bool, isAuthenticated: bool): (s: bool)
    ensures loading ==> s
    ensures !isAuthenticated ==> (s <==> loading)
    ensures !isChecking ==> (s <==> loading)
    ensures !loading ==> (s <==> isChecking && isAuthenticated)
  {
    loading || (isChecking && isAuthenticated)
  }

  /** The guest guard's one state: whether it is still checking. */
  class GuestGuard {
    var isChecking: bool

    constructor()
      ensures isChecking
    {
      isChecking := true;
    }

    /** The guard's effect: while loading, or once the check is over, nothing happens; a
        signed-in user is sent to `returnTo` and the guard keeps checking (so it keeps
        the splash); a guest ends the check and sees the page. The check never resumes. */
    method Check(loading: bool, isAuthenticated: bool, returnTo: string) returns (replaceWith: Option<string>)
      modifies this`isChecking
      ensures !old(isChecking) ==> !isChecking && replaceWith == None
      ensures loading ==> isChecking == old(isChecking) && replaceWith == None && ShowSplash(loading, isChecking, isAuthenticated)
      ensures old(isChecking) && !loading && isAuthenticated ==>
        isChecking && replaceWith == Some(returnTo) && ShowSplash(loading, isChecking, isAuthenticated)
      ensures old(isChecking) && !loading && !isAuthenticated ==>
        !isChecking && replaceWith == None && !ShowSplash(loading, isChecking, isAuthenticated)
    {
      replaceWith := None;
      if isChecking && !loading {
        if isAuthenticated {
          replaceWith := Some(returnTo);
        } else {
          isChecking := false;
        }
      }
    }
  }
}
