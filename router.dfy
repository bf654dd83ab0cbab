/** The router's beforeEach guard (src/router/index.js). The decision is a
    function of the target route and the auth store's isAuthenticated; the
    guard runs the store's checkSession first, with getToken's and
    getUserInfo's answers as parameters. */
module Router {
  import opened Wrappers
  import Auth

  /** The parts of a target route the guard reads: its name and
      `meta.requiresAuth`. */
  datatype Route = Route(name: string, requiresAuth: bool)

  datatype Navigation = Proceed | RedirectTo(name: string)

  /** The three-way decision. */
  function Decide(to: Route, isAuthenticated: bool): (n: Navigation)
    ensures to.requiresAuth && !isAuthenticated ==> n == RedirectTo("login")
    ensures !(to.requiresAuth && !isAuthenticated) && (to.name == "login" || to.name == "register") && isAuthenticated
      ==> n == RedirectTo("record")
    ensures n == Proceed <==> !(to.requiresAuth && !isAuthenticated) && !((to.name == "login" || to.name == "register") && isAuthenticated)
  {
    if to.requiresAuth && !isAuthenticated then RedirectTo("login")
    else if (to.name == "login" || to.name == "register") && isAuthenticated then RedirectTo("record")
    else Proceed
  }

  /** A signed-out visitor never reaches a protected route, and a
      signed-in one never sees the login or register page. */
  lemma GuardSeparatesSessions(to: Route, isAuthenticated: bool)
    ensures Decide(to, isAuthenticated) == Proceed && to.requiresAuth ==> isAuthenticated
    ensures Decide(to, isAuthenticated) == Proceed && (to.name == "login" || to.name == "register") ==> !isAuthenticated
  {
  }

  /** The guard as written: the auth store has no `sessionChecked` field,
      so `!authStore.sessionChecked` always holds and checkSession runs
      before every navigation, not only the first. */
  method BeforeEachAsWritten(auth: Auth.Store, to: Route, tokenReply: Option<Option<string>>, userInfoReply: Option<Option<Auth.UserInfo>>)
    returns (n: Navigation)
    modifies auth
    ensures auth.State() == Auth.AfterCheck(old(auth.State()), tokenReply, userInfoReply)
    ensures n == Decide(to, auth.isAuthenticated)
  {
    auth.CheckSession(tokenReply, userInfoReply);
    n := Decide(to, auth.isAuthenticated);
  }

  /** What that costs: a signed-in user whose later getToken call fails is
      signed out and sent to the login page on an ordinary navigation. */
  lemma RecheckSignsOutOnLaterNavigation(s: Auth.AuthState, to: Route)
    requires s.isAuthenticated && to.requiresAuth && to.name != "login" && to.name != "register"
    ensures Decide(to, s.isAuthenticated) == Proceed
    ensures var t := Auth.AfterCheck(s, None, None); !t.isAuthenticated && Decide(to, t.isAuthenticated) == RedirectTo("login")
  {
  }

  /** The guard as its comment intends: the session is checked on the
      first navigation only. */
  class Guard {
    var sessionChecked: bool

    constructor ()
      ensures !sessionChecked
    {
      sessionChecked := false;
    }

    method BeforeEach(auth: Auth.Store, to: Route, tokenReply: Option<Option<string>>, userInfoReply: Option<Option<Auth.UserInfo>>)
      returns (n: Navigation)
      modifies this, auth
      ensures sessionChecked
      ensures !old(sessionChecked) ==> auth.State() == Auth.AfterCheck(old(auth.State()), tokenReply, userInfoReply)
      ensures old(sessionChecked) ==> auth.State() == old(auth.State())
      ensures n == Decide(to, auth.isAuthenticated)
    {
      if !sessionChecked {
        auth.CheckSession(tokenReply, userInfoReply);
        sessionChecked := true;
      }
      n := Decide(to, auth.isAuthenticated);
    }
  }

  /** Once the session is checked, navigations read the store and change
      nothing in it, whatever the secure storage would answer. */
  method LaterNavigationKeepsSession(g: Guard, auth: Auth.Store, first: Route, second: Route,
                                      t1: Option<Option<string>>, u1: Option<Option<Auth.UserInfo>>,
                                      t2: Option<Option<string>>, u2: Option<Option<Auth.UserInfo>>)
    returns (n1: Navigation, n2: Navigation)
    modifies g, auth
    ensures n2 == Decide(second, auth.isAuthenticated)
    ensures old(g.sessionChecked) ==> auth.State() == old(auth.State())
    ensures !old(g.sessionChecked) ==> auth.State() == Auth.AfterCheck(old(auth.State()), t1, u1)
  {
    n1 := g.BeforeEach(auth, first, t1, u1);
    n2 := g.BeforeEach(auth, second, t2, u2);
  }
}
