/** Route gating: which paths need a session, which are the sign-in pages, and what
    a request for a path leads to, given whether the visitor has a session. */
module Middleware {

  /** `isProtectedRoute`'s list. */
  const ProtectedRoutes: seq<string> := ["/dashboard", "/profile", "/jobs/post", "/payments", "/chat"]

  /** The directories of `config.matcher`; "/x/:path*" matches "/x" itself and every
      path below "/x/". */
  const MatcherRoots: seq<string> := ["/dashboard", "/profile", "/jobs/post", "/payments", "/chat", "/auth"]

  /** `isProtectedRoute`: some protected route is a prefix of the path (`startsWith`). */
  predicate IsProtectedRoute(path: string): (b: bool)
    ensures b <==> "/dashboard" <= path || "/profile" <= path || "/jobs/post" <= path
                   || "/payments" <= path || "/chat" <= path
    ensures b ==> !("/auth" <= path)
  {
    assert ProtectedRoutes[0] == "/dashboard" && ProtectedRoutes[1] == "/profile";
    assert ProtectedRoutes[2] == "/jobs/post" && ProtectedRoutes[3] == "/payments";
    assert ProtectedRoutes[4] == "/chat";
    assert "/auth" <= path ==> path[1] == 'a';
    exists i :: 0 <= i < |ProtectedRoutes| && ProtectedRoutes[i] <= path
  }

  /** `isAuthRoute`: the login and signup pages (and anything starting like them), and
      "/auth" itself. */
  predicate IsAuthRoute(path: string): (b: bool)
    ensures b ==> "/auth" <= path
    ensures b ==> path == "/auth" || "/auth/" <= path
  {
    "/auth/login" <= path || "/auth/signup" <= path || path == "/auth"
  }

  /** What the middleware answers. */
  datatype Decision =
    | RedirectToLogin(redirectedFrom: string)
    | RedirectToDashboard
    | PassThrough
  {
    /** The path of the redirect target, "" when the request passes through. */
    function Location(): string {
      match this
      case RedirectToLogin(_) => "/auth/login"
      case RedirectToDashboard => "/dashboard"
      case PassThrough => ""
    }
  }

  /** `middleware`: a visitor without a session is sent to the login page from a
      protected path, one with a session is sent to the dashboard from an auth page,
      and everything else passes through. */
  function Decide(hasSession: bool, path: string): (d: Decision)
    ensures d.RedirectToLogin? <==> !hasSession && IsProtectedRoute(path)
    ensures d.RedirectToLogin? ==> d.redirectedFrom == path
    ensures d.RedirectToDashboard? <==> hasSession && IsAuthRoute(path)
  {
    if !hasSession && IsProtectedRoute(path) then RedirectToLogin(path)
    else if hasSession && IsAuthRoute(path) then RedirectToDashboard
    else PassThrough
  }

  /** `config.matcher`: the paths the middleware runs on at all. */
  predicate Matched(path: string): (b: bool)
    ensures b ==> IsProtectedRoute(path) || "/auth" <= path
  {
    exists i :: 0 <= i < |MatcherRoots| && (path == MatcherRoots[i] || MatcherRoots[i] + "/" <= path)
  }

  /** A request as the framework handles it: paths outside the matcher never reach the
      middleware, so the gate only ever drops redirects; every auth page is inside the
      matcher, so a visitor with a session is always sent from it to the dashboard. */
  function Gate(hasSession: bool, path: string): (d: Decision)
    ensures d != PassThrough ==> d == Decide(hasSession, path)
    ensures hasSession && IsAuthRoute(path) ==> d == RedirectToDashboard
  {
    AuthRoutesMatched(path);
    if Matched(path) then Decide(hasSession, path) else PassThrough
  }

  /** Every auth page lies under the matcher's "/auth" directory. */
  lemma AuthRoutesMatched(path: string)
    ensures IsAuthRoute(path) ==> Matched(path)
  {
    assert MatcherRoots[5] == "/auth" && MatcherRoots[5] + "/" == "/auth/";
  }

  // ---------------------------------------------------------------------------
  // Properties

  /** No path is both protected and an auth page: every auth page has 'a' as its second
      character, and no protected route does. */
  lemma ProtectedAndAuthDisjoint(path: string)
    ensures !(IsProtectedRoute(path) && IsAuthRoute(path))
  {
  }

  /** A visitor with a session is never redirected from a protected path. */
  lemma SessionOnProtectedPassesThrough(path: string)
    requires IsProtectedRoute(path)
    ensures Decide(true, path) == PassThrough
  {
    ProtectedAndAuthDisjoint(path);
  }

  /** A visitor without a session can always reach the auth pages (no redirect loop). */
  lemma NoSessionOnAuthPassesThrough(path: string)
    requires IsAuthRoute(path)
    ensures Decide(false, path) == PassThrough
  {
    ProtectedAndAuthDisjoint(path);
  }

  /** Each redirect goes to a page that the same visitor is then let through to. */
  lemma RedirectTargetPassesThrough(hasSession: bool, path: string)
    requires Decide(hasSession, path) != PassThrough
    ensures Decide(hasSession, Decide(hasSession, path).Location()) == PassThrough
  {
    if hasSession {
      assert ProtectedRoutes[0] <= "/dashboard";
      SessionOnProtectedPassesThrough("/dashboard");
    } else {
      assert IsAuthRoute("/auth/login");
      NoSessionOnAuthPassesThrough("/auth/login");
    }
  }

  /** Every matched directory other than "/auth" is protected: without a session, the
      directory itself and any path below it are redirected to the login page. */
  lemma MatchedDirectoriesGuarded(i: nat, path: string)
    requires i < |ProtectedRoutes|
    requires path == ProtectedRoutes[i] || ProtectedRoutes[i] + "/" <= path
    ensures Gate(false, path) == RedirectToLogin(path)
  {
    assert MatcherRoots[i] == ProtectedRoutes[i];
    assert ProtectedRoutes[i] <= path by {
      if path != ProtectedRoutes[i] {
        assert ProtectedRoutes[i] <= ProtectedRoutes[i] + "/";
      }
    }
  }

  /** "/chatroom" starts with "/chat", so `isProtectedRoute` holds for it, but the matcher
      never runs the middleware on it: without a session it is not redirected. */
  lemma ChatroomProtectedButUngated()
    ensures IsProtectedRoute("/chatroom")
    ensures Decide(false, "/chatroom") == RedirectToLogin("/chatroom")
    ensures !Matched("/chatroom") && Gate(false, "/chatroom") == PassThrough
  {
    assert ProtectedRoutes[4] <= "/chatroom";
    forall i | 0 <= i < |MatcherRoots|
      ensures "/chatroom" != MatcherRoots[i] && !(MatcherRoots[i] + "/" <= "/chatroom")
    {
      if i == 4 {
        assert ("/chat" + "/")[5] == '/' && "/chatroom"[5] == 'r';
      } else {
        assert MatcherRoots[i][1] != 'c' || MatcherRoots[i][2] != 'h';
        assert (MatcherRoots[i] + "/")[1] == MatcherRoots[i][1];
        assert (MatcherRoots[i] + "/")[2] == MatcherRoots[i][2];
      }
    }
  }
}
