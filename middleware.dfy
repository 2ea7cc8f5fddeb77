/**
 * The API gate (`src/middleware.ts`): which requests under `/api` reach a
 * handler, given the path and whether the request carries a login token.
 */
module Middleware {

  predicate StartsWith(s: string, prefix: string) {
    |prefix| <= |s| && s[..|prefix|] == prefix
  }

  const AuthRoute: string := "/api/auth"

  /** Routes reachable without a token; matched by prefix, not by path segment. */
  const PublicRoutes: seq<string> := ["/api/plans", "/api/auth/register"]

  predicate IsAuthRoute(path: string) {
    StartsWith(path, AuthRoute)
  }

  predicate IsPublicRoute(path: string) {
    exists i :: 0 <= i < |PublicRoutes| && StartsWith(path, PublicRoutes[i])
  }

  /** The `authorized` callback. */
  function Authorized(path: string, loggedIn: bool): (ok: bool)
    ensures IsAuthRoute(path) ==> ok
    ensures IsPublicRoute(path) ==> ok
    ensures loggedIn ==> ok
    ensures !IsAuthRoute(path) && !IsPublicRoute(path) ==> (ok <==> loggedIn)
  {
    if IsAuthRoute(path) || IsPublicRoute(path) then true
    else loggedIn
  }

  /** The matcher `/api/:path*`: `/api` itself and everything below it. */
  predicate Matched(path: string) {
    path == "/api" || StartsWith(path, "/api/")
  }

  /** What the middleware does with a request. */
  datatype Decision =
    | Bypass            // the matcher does not select the path: the middleware does not run
    | Proceed           // the request reaches its route handler
    | RedirectToSignIn  // `withAuth` answers with a redirect to the sign-in page

  function Gate(path: string, loggedIn: bool): (d: Decision)
    ensures d == Bypass <==> !Matched(path)
    ensures Matched(path) ==> (d == Proceed <==> Authorized(path, loggedIn))
    ensures d == RedirectToSignIn ==> !loggedIn && Matched(path)
  {
    if !Matched(path) then Bypass
    else if Authorized(path, loggedIn) then Proceed
    else RedirectToSignIn
  }

  /** A prefix of a string stays a prefix of every extension of it. */
  lemma StartsWithExtend(s: string, prefix: string, suffix: string)
    requires StartsWith(s, prefix)
    ensures StartsWith(s + suffix, prefix)
  {
    assert (s + suffix)[..|prefix|] == s[..|prefix|];
  }

  /** A prefix of a prefix is a prefix. */
  lemma StartsWithTrans(s: string, p: string, q: string)
    requires StartsWith(s, p) && StartsWith(p, q)
    ensures StartsWith(s, q)
  {
    assert s[..|q|] == s[..|p|][..|q|];
  }

  /** Appending anything to an exempt path (auth or public) keeps it exempt. */
  lemma ExemptionIsPrefixClosed(path: string, suffix: string)
    ensures IsAuthRoute(path) ==> IsAuthRoute(path + suffix)
    ensures IsPublicRoute(path) ==> IsPublicRoute(path + suffix)
    ensures Authorized(path, false) ==> Authorized(path + suffix, false)
  {
    if IsAuthRoute(path) {
      StartsWithExtend(path, AuthRoute, suffix);
    }
    if IsPublicRoute(path) {
      var i :| 0 <= i < |PublicRoutes| && StartsWith(path, PublicRoutes[i]);
      StartsWithExtend(path, PublicRoutes[i], suffix);
    }
  }

  /**
   * The `/api/auth/register` entry adds nothing: every path it admits is
   * already an auth route, so the public routes beyond `/api/auth` are
   * exactly those starting with `/api/plans`.
   */
  lemma RegisterRouteIsAuthRoute(path: string)
    ensures StartsWith(path, "/api/auth/register") ==> IsAuthRoute(path)
    ensures IsPublicRoute(path) && !IsAuthRoute(path) ==> StartsWith(path, "/api/plans")
  {
    if StartsWith(path, "/api/auth/register") {
      StartsWithTrans(path, "/api/auth/register", AuthRoute);
    }
  }

  /** Without a token, `/api/plans` and anything that merely begins with it is reachable. */
  lemma PlansPrefixIsNotSegmentBased()
    ensures Gate("/api/plans", false) == Proceed
    ensures Gate("/api/plans-admin", false) == Proceed
    ensures Gate("/api/feed", false) == RedirectToSignIn
  {
    assert StartsWith("/api/plans", PublicRoutes[0]);
    assert StartsWith("/api/plans-admin", PublicRoutes[0]);
    assert !IsAuthRoute("/api/feed") by {
      assert "/api/feed"[5] != AuthRoute[5];
    }
    assert !IsPublicRoute("/api/feed") by {
      assert |"/api/feed"| < |PublicRoutes[0]| < |PublicRoutes[1]|;
    }
  }

  /** The payment processor's callback, handled by `StripeWebhook`. */
  const WebhookRoute: string := "/api/webhooks/stripe"

  /**
   * The gate refuses the processor's callback unless it carries a login
   * token, which the processor never sends: the path is under the matcher
   * but is neither an auth route nor a public one.
   */
  lemma WebhookNeedsToken()
    ensures Gate(WebhookRoute, false) == RedirectToSignIn
    ensures Gate(WebhookRoute, true) == Proceed
  {
    assert !IsAuthRoute(WebhookRoute) by {
      assert WebhookRoute[..|AuthRoute|][5] != AuthRoute[5];
    }
    assert !IsPublicRoute(WebhookRoute) by {
      forall i | 0 <= i < |PublicRoutes| ensures !StartsWith(WebhookRoute, PublicRoutes[i]) {
        assert WebhookRoute[5] != PublicRoutes[i][5];
      }
    }
  }

  /**
   * `/api/follow` is not exempt: any request with a token, whatever its
   * role, reaches the follow handlers, and none without one does.
   */
  lemma FollowRouteNeedsAnyToken(loggedIn: bool)
    ensures Gate("/api/follow", loggedIn) == (if loggedIn then Proceed else RedirectToSignIn)
  {
    assert !IsAuthRoute("/api/follow") by {
      assert "/api/follow"[..|AuthRoute|][5] != AuthRoute[5];
    }
    assert !IsPublicRoute("/api/follow") by {
      forall i | 0 <= i < |PublicRoutes| ensures !StartsWith("/api/follow", PublicRoutes[i]) {
        assert "/api/follow"[5] != PublicRoutes[i][5];
      }
    }
  }

  /** The public routes with the processor's callback added. */
  const IntendedPublicRoutes: seq<string> := PublicRoutes + [WebhookRoute]

  predicate IsIntendedPublicRoute(path: string) {
    exists i :: 0 <= i < |IntendedPublicRoutes| && StartsWith(path, IntendedPublicRoutes[i])
  }

  /** The gate with the callback exempt, so that a completed checkout can reach its handler. */
  function GateIntended(path: string, loggedIn: bool): (d: Decision)
    ensures d == Bypass <==> !Matched(path)
    ensures d == RedirectToSignIn ==> !loggedIn && !IsIntendedPublicRoute(path)
  {
    if !Matched(path) then Bypass
    else if IsAuthRoute(path) || IsIntendedPublicRoute(path) || loggedIn then Proceed
    else RedirectToSignIn
  }

  /**
   * The corrected gate admits the callback without a token and decides
   * every other path exactly as the gate as written does.
   */
  lemma GateIntendedOnlyAddsWebhook(path: string, loggedIn: bool)
    ensures StartsWith(path, WebhookRoute) ==> GateIntended(path, loggedIn) == Proceed
    ensures !StartsWith(path, WebhookRoute) ==> GateIntended(path, loggedIn) == Gate(path, loggedIn)
  {
    if StartsWith(path, WebhookRoute) {
      StartsWithTrans(path, WebhookRoute, "/api/");
      assert StartsWith(path, IntendedPublicRoutes[|PublicRoutes|]);
    } else {
      if IsPublicRoute(path) {
        var i :| 0 <= i < |PublicRoutes| && StartsWith(path, PublicRoutes[i]);
        assert StartsWith(path, IntendedPublicRoutes[i]);
      }
      if IsIntendedPublicRoute(path) {
        var i :| 0 <= i < |IntendedPublicRoutes| && StartsWith(path, IntendedPublicRoutes[i]);
        assert IntendedPublicRoutes[|PublicRoutes|] == WebhookRoute;
        assert StartsWith(path, PublicRoutes[i]);
      }
    }
  }

  /** Paths outside `/api` never meet the gate, whatever their token. */
  lemma OutsideApiBypasses(path: string, loggedIn: bool)
    requires !StartsWith(path, "/api")
    ensures Gate(path, loggedIn) == Bypass
  {
    if StartsWith(path, "/api/") {
      StartsWithTrans(path, "/api/", "/api");
    }
  }
}
