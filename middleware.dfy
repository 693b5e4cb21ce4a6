/**
 * The page middleware of middleware.ts: a structural check of the `token`
 * cookie, and the decision to redirect a request or let it through, with the
 * `Cache-Control` header it sets. Decoding the token's payload (base64url and
 * `JSON.parse`) is the parameter `decode`; the signature is never checked.
 */
module Middleware {
  import opened Common

  /** Paths open without authentication. */
  const PublicPaths: set<string> := {"/", "/auth/login", "/auth/signup", "/login", "/signup"}

  /** Paths a signed-in user is sent away from. */
  const AuthPagePaths: set<string> := {"/auth/login", "/auth/signup", "/login", "/signup"}

  const Dashboard: string := "/dashboard"
  const LoginPage: string := "/auth/login"
  const RedirectNoStore: string := "no-store, no-cache, must-revalidate"
  const PrivateNoStore: string := "private, no-store, must-revalidate"

  /** What the middleware answers: a redirect to a path, or the request passed on; either
      may carry a `Cache-Control` header. */
  datatype Decision =
    | Redirect(path: string, cacheControl: Option<string>)
    | Pass(cacheControl: Option<string>)

  /** The payload's `exp` when it is a number. */
  function Expiry(payload: Value): Option<int> {
    var exp := Prop(payload, "exp");
    if exp.Num? then Some(exp.n) else None
  }

  /** `isTokenValid`: `decode` is `None` where decoding or parsing throws, and `nowMs` is
      `Date.now()`. */
  predicate IsTokenValid(token: Option<string>, decode: string -> Option<Value>, nowMs: int) {
    if token.None? || token.value == "" then false
    else
      var parts := Split(token.value, '.');
      if |parts| != 3 then false
      else
        var payload := decode(parts[1]);
        if payload.None? || Falsy(payload.value) then false
        else
          match Expiry(payload.value)
          case Some(exp) => exp > nowMs / 1000
          case None => true
  }

  /** `middleware`: the request's path and cookie, the payload decoder and the clock. */
  function Decide(pathname: string, token: Option<string>, decode: string -> Option<Value>, nowMs: int): Decision {
    var authenticated := IsTokenValid(token, decode, nowMs);
    if authenticated && pathname in AuthPagePaths then Redirect(Dashboard, None)
    else if !authenticated && pathname !in PublicPaths then Redirect(LoginPage, Some(RedirectNoStore))
    else Pass(if StartsWith(pathname, Dashboard) then Some(PrivateNoStore) else None)
  }

  /** A valid token has a truthy payload and exactly two dots, so three parts; with a numeric
      `exp` it is valid exactly while `exp` is after the current second, and without one it
      is valid whatever the clock says. */
  lemma TokenValidity(token: Option<string>, decode: string -> Option<Value>, nowMs: int)
    ensures IsTokenValid(token, decode, nowMs) ==>
      && token.Some? && CountChar(token.value, '.') == 2
      && decode(Split(token.value, '.')[1]).Some?
      && !Falsy(decode(Split(token.value, '.')[1]).value)
    ensures token.Some? && CountChar(token.value, '.') == 2 && decode(Split(token.value, '.')[1]).Some?
              && !Falsy(decode(Split(token.value, '.')[1]).value) ==>
      var payload := decode(Split(token.value, '.')[1]).value;
      && (Prop(payload, "exp").Num? ==>
            (IsTokenValid(token, decode, nowMs) <==> Prop(payload, "exp").n * 1000 > nowMs - nowMs % 1000))
      && (!Prop(payload, "exp").Num? ==> IsTokenValid(token, decode, nowMs))
  {
  }

  /** Every page for signing in is public, so `/` and those pages are never redirected to
      the login page, and they only redirect a signed-in user. */
  lemma AuthPagesArePublic(pathname: string, token: Option<string>, decode: string -> Option<Value>, nowMs: int)
    ensures AuthPagePaths <= PublicPaths
    ensures pathname in PublicPaths ==> Decide(pathname, token, decode, nowMs) != Redirect(LoginPage, Some(RedirectNoStore))
    ensures Decide("/", token, decode, nowMs) == Pass(None)
  {
    assert "/" !in AuthPagePaths;
  }

  /** The three outcomes, each with its exact condition. */
  lemma DecisionCases(pathname: string, token: Option<string>, decode: string -> Option<Value>, nowMs: int)
    ensures var valid := IsTokenValid(token, decode, nowMs);
      var d := Decide(pathname, token, decode, nowMs);
      && (d == Redirect(Dashboard, None) <==> valid && pathname in AuthPagePaths)
      && (d == Redirect(LoginPage, Some(RedirectNoStore)) <==> !valid && pathname !in PublicPaths)
      && (d.Pass? <==> (valid && pathname !in AuthPagePaths) || (!valid && pathname in PublicPaths))
      && (d.Pass? ==> (d.cacheControl == Some(PrivateNoStore) <==> StartsWith(pathname, Dashboard)))
  {
    assert Dashboard != LoginPage by {
      assert |Dashboard| != |LoginPage|;
    }
  }
}
