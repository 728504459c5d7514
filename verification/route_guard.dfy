/** The route guard of `middleware.ts`. The auth callback always passes.
    Paths under the protected prefixes `/home`, `/api/credit` and
    `/api/advisor` (a raw string-prefix test) need a signed-in user: without
    one, API paths get 401 and pages are redirected to `/sign-in` with the
    original path in `redirectedFrom`. Every other path passes without the
    user being looked up. Whether a user is signed in is a parameter. */
module RouteGuard {
  import opened Wrappers
  import opened JsText

  const CallbackPath: string := "/auth/callback"
  const SignInPath: string := "/sign-in"
  const RedirectParam: string := "redirectedFrom"
  const ApiPrefix: string := "/api/"
  const UnauthorizedMessage: string := "Unauthorized"

  /** A query string as its ordered name/value pairs. */
  type Query = seq<(string, string)>

  datatype Decision =
    | PassThrough
    | Unauthorized(status: nat, error: string)
    | Redirect(pathname: string, query: Query)

  predicate IsProtected(pathname: string) {
    StartsWith(pathname, "/home") || StartsWith(pathname, "/api/credit") || StartsWith(pathname, "/api/advisor")
  }

  // ---------------------------------------------------------------------
  // URLSearchParams.set

  /** The pairs of `q` not named `name`, in order. */
  function Without(q: Query, name: string): (r: Query)
    ensures |r| <= |q|
    ensures forall p :: p in r <==> p in q && p.0 != name
  {
    if |q| == 0 then []
    else (if q[0].0 == name then [] else [q[0]]) + Without(q[1..], name)
  }

  /** The value of the first pair named `name`. */
  function Get(q: Query, name: string): Option<string> {
    if |q| == 0 then None
    else if q[0].0 == name then Some(q[0].1)
    else Get(q[1..], name)
  }

  /** No two pairs of `q` are named `name`. */
  predicate AtMostOneNamed(q: Query, name: string) {
    forall i, j :: 0 <= i < |q| && 0 <= j < |q| && q[i].0 == name && q[j].0 == name ==> i == j
  }

  /** `params.set(name, value)`: the first pair named `name` takes the new
      value and any later pairs of that name are removed; with no such pair
      one is appended. */
  function Set(q: Query, name: string, value: string): (r: Query)
    ensures Get(r, name) == Some(value)
    ensures AtMostOneNamed(r, name)
    ensures Without(r, name) == Without(q, name)
    decreases |q|
  {
    if |q| == 0 then [(name, value)]
    else if q[0].0 == name then
      var rest := Without(q[1..], name);
      WithoutIdempotent(q[1..], name);
      var r := [(name, value)] + rest;
      assert r[1..] == rest;
      assert forall i :: 0 < i < |r| ==> r[i] == rest[i - 1] && rest[i - 1] in rest;
      r
    else
      var rest := Set(q[1..], name, value);
      var r := [q[0]] + rest;
      assert r[1..] == rest;
      assert forall i :: 0 < i < |r| ==> r[i] == rest[i - 1];
      r
  }

  lemma {:induction false} WithoutIdempotent(q: Query, name: string)
    ensures Without(Without(q, name), name) == Without(q, name)
    decreases |q|
  {
    if |q| > 0 {
      WithoutIdempotent(q[1..], name);
      var rest := Without(q[1..], name);
      var head: Query := if q[0].0 == name then [] else [q[0]];
      assert (head + rest)[|head|..] == rest;
    }
  }

  // ---------------------------------------------------------------------
  // The middleware

  /** `middleware` for a request to `pathname` with query `query`;
      `signedIn` is whether the auth provider finds a user in the session
      cookies, consulted only for protected paths. */
  function Guard(pathname: string, query: Query, signedIn: bool): (d: Decision)
    ensures d.Redirect? ==> d.pathname == SignInPath && Get(d.query, RedirectParam) == Some(pathname)
    ensures d.Redirect? ==> Without(d.query, RedirectParam) == Without(query, RedirectParam)
    ensures d.Unauthorized? ==> d.status == 401 && d.error == UnauthorizedMessage
  {
    if pathname == CallbackPath then PassThrough
    else if !IsProtected(pathname) then PassThrough
    else if !signedIn then
      if StartsWith(pathname, ApiPrefix) then Unauthorized(401, UnauthorizedMessage)
      else Redirect(SignInPath, Set(query, RedirectParam, pathname))
    else PassThrough
  }

  // ---------------------------------------------------------------------
  // Properties

  /** The auth callback always passes, signed in or not. */
  lemma CallbackAlwaysPasses(query: Query, signedIn: bool)
    ensures Guard(CallbackPath, query, signedIn) == PassThrough
  {
  }

  /** An unprotected path passes, and the user is not consulted: the
      decision is the same signed in or not. */
  lemma UnprotectedIgnoresUser(pathname: string, query: Query)
    requires !IsProtected(pathname)
    ensures Guard(pathname, query, true) == Guard(pathname, query, false) == PassThrough
  {
  }

  /** A signed-in user passes every path. */
  lemma SignedInPasses(pathname: string, query: Query)
    ensures Guard(pathname, query, true) == PassThrough
  {
  }

  /** Without a user, a protected path gets 401 exactly when it is under
      `/api/credit` or `/api/advisor`, and a redirect to the sign-in page
      exactly when it is under `/home`. */
  lemma SignedOutOutcome(pathname: string, query: Query)
    requires IsProtected(pathname)
    ensures Guard(pathname, query, false).Unauthorized?
        <==> StartsWith(pathname, "/api/credit") || StartsWith(pathname, "/api/advisor")
    ensures Guard(pathname, query, false).Redirect? <==> StartsWith(pathname, "/home")
  {
    if StartsWith(pathname, "/api/credit") {
      StartsWithTrans(pathname, "/api/credit", ApiPrefix);
    }
    if StartsWith(pathname, "/api/advisor") {
      StartsWithTrans(pathname, "/api/advisor", ApiPrefix);
    }
    // The three prefixes and the callback path part at their second or
    // third character.
    assert "/home"[1] == 'h' && ApiPrefix[1] == 'a' && ApiPrefix[2] == 'p' && CallbackPath[2] == 'u';
    assert StartsWith(pathname, "/home") ==> pathname[1] == 'h';
    assert StartsWith(pathname, ApiPrefix) ==> pathname[1] == 'a' && pathname[2] == 'p';
  }

  /** A signed-out request for a page under `/home` with no query string
      is sent to `/sign-in?redirectedFrom=<path>`. */
  lemma RedirectCarriesPath(pathname: string)
    requires StartsWith(pathname, "/home")
    ensures Guard(pathname, [], false) == Redirect(SignInPath, [(RedirectParam, pathname)])
  {
    SignedOutOutcome(pathname, []);
  }

  /** The protection test is a raw prefix test: `/homework` and
      `/api/creditors` are protected, `/Home` is not. */
  lemma PrefixNotSegment()
    ensures IsProtected("/homework")
    ensures IsProtected("/api/creditors")
    ensures !IsProtected("/Home")
  {
    assert "/homework"[..5] == "/home";
    assert "/api/creditors"[..11] == "/api/credit";
    assert "/Home"[1] == 'H';
  }
}
