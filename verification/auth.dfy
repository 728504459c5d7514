/** Request authentication of `lib/auth.ts`.

    The access token comes from an `Authorization: Bearer <token>` header,
    matched without regard to case, or else from the `sb-access-token`
    cookie. The user is the one the auth provider verifies for that token;
    failing that, a configured demo user when dummy auth is switched on;
    failing that, nobody. The provider's answer and the environment are
    parameters. */
module Auth {
  import opened Wrappers
  import opened JsText

  const BearerPrefix: string := "bearer "
  const DummyDefaultUserId: string := "demo-user-0001"
  const DummyDefaultEmail: string := "tech4earthh@adapt.demo"

  /** The header starts with `bearer ` in any letter case. */
  predicate IsBearer(header: string) {
    StartsWithIgnoringCase(header, BearerPrefix)
  }

  /** `getAccessToken`. `header` is the `Authorization` header (header names
      are case-insensitive, so both reads of the source see the same value);
      `cookie` is the value of the `sb-access-token` cookie. A bearer header
      yields everything after its first seven characters, even when that is
      empty; otherwise a non-empty cookie; otherwise nothing. */
  function AccessToken(header: Option<string>, cookie: Option<string>): (r: Option<string>)
    ensures header.Some? && IsBearer(header.value) ==> r == Some(header.value[|BearerPrefix|..])
    ensures !(header.Some? && IsBearer(header.value)) ==>
      r == (if cookie.Some? && Truthy(cookie.value) then cookie else None)
  {
    if header.Some? && Truthy(header.value) && IsBearer(header.value) then
      Some(header.value[7..])
    else if cookie.Some? && Truthy(cookie.value) then cookie
    else None
  }

  /** Any spelling of the scheme, followed by a token, gives the token back
      whatever the cookie holds. */
  lemma BearerRoundTrip(scheme: string, token: string, cookie: Option<string>)
    requires |scheme| == 7 && forall i :: 0 <= i < 7 ==> LowerAscii(scheme[i]) == BearerPrefix[i]
    ensures AccessToken(Some(scheme + token), cookie) == Some(token)
  {
    var h := scheme + token;
    assert forall i :: 0 <= i < 7 ==> h[i] == scheme[i];
    assert h[7..] == token;
  }

  /** A header that is not a bearer header is ignored: the result is what
      the cookie alone gives. */
  lemma NonBearerFallsThrough(header: string, cookie: Option<string>)
    requires !IsBearer(header)
    ensures AccessToken(Some(header), cookie) == AccessToken(None, cookie)
  {
  }

  lemma NoBearerNoCookie(header: Option<string>)
    requires header.None? || !IsBearer(header.value)
    ensures AccessToken(header, None) == None
    ensures AccessToken(header, Some("")) == None
  {
  }

  /** What the auth provider answered for the token: a user, an error or
      no user, or a thrown exception. */
  datatype Verification = Verified(id: string, email: Option<string>) | Rejected | Threw

  /** The dummy-auth environment variables; `None` when unset. */
  datatype DummyEnv = DummyEnv(enabled: Option<string>, email: Option<string>, userId: Option<string>)

  datatype AuthUser = AuthUser(id: string, email: Option<string>)

  /** Dummy auth is on only when the flag is exactly `true`. */
  predicate DummyEnabled(env: DummyEnv) {
    env.enabled == Some("true")
  }

  /** `getAuthUser`. `providerConfigured` says whether the admin client
      exists; `verification` is what it would answer for the token. */
  function AuthenticatedUser(token: Option<string>, providerConfigured: bool, verification: Verification, env: DummyEnv): (r: Option<AuthUser>)
    ensures token.Some? && Truthy(token.value) && providerConfigured && verification.Verified? ==>
      r == Some(AuthUser(verification.id, verification.email))
    ensures r.Some? && !(token.Some? && Truthy(token.value) && providerConfigured && verification.Verified?) ==>
      DummyEnabled(env)
    ensures r.None? <==> !(token.Some? && Truthy(token.value) && providerConfigured && verification.Verified?) && !DummyEnabled(env)
    ensures r.Some? && !(token.Some? && Truthy(token.value) && providerConfigured && verification.Verified?) ==>
      r.value.id == (if env.userId.Some? && Truthy(env.userId.value) then env.userId.value else DummyDefaultUserId)
      && r.value.email == Some(if env.email.Some? && Truthy(env.email.value) then env.email.value else DummyDefaultEmail)
  {
    if token.Some? && Truthy(token.value) && providerConfigured && verification.Verified? then
      Some(AuthUser(verification.id, verification.email))
    else if DummyEnabled(env) then
      var email := if env.email.Some? && Truthy(env.email.value) then env.email.value else DummyDefaultEmail;
      var id := if env.userId.Some? && Truthy(env.userId.value) then env.userId.value else DummyDefaultUserId;
      Some(AuthUser(id, Some(email)))
    else None
  }

  /** The dummy user, when no real user was verified, has the configured id
      and e-mail or the defaults. */
  lemma DummyUserDefaults(token: Option<string>, providerConfigured: bool, verification: Verification)
    requires !(token.Some? && Truthy(token.value) && providerConfigured && verification.Verified?)
    ensures AuthenticatedUser(token, providerConfigured, verification, DummyEnv(Some("true"), None, None))
         == Some(AuthUser(DummyDefaultUserId, Some(DummyDefaultEmail)))
    ensures AuthenticatedUser(token, providerConfigured, verification, DummyEnv(Some("TRUE"), None, None)) == None
    ensures AuthenticatedUser(token, providerConfigured, verification, DummyEnv(Some("1"), None, None)) == None
  {
  }

  /** A bearer header whose token the provider verifies authenticates that
      user, whatever the cookie and the dummy-auth settings say. */
  lemma VerifiedBearerWins(scheme: string, token: string, cookie: Option<string>, id: string, email: Option<string>, env: DummyEnv)
    requires |scheme| == 7 && forall i :: 0 <= i < 7 ==> LowerAscii(scheme[i]) == BearerPrefix[i]
    requires Truthy(token)
    ensures AuthenticatedUser(AccessToken(Some(scheme + token), cookie), true, Verified(id, email), env)
         == Some(AuthUser(id, email))
  {
    BearerRoundTrip(scheme, token, cookie);
  }
}
