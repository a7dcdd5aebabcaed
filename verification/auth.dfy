/**
 * The sign-in configuration (blingo/lib/auth.ts): the site's base URL, the redirect clamp
 * that keeps every post-login redirect on that site, and the sign-in, session and token
 * callbacks.
 *
 * Environment variables are parameters (`None` when unset). The user upsert done on sign-in
 * is an input that may fail; the session and token are objects whose fields the callbacks set.
 */
module Auth {
  import opened Wrappers
  import opened Text

  /** The environment variables the base URL depends on. */
  datatype Env = Env(nextAuthUrl: Option<string>, vercelProductionUrl: Option<string>)

  const LocalBaseUrl: string := "http://localhost:3000"

  /** A set variable counts only when it is not empty. */
  predicate IsSet(v: Option<string>) {
    v.Some? && v.value != ""
  }

  /** getBaseUrl: the configured URL, else the production deployment over https, else localhost. */
  function GetBaseUrl(env: Env): (r: string)
    ensures IsSet(env.nextAuthUrl) ==> r == env.nextAuthUrl.value
    ensures !IsSet(env.nextAuthUrl) && IsSet(env.vercelProductionUrl) ==> r == "https://" + env.vercelProductionUrl.value
    ensures !IsSet(env.nextAuthUrl) && !IsSet(env.vercelProductionUrl) ==> r == LocalBaseUrl
    ensures r != ""
  {
    if IsSet(env.nextAuthUrl) then env.nextAuthUrl.value
    else if IsSet(env.vercelProductionUrl) then "https://" + env.vercelProductionUrl.value
    else LocalBaseUrl
  }

  /** The Google callback address handed to the provider. */
  function GoogleRedirectUri(env: Env): (r: string)
    ensures StartsWith(r, GetBaseUrl(env)) && r[|GetBaseUrl(env)|..] == "/api/auth/callback/google"
  {
    GetBaseUrl(env) + "/api/auth/callback/google"
  }

  /** redirect: a site-relative path is put under the base, a URL on the site is kept, anything else goes to the base. */
  function Redirect(url: string, env: Env): (r: string)
    ensures StartsWith(url, "/") ==> r == GetBaseUrl(env) + url
    ensures !StartsWith(url, "/") && StartsWith(url, GetBaseUrl(env)) ==> r == url
    ensures !StartsWith(url, "/") && !StartsWith(url, GetBaseUrl(env)) ==> r == GetBaseUrl(env)
  {
    var base := GetBaseUrl(env);
    if StartsWith(url, "/") then base + url
    else if StartsWith(url, base) then url
    else base
  }

  /**
   * Every redirect starts with the base URL. That is a textual prefix, not the same host:
   * see `LookalikeHostKept`.
   */
  lemma RedirectStartsWithBase(url: string, env: Env)
    ensures StartsWith(Redirect(url, env), GetBaseUrl(env))
  {
    var base := GetBaseUrl(env);
    if StartsWith(url, "/") {
      assert (base + url)[..|base|] == base;
    }
  }

  /** When the base is an absolute URL (not a path), redirecting a redirect changes nothing. */
  lemma RedirectIdempotent(url: string, env: Env)
    requires !StartsWith(GetBaseUrl(env), "/")
    ensures Redirect(Redirect(url, env), env) == Redirect(url, env)
  {
    var base := GetBaseUrl(env);
    var r := Redirect(url, env);
    RedirectStartsWithBase(url, env);
    assert r[0] == base[0];
    assert !StartsWith(r, "/");
  }

  /**
   * The prefix test does not stop at the end of the host: whatever follows an absolute base is
   * kept, so with the base "https://blingo.app" the address "https://blingo.app.evil.io/x"
   * comes back unchanged.
   */
  lemma LookalikeHostKept(env: Env, rest: string)
    requires !StartsWith(GetBaseUrl(env), "/")
    ensures Redirect(GetBaseUrl(env) + rest, env) == GetBaseUrl(env) + rest
  {
    var base := GetBaseUrl(env);
    assert (base + rest)[..|base|] == base;
    assert (base + rest)[0] == base[0];
  }

  // ---------------------------------------------------------------- callbacks

  /** The signed-in user as the provider reports it. */
  datatype User = User(email: Option<string>, name: Option<string>, image: Option<string>)

  datatype Account = Account(provider: string, accessToken: Option<string>)

  datatype Profile = Profile(sub: Option<string>)

  /** The row saved for a Google sign-in. */
  datatype UserRecord = UserRecord(googleId: Option<string>, email: Option<string>, name: Option<string>, image: Option<string>)

  /** The answer of signIn: whether sign-in goes ahead, and the record it tried to save, if any. */
  datatype SignInOutcome = SignInOutcome(allowed: bool, upserted: Option<UserRecord>)

  /**
   * signIn: a Google sign-in with a profile saves the user; whether that save fails
   * (`upsertFails`) does not matter, sign-in always goes ahead.
   */
  function SignIn(user: User, account: Option<Account>, profile: Option<Profile>, upsertFails: bool): (r: SignInOutcome)
    ensures r.allowed
    ensures r.upserted.Some? <==> account.Some? && account.value.provider == "google" && profile.Some?
    ensures r.upserted.Some? ==>
      r.upserted.value == UserRecord(profile.value.sub, user.email, user.name, user.image)
  {
    if account.Some? && account.value.provider == "google" && profile.Some? then
      SignInOutcome(true, Some(UserRecord(profile.value.sub, user.email, user.name, user.image)))
    else SignInOutcome(true, None)
  }

  /** The session handed to the browser; `hasUser` is false when it carries no user. */
  class Session {
    var hasUser: bool
    var userId: Option<string>

    constructor (hasUser: bool)
      ensures this.hasUser == hasUser && userId.None?
    {
      this.hasUser := hasUser;
      userId := None;
    }
  }

  /** The signed token. */
  class Token {
    var sub: Option<string>
    var accessToken: Option<string>
    var googleId: Option<string>

    constructor (sub: Option<string>)
      ensures this.sub == sub && accessToken.None? && googleId.None?
    {
      this.sub := sub;
      accessToken := None;
      googleId := None;
    }
  }

  /** session: a session with a user gets the token's subject as the user id. */
  method SessionCallback(session: Session, token: Token) returns (r: Session)
    modifies session
    ensures r == session && session.hasUser == old(session.hasUser)
    ensures session.hasUser ==> session.userId == token.sub
    ensures !session.hasUser ==> session.userId == old(session.userId)
  {
    if session.hasUser {
      session.userId := token.sub;
    }
    return session;
  }

  /** jwt: the access token is copied when there is an account, the Google id when there is a profile. */
  method JwtCallback(token: Token, account: Option<Account>, profile: Option<Profile>) returns (r: Token)
    modifies token
    ensures r == token && token.sub == old(token.sub)
    ensures token.accessToken == if account.Some? then account.value.accessToken else old(token.accessToken)
    ensures token.googleId == if profile.Some? then profile.value.sub else old(token.googleId)
  {
    if account.Some? {
      token.accessToken := account.value.accessToken;
    }
    if profile.Some? {
      token.googleId := profile.value.sub;
    }
    return token;
  }
}
