/** The session gate (lib/auth.ts): a signed token in the `auth-token`
    cookie of the current request. Signing and verifying are an abstract
    codec: `sign` stands for `createToken`, `verify` for the library call that
    either yields the payload or throws. The cookie store of one request is a
    jar the set and delete operations update in place. */
module Session {
  import opened Common

  const AuthCookieName := "auth-token"
  /** Seven days, the lifetime of the session cookie. */
  const SessionMaxAge := 604800

  /** The identity a session token carries. */
  datatype Claims = Claims(userId: string, email: string)

  /** What the token library does with a token: return its payload, or throw
      (bad signature, expired, malformed) with some reason. */
  datatype JwtOutcome = Verified(payload: Claims) | Rejected(reason: string)

  datatype TokenCodec = TokenCodec(sign: Claims -> string, verify: string -> JwtOutcome)

  /** The codec's own promise: a token it signs is non-empty and verifies to
      the claims it was signed with (until it expires). */
  ghost predicate RoundTrips(codec: TokenCodec)
  {
    forall c :: codec.sign(c) != "" && codec.verify(codec.sign(c)) == Verified(c)
  }

  /** `verifyToken`: the library's verdict with every thrown error turned
      into "no session", so that it fails closed. */
  function VerifyToken(codec: TokenCodec, token: string): (session: Option<Claims>)
    ensures session == None <==> codec.verify(token).Rejected?
    ensures session.Some? ==> codec.verify(token) == Verified(session.value)
  {
    match codec.verify(token)
    case Verified(payload) => Some(payload)
    case Rejected(_) => None
  }

  /** The session a cookie value gives: none for an absent or empty value
      (the verifier is not consulted), else the verifier's verdict. */
  function SessionOfToken(token: FieldValue, codec: TokenCodec): Option<Claims>
  {
    if !Truthy(token) then None else VerifyToken(codec, token.s)
  }

  datatype SameSite = Strict | Lax | NoRestriction

  datatype CookieOptions = CookieOptions(
    httpOnly: bool, secure: bool, sameSite: SameSite, maxAge: int, path: string)

  /** A cookie of the jar; one the request brought carries no options. */
  datatype Cookie = Cookie(value: string, options: Option<CookieOptions>)

  /** The options `setAuthCookie` writes the token with; `secure` follows the
      deployment being the production one. */
  function AuthCookieOptions(production: bool): (o: CookieOptions)
    ensures o.httpOnly && o.sameSite == Lax && o.path == "/" && o.secure == production
    ensures o.maxAge == SessionMaxAge
  {
    CookieOptions(true, production, Lax, 60 * 60 * 24 * 7, "/")
  }

  /** The cookie store of one request. */
  class CookieJar {
    var entries: map<string, Cookie>

    constructor (incoming: map<string, Cookie>)
      ensures entries == incoming
    {
      entries := incoming;
    }

    /** `cookieStore.get(name)?.value` */
    function Get(name: string): FieldValue
      reads this
    {
      if name in entries then Text(entries[name].value) else Undefined
    }

    method Set(name: string, value: string, options: CookieOptions)
      modifies this
      ensures entries == old(entries)[name := Cookie(value, Some(options))]
    {
      entries := entries[name := Cookie(value, Some(options))];
    }

    method Delete(name: string)
      modifies this
      ensures entries == old(entries) - {name}
    {
      entries := entries - {name};
    }
  }

  /** `getSession`: look up the token, then verify it. */
  function GetSession(jar: CookieJar, codec: TokenCodec): (session: Option<Claims>)
    reads jar
    ensures AuthCookieName !in jar.entries ==> session == None
    ensures AuthCookieName in jar.entries && jar.entries[AuthCookieName].value == "" ==> session == None
    ensures AuthCookieName in jar.entries && jar.entries[AuthCookieName].value != "" ==>
      session == VerifyToken(codec, jar.entries[AuthCookieName].value)
  {
    SessionOfToken(jar.Get(AuthCookieName), codec)
  }

  /** `setAuthCookie`: store the token under `auth-token`; every other
      cookie stays as it was, and the session is now the token's. */
  method SetAuthCookie(jar: CookieJar, token: string, production: bool)
    modifies jar
    ensures jar.entries == old(jar.entries)[AuthCookieName := Cookie(token, Some(AuthCookieOptions(production)))]
    ensures forall name :: name != AuthCookieName ==> jar.Get(name) == old(jar.Get(name))
    ensures jar.Get(AuthCookieName) == Text(token)
    ensures forall codec :: GetSession(jar, codec) == SessionOfToken(Text(token), codec)
  {
    jar.Set(AuthCookieName, token, AuthCookieOptions(production));
  }

  /** `removeAuthCookie`: after it there is no session, whatever the codec. */
  method RemoveAuthCookie(jar: CookieJar)
    modifies jar
    ensures jar.entries == old(jar.entries) - {AuthCookieName}
    ensures forall codec :: GetSession(jar, codec) == None
  {
    jar.Delete(AuthCookieName);
  }

  /** With a sound codec, a jar holding a token signed for some claims is a
      session for exactly those claims. */
  lemma SignedTokenIsSession(codec: TokenCodec, claims: Claims)
    requires RoundTrips(codec)
    ensures SessionOfToken(Text(codec.sign(claims)), codec) == Some(claims)
  {
  }
}
