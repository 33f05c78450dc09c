/** The login and logout actions (actions/auth.ts). The user table, the
    login form schema and the password-hash check are parameters: the first is
    the store's, the other two are not part of this model. */
module AuthActions {
  import opened Common
  import opened FieldRules
  import opened Session
  import Middleware

  /** The one message for an unknown email and for a wrong password. */
  const InvalidCredentials := "Email veya şifre hatalı"

  /** A stored admin account, found by its unique email. */
  datatype User = User(id: string, email: string, passwordHash: string)

  /** The parsed login form. */
  datatype LoginInput = LoginInput(email: string, password: string)

  /** `{ error: message }`, or the `redirect(location)` that ends the action. */
  datatype LoginResult = LoginError(message: string) | LoginRedirect(location: string)

  /** The checks `login` makes before anything is written. */
  datatype Verdict = Reject(message: string) | Accept(user: User)

  /** Validate the form, find the user by email, check the password: a
      failing form reports its first issue, and both an unknown email and a
      wrong password report the one shared message. */
  function Authenticate(form: FormData, users: map<string, User>,
                        loginSchema: (FieldValue, FieldValue) -> Parsed<LoginInput>,
                        passwordMatches: (string, string) -> bool): (v: Verdict)
    ensures
      var parsed := loginSchema(FormGet(form, "email"), FormGet(form, "password"));
      && (parsed.Invalid? ==> v == Reject(parsed.message))
      && (parsed.Valid? ==>
            (v.Accept? <==> parsed.data.email in users
                            && passwordMatches(parsed.data.password, users[parsed.data.email].passwordHash))
            && (v.Accept? ==> v.user == users[parsed.data.email])
            && (v.Reject? ==> v.message == InvalidCredentials))
  {
    match loginSchema(FormGet(form, "email"), FormGet(form, "password"))
    case Invalid(message) => Reject(message)
    case Valid(input) =>
      if input.email !in users then Reject(InvalidCredentials)
      else if !passwordMatches(input.password, users[input.email].passwordHash) then Reject(InvalidCredentials)
      else Accept(users[input.email])
  }

  /** Anti-enumeration: a form naming an unknown email and a form naming a
      known email with a wrong password get the same answer. */
  lemma UnknownEmailLooksLikeWrongPassword(
      unknown: FormData, wrong: FormData, users: map<string, User>,
      loginSchema: (FieldValue, FieldValue) -> Parsed<LoginInput>,
      passwordMatches: (string, string) -> bool)
    requires var p := loginSchema(FormGet(unknown, "email"), FormGet(unknown, "password"));
      p.Valid? && p.data.email !in users
    requires var p := loginSchema(FormGet(wrong, "email"), FormGet(wrong, "password"));
      p.Valid? && p.data.email in users
      && !passwordMatches(p.data.password, users[p.data.email].passwordHash)
    ensures Authenticate(unknown, users, loginSchema, passwordMatches)
         == Authenticate(wrong, users, loginSchema, passwordMatches)
         == Reject(InvalidCredentials)
  {
  }

  /** `login`: on success a token for the user's id and email is stored in
      the cookie and the action redirects to the dashboard; on every rejection
      the cookie jar is left as it was. */
  method Login(jar: CookieJar, codec: TokenCodec, production: bool, form: FormData,
               users: map<string, User>,
               loginSchema: (FieldValue, FieldValue) -> Parsed<LoginInput>,
               passwordMatches: (string, string) -> bool) returns (r: LoginResult)
    modifies jar
    ensures
      var v := Authenticate(form, users, loginSchema, passwordMatches);
      && (v.Reject? ==> r == LoginError(v.message) && jar.entries == old(jar.entries))
      && (v.Accept? ==>
            r == LoginRedirect(Middleware.DashboardPath)
            && jar.entries == old(jar.entries)[AuthCookieName :=
                 Cookie(codec.sign(Claims(v.user.id, v.user.email)), Some(AuthCookieOptions(production)))])
  {
    var result := loginSchema(FormGet(form, "email"), FormGet(form, "password"));
    if result.Invalid? {
      return LoginError(result.message);
    }
    if result.data.email !in users {
      return LoginError(InvalidCredentials);
    }
    var user := users[result.data.email];
    var isValid := passwordMatches(result.data.password, user.passwordHash);
    if !isValid {
      return LoginError(InvalidCredentials);
    }
    var token := codec.sign(Claims(user.id, user.email));
    SetAuthCookie(jar, token, production);
    r := LoginRedirect(Middleware.DashboardPath);
  }

  /** After an accepted login, with a sound codec, the cookie written is a
      session for the user, so the gate lets the dashboard through and sends
      the login page on to the dashboard. */
  lemma LoginOpensSession(codec: TokenCodec, user: User)
    requires RoundTrips(codec)
    ensures var token := Text(codec.sign(Claims(user.id, user.email)));
      && SessionOfToken(token, codec) == Some(Claims(user.id, user.email))
      && Middleware.Handle(Middleware.DashboardPath, token, codec) == Middleware.PassThrough
      && Middleware.Handle(Middleware.LoginPath, token, codec) == Middleware.Redirect(Middleware.DashboardPath)
  {
    Middleware.LoginPathIsAdminRoute();
    assert Middleware.MatcherSelects(Middleware.DashboardPath) by {
      assert Middleware.DashboardPath[..|Middleware.AdminPrefix + "/"|] == Middleware.AdminPrefix + "/";
    }
  }

  /** `logout`: drop the cookie, then redirect to the login page, which the
      gate now serves while every other admin page redirects back to it. */
  method Logout(jar: CookieJar) returns (location: string)
    modifies jar
    ensures location == Middleware.LoginPath
    ensures jar.entries == old(jar.entries) - {AuthCookieName}
    ensures forall codec :: GetSession(jar, codec) == None
    ensures forall codec :: Middleware.Handle(Middleware.DashboardPath, jar.Get(AuthCookieName), codec)
                            == Middleware.Redirect(Middleware.LoginPath)
  {
    RemoveAuthCookie(jar);
    location := Middleware.LoginPath;
    assert Middleware.MatcherSelects(Middleware.DashboardPath) by {
      assert Middleware.DashboardPath[..|Middleware.AdminPrefix + "/"|] == Middleware.AdminPrefix + "/";
    }
  }

  /** `checkAuth`: the current session, if the request's cookie holds a
      non-empty token the codec verifies. */
  function CheckAuth(jar: CookieJar, codec: TokenCodec): (session: Option<Claims>)
    reads jar
    ensures session.Some? <==>
      AuthCookieName in jar.entries && jar.entries[AuthCookieName].value != ""
      && codec.verify(jar.entries[AuthCookieName].value).Verified?
    ensures session.Some? ==> codec.verify(jar.entries[AuthCookieName].value) == Verified(session.value)
  {
    GetSession(jar, codec)
  }
}
