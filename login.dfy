/**
 * The login endpoint (app/api/auth/login/route.ts): a chain of checks with
 * early returns. Missing credentials, an unknown email and a wrong password
 * are refused without a cookie; success issues a signed token holding the
 * user's id, role and name in a `token` cookie. An exception at any step is
 * reported as 500 with the name of the step the handler had reached.
 *
 * bcrypt's comparison and the token signer are parameters (`compare`,
 * `sign`); a `fault` says at which step, if any, an exception is raised (the
 * database being unreachable, a body that is not JSON, ...).
 */
module Login {
  import opened Common
  import opened Store
  import opened UserModel
  import Middleware

  /** The steps the handler records before each stage. */
  datatype Step = DbConnect | ParseBody | FindUser | ComparePassword | SignToken | CreateResponse

  function StepName(s: Step): string
  {
    match s
    case DbConnect => "db_connect"
    case ParseBody => "parse_body"
    case FindUser => "find_user"
    case ComparePassword => "compare_password"
    case SignToken => "sign_token"
    case CreateResponse => "create_response"
  }

  /** An exception raised during `step`, with its message. */
  datatype Fault = Fault(step: Step, message: string)

  /** The token payload. */
  datatype Claims = Claims(id: nat, role: Role, name: string)

  /** The `user` object of the success body. */
  datatype SessionUser = SessionUser(id: nat, name: string, email: string, role: Role)

  /** A `Set-Cookie` with its attributes (section 4.1.2 of RFC 6265). */
  datatype Cookie = Cookie(name: string, value: string, httpOnly: bool, secure: bool, maxAge: nat, path: string)

  datatype Session = Session(user: SessionUser, cookie: Cookie)

  /** One week, in seconds. */
  const CookieMaxAge: nat := 60 * 60 * 24 * 7

  /** What bcryptjs throws when the stored hash is missing. */
  const MissingHashError: string := "Illegal arguments: string, undefined"

  predicate RaisedAt(fault: Option<Fault>, s: Step)
  {
    fault.Some? && fault.value.step == s
  }

  /** The 500 reply of the `catch` block. */
  function Failure(s: Step, message: string): (r: Reply<Session>)
    ensures r.Err? && r.status == 500
    ensures r.message == "Failed at " + StepName(s) + ": " + message
  {
    Err(500, "Failed at " + StepName(s) + ": " + message)
  }

  /** The session cookie: `token`, http-only, whole site, one week, secure only in production. */
  function SessionCookie(token: string, production: bool): (c: Cookie)
    ensures c.name == "token" && c.value == token
    ensures c.httpOnly && c.path == "/" && c.maxAge == 604800
    ensures c.secure <==> production
  {
    Cookie("token", token, true, production, CookieMaxAge, "/")
  }

  /** The `POST` handler. */
  function Login(email: string, password: string, users: seq<Doc<User>>,
                 compare: (string, string) -> bool, sign: Claims -> string,
                 production: bool, fault: Option<Fault>): (r: Reply<Session>)
    ensures r.Ok? ==> r.status == 200 && r.value.user.email == email
    ensures r.Ok? ==> r.value.cookie == SessionCookie(r.value.cookie.value, production)
    ensures r.Err? ==> r.status == 400 || r.status == 401 || r.status == 500
    ensures r.Err? && r.status == 500 ==>
      || (fault.Some? && r == Failure(fault.value.step, fault.value.message))
      || r == Failure(ComparePassword, MissingHashError)
  {
    if RaisedAt(fault, DbConnect) then Failure(DbConnect, fault.value.message)
    else if RaisedAt(fault, ParseBody) then Failure(ParseBody, fault.value.message)
    else if !Truthy(email) || !Truthy(password) then Err(400, "Missing credentials")
    else if RaisedAt(fault, FindUser) then Failure(FindUser, fault.value.message)
    else match FirstMatch(users, HasEmail(email))
      case None => Err(401, "User not found")
      case Some(i) =>
        var user := users[i];
        if RaisedAt(fault, ComparePassword) then Failure(ComparePassword, fault.value.message)
        else if user.data.password.None? then Failure(ComparePassword, MissingHashError)
        else if !compare(password, user.data.password.value) then Err(401, "Invalid password")
        else if RaisedAt(fault, SignToken) then Failure(SignToken, fault.value.message)
        else
          var token := sign(Claims(user.id, user.data.role, user.data.name));
          if RaisedAt(fault, CreateResponse) then Failure(CreateResponse, fault.value.message)
          else Ok(200, Session(SessionUser(user.id, user.data.name, user.data.email, user.data.role),
                               SessionCookie(token, production)))
  }

  /** The checks before any lookup: empty or missing email or password is 400, whoever is stored. */
  lemma MissingCredentials(email: string, password: string, users: seq<Doc<User>>,
                           compare: (string, string) -> bool, sign: Claims -> string,
                           production: bool, fault: Option<Fault>)
    requires !RaisedAt(fault, DbConnect) && !RaisedAt(fault, ParseBody)
    requires email == "" || password == ""
    ensures Login(email, password, users, compare, sign, production, fault) == Err(400, "Missing credentials")
  {
  }

  /** An email no stored user has is refused with 401 and no cookie. */
  lemma UnknownEmail(email: string, password: string, users: seq<Doc<User>>,
                     compare: (string, string) -> bool, sign: Claims -> string,
                     production: bool, fault: Option<Fault>)
    requires fault.None? && email != "" && password != ""
    requires forall j :: 0 <= j < |users| ==> users[j].data.email != email
    ensures Login(email, password, users, compare, sign, production, fault) == Err(401, "User not found")
  {
  }

  /**
   * With unique emails, the user a login looks up is the one stored under
   * that email; a password that does not match its hash is refused with 401.
   */
  lemma WrongPassword(email: string, password: string, users: seq<Doc<User>>, i: nat,
                      compare: (string, string) -> bool, sign: Claims -> string,
                      production: bool, fault: Option<Fault>)
    requires fault.None? && password != ""
    requires ValidUsers(users) && i < |users| && users[i].data.email == email
    requires users[i].data.password.Some? && !compare(password, users[i].data.password.value)
    ensures Login(email, password, users, compare, sign, production, fault) == Err(401, "Invalid password")
  {
    FoundByEmail(users, i);
  }

  /**
   * A matching password logs the stored user in: the token is signed over
   * exactly its id, role and name; the body carries id, name, email and role
   * and nothing else; the cookie has the fixed attributes.
   */
  lemma Success(email: string, password: string, users: seq<Doc<User>>, i: nat,
                compare: (string, string) -> bool, sign: Claims -> string,
                production: bool, fault: Option<Fault>)
    requires fault.None? && password != ""
    requires ValidUsers(users) && i < |users| && users[i].data.email == email
    requires users[i].data.password.Some? && compare(password, users[i].data.password.value)
    ensures var u := users[i];
      Login(email, password, users, compare, sign, production, fault)
        == Ok(200, Session(SessionUser(u.id, u.data.name, u.data.email, u.data.role),
                           SessionCookie(sign(Claims(u.id, u.data.role, u.data.name)), production)))
  {
    FoundByEmail(users, i);
  }

  /** `findOne({ email })` on a collection with unique emails finds the user stored under that email. */
  lemma FoundByEmail(users: seq<Doc<User>>, i: nat)
    requires ValidUsers(users) && i < |users|
    ensures FirstMatch(users, HasEmail(users[i].data.email)) == Some(i)
  {
    var r := FirstMatch(users, HasEmail(users[i].data.email));
    assert HasEmail(users[i].data.email)(users[i].data);
    EmailIdentifiesUser(users, r.value, i);
  }

  /**
   * After a successful login the browser holds a non-empty token whenever the
   * signer yields one, and the gate lets it through to every protected page
   * and sends it from the public pages to the dashboard.
   */
  lemma LoginOpensTheGate(email: string, password: string, users: seq<Doc<User>>,
                          compare: (string, string) -> bool, sign: Claims -> string,
                          production: bool, fault: Option<Fault>, pathname: string)
    requires Login(email, password, users, compare, sign, production, fault).Ok?
    requires forall c :: sign(c) != ""
    ensures var token := Some(Login(email, password, users, compare, sign, production, fault).value.cookie.value);
      && (!Middleware.IsPublic(pathname) ==> Middleware.Gate(pathname, token) == Middleware.Next)
      && (Middleware.IsPublic(pathname) ==> Middleware.Gate(pathname, token) == Middleware.Redirect("/dashboard"))
  {
    if Middleware.IsPublic(pathname) {
      Middleware.PublicNotSkipped(pathname);
    }
  }
}
