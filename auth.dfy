/**
 * The authentication options: the credentials sign-in (a check of the
 * entered fields, then the backend's login answer turned into a user or an
 * error message), the token callback that copies the signed-in user into the
 * session token, and the session callback that exposes part of that token.
 *
 * The backend call itself is not part of the model: `Authorize` takes the
 * outcome of the exchange as a parameter.
 */
module NextAuthOptions {
  import opened Common

  /** Sessions last one day, in seconds. */
  const SessionMaxAge: nat := 24 * 60 * 60

  const LoginPage := "/login"

  /** A session lasts 86400 seconds. */
  lemma SessionLastsOneDay()
    ensures SessionMaxAge == 86400
  {
  }

  // ---------------------------------------------------------------------
  // Sign-in with credentials

  /** The submitted fields; `None` is a field that is missing altogether. */
  datatype Credentials = Credentials(email: Option<string>, password: Option<string>)

  /** A string field is truthy when present and not empty. */
  predicate Filled(s: Option<string>)
  {
    s.Some? && s.value != ""
  }

  /** The body posted to the backend's coach-login endpoint. */
  datatype LoginRequest = LoginRequest(email: string, password: string)

  const MissingFieldsMessage := "Email and password are required"
  const RejectedMessage := "Invalid login credentials"
  const FailedMessage := "Login failed. Please check your credentials."

  /** Both fields must be filled before anything is sent. */
  function Precheck(c: Option<Credentials>): (r: Result<LoginRequest>)
    ensures r.Err? <==> !(c.Some? && Filled(c.value.email) && Filled(c.value.password))
    ensures r.Err? ==> r.message == MissingFieldsMessage
    ensures r.Ok? ==> r.value == LoginRequest(c.value.email.value, c.value.password.value)
  {
    if c.None? || !Filled(c.value.email) || !Filled(c.value.password) then Err(MissingFieldsMessage)
    else Ok(LoginRequest(c.value.email.value, c.value.password.value))
  }

  /** A thrown value: an `Error` with its message, or anything else. */
  datatype Thrown = ErrorValue(message: string) | OtherValue

  datatype Coach = Coach(
    id: string, firstName: string, lastName: string, email: string,
    role: string, profileImage: string)

  /** The response's `data`; a token the backend left out is `None` and is copied as such. */
  datatype LoginData = LoginData(coach: Option<Coach>, accessToken: Option<string>, refreshToken: Option<string>)

  /** The response body: JSON that did not parse, or the parsed object's relevant parts. */
  datatype ResponseBody =
    | Unparsable(thrown: Thrown)
    | Body(message: Option<string>, data: Option<LoginData>)

  /** How the backend call went: the request was rejected, or a response arrived. */
  datatype Exchange =
    | FetchRejected(thrown: Thrown)
    | Responded(ok: bool, body: ResponseBody)

  /** The user record sign-in produces. */
  datatype AuthUser = AuthUser(
    id: string, firstName: string, lastName: string, email: string,
    role: string, profileImage: string, accessToken: Option<string>, refreshToken: Option<string>)

  /** The catch block: an `Error` keeps its message unless that is empty. */
  function Rethrown(t: Thrown): (r: string)
    ensures r != ""
    ensures t.ErrorValue? && t.message != "" ==> r == t.message
    ensures !(t.ErrorValue? && t.message != "") ==> r == FailedMessage
  {
    if t.ErrorValue? && t.message != "" then t.message else FailedMessage
  }

  /** The message of a refused login: the backend's, or the fallback when it has none. */
  function RefusalMessage(message: Option<string>): (r: string)
    ensures r != ""
    ensures Filled(message) ==> r == message.value
    ensures !Filled(message) ==> r == RejectedMessage
  {
    if Filled(message) then message.value else RejectedMessage
  }

  /** The try block and its catch: the exchange's outcome as a user or an error message. */
  function LoginOutcome(x: Exchange): (r: Result<AuthUser>)
    ensures r.Ok? <==> x.Responded? && x.ok && x.body.Body? && x.body.data.Some? && x.body.data.value.coach.Some?
    ensures r.Ok? ==>
      var data := x.body.data.value;
      var coach := data.coach.value;
      r.value == AuthUser(
        coach.id, coach.firstName, coach.lastName, coach.email, coach.role,
        coach.profileImage, data.accessToken, data.refreshToken)
    ensures x.FetchRejected? ==> r == Err(Rethrown(x.thrown))
    ensures x.Responded? && x.body.Unparsable? ==> r == Err(Rethrown(x.body.thrown))
    ensures r.Err? ==> r.message != ""
  {
    match x
    case FetchRejected(t) => Err(Rethrown(t))
    case Responded(ok, Unparsable(t)) => Err(Rethrown(t))
    case Responded(ok, Body(message, data)) =>
      if !ok || data.None? || data.value.coach.None? then
        Err(Rethrown(ErrorValue(RefusalMessage(message))))
      else
        var coach := data.value.coach.value;
        Ok(AuthUser(
          coach.id, coach.firstName, coach.lastName, coach.email, coach.role,
          coach.profileImage, data.value.accessToken, data.value.refreshToken))
  }

  /** `authorize`: the precheck, then the exchange with the backend. */
  function Authorize(c: Option<Credentials>, x: Exchange): (r: Result<AuthUser>)
    ensures Precheck(c).Err? ==> r == Err(MissingFieldsMessage)
    ensures Precheck(c).Ok? ==> r == LoginOutcome(x)
  {
    match Precheck(c)
    case Err(m) => Err(m)
    case Ok(_) => LoginOutcome(x)
  }

  /** Missing fields are refused before any exchange: the outcome does not depend on it. */
  lemma MissingFieldsNeverReachBackend(c: Option<Credentials>, x: Exchange, y: Exchange)
    requires !(c.Some? && Filled(c.value.email) && Filled(c.value.password))
    ensures Authorize(c, x) == Authorize(c, y) == Err(MissingFieldsMessage)
  {
  }

  /**
   * A refused login reports the backend's own message when it sent one and
   * the generic refusal otherwise: re-throwing in the catch block does not
   * change it.
   */
  lemma RefusalReported(c: Option<Credentials>, ok: bool, message: Option<string>, data: Option<LoginData>)
    requires Precheck(c).Ok?
    requires !ok || data.None? || data.value.coach.None?
    ensures Authorize(c, Responded(ok, Body(message, data)))
      == Err(if Filled(message) then message.value else RejectedMessage)
  {
  }

  /** A successful sign-in is the coach's record together with both tokens. */
  lemma SignInCopiesCoach(
    c: Option<Credentials>, message: Option<string>, coach: Coach, access: Option<string>, refresh: Option<string>)
    requires Precheck(c).Ok?
    ensures var r := Authorize(c, Responded(true, Body(message, Some(LoginData(Some(coach), access, refresh)))));
      && r.Ok?
      && r.value.id == coach.id && r.value.role == coach.role && r.value.email == coach.email
      && r.value.firstName == coach.firstName && r.value.lastName == coach.lastName
      && r.value.profileImage == coach.profileImage
      && r.value.accessToken == access && r.value.refreshToken == refresh
  {
  }

  /** Every failed sign-in carries a non-empty message. */
  lemma FailuresExplain(c: Option<Credentials>, x: Exchange)
    ensures Authorize(c, x).Err? ==> Authorize(c, x).message != ""
  {
  }

  // ---------------------------------------------------------------------
  // Session token and callbacks

  /** The claims a session token holds; `others` are the claims the callbacks never touch. */
  datatype TokenClaims = TokenClaims(
    id: Option<string>, firstName: Option<string>, lastName: Option<string>,
    email: Option<string>, role: Option<string>, profileImage: Option<string>,
    accessToken: Option<string>, refreshToken: Option<string>,
    others: map<string, string>)

  /** What the token callback makes of `token` when `user` signed in (or did not). */
  function AfterJwt(c: TokenClaims, user: Option<AuthUser>): (r: TokenClaims)
    ensures user.None? ==> r == c
    ensures user.Some? ==>
      && r.id == Some(user.value.id) && r.firstName == Some(user.value.firstName)
      && r.lastName == Some(user.value.lastName) && r.email == Some(user.value.email)
      && r.role == Some(user.value.role) && r.profileImage == Some(user.value.profileImage)
      && r.accessToken == user.value.accessToken
    ensures r.refreshToken == c.refreshToken && r.others == c.others
  {
    match user
    case None => c
    case Some(u) =>
      c.(id := Some(u.id), firstName := Some(u.firstName), lastName := Some(u.lastName),
         email := Some(u.email), role := Some(u.role), profileImage := Some(u.profileImage),
         accessToken := u.accessToken)
  }

  /** The session token, whose claims the token callback assigns one by one. */
  class Token {
    var id: Option<string>
    var firstName: Option<string>
    var lastName: Option<string>
    var email: Option<string>
    var role: Option<string>
    var profileImage: Option<string>
    var accessToken: Option<string>
    var refreshToken: Option<string>
    var others: map<string, string>

    function Claims(): TokenClaims
      reads this
    {
      TokenClaims(id, firstName, lastName, email, role, profileImage, accessToken, refreshToken, others)
    }

    constructor (c: TokenClaims)
      ensures Claims() == c
    {
      id, firstName, lastName, email := c.id, c.firstName, c.lastName, c.email;
      role, profileImage, accessToken := c.role, c.profileImage, c.accessToken;
      refreshToken, others := c.refreshToken, c.others;
    }

    /**
     * The token callback: on sign-in, copy seven of the user's fields into
     * the token; the refresh token is never copied.
     */
    method Jwt(user: Option<AuthUser>)
      modifies this
      ensures Claims() == AfterJwt(old(Claims()), user)
    {
      if user.Some? {
        var u := user.value;
        id := Some(u.id);
        firstName := Some(u.firstName);
        lastName := Some(u.lastName);
        email := Some(u.email);
        role := Some(u.role);
        profileImage := Some(u.profileImage);
        accessToken := u.accessToken;
      }
    }
  }

  /** The user a session exposes: seven claims, read as they are, missing ones included. */
  datatype SessionUser = SessionUser(
    id: Option<string>, firstName: Option<string>, lastName: Option<string>,
    email: Option<string>, role: Option<string>, profileImage: Option<string>,
    accessToken: Option<string>)

  datatype Session = Session(user: Option<SessionUser>, expires: string)

  /** The session callback: replaces the session's user with the token's seven claims. */
  function SessionFromToken(s: Session, c: TokenClaims): (r: Session)
    ensures r.expires == s.expires && r.user.Some?
    ensures r.user.value.id == c.id && r.user.value.role == c.role && r.user.value.email == c.email
    ensures r.user.value.firstName == c.firstName && r.user.value.lastName == c.lastName
    ensures r.user.value.profileImage == c.profileImage && r.user.value.accessToken == c.accessToken
  {
    s.(user := Some(SessionUser(c.id, c.firstName, c.lastName, c.email, c.role, c.profileImage, c.accessToken)))
  }

  /** The session never depends on the refresh token, nor on any other claim. */
  lemma SessionHidesRefreshToken(s: Session, c: TokenClaims, refresh: Option<string>, others: map<string, string>)
    ensures SessionFromToken(s, c.(refreshToken := refresh, others := others)) == SessionFromToken(s, c)
  {
  }

  /**
   * From sign-in to session: after the token callback has seen the signed-in
   * user, the session shows that user's seven fields, whatever the token held.
   */
  lemma SignedInSession(s: Session, c: TokenClaims, u: AuthUser)
    ensures SessionFromToken(s, AfterJwt(c, Some(u))).user
      == Some(SessionUser(Some(u.id), Some(u.firstName), Some(u.lastName), Some(u.email),
                          Some(u.role), Some(u.profileImage), u.accessToken))
  {
  }

  /** Repeating the token callback with the same user changes nothing more. */
  lemma JwtIdempotent(c: TokenClaims, user: Option<AuthUser>)
    ensures AfterJwt(AfterJwt(c, user), user) == AfterJwt(c, user)
  {
  }
}
