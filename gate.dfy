/**
 * The bearer-token middleware (`requireAuth`) and the role gate
 * (`requireAdmin`), which routes/search.js and routes/admin.js each define
 * identically, together with the responses the routes send.
 *
 * bcrypt and jsonwebtoken are foreign libraries: `Crypto` holds them as
 * uninterpreted functions, and `Sound` is all the model assumes of them.
 */
module Gate {
  import opened Wrappers
  import opened Models

  /** A token's payload as `jwt.sign` receives it and `jwt.verify` returns it. */
  datatype Claims = Claims(uid: Id, role: string, email: string)

  /**
   * hash(password, salt): `bcrypt.hash` with its random salt made a parameter;
   * compare(password, hash): `bcrypt.compare`;
   * sign(claims): `jwt.sign` with the server's secret and a two-hour expiry;
   * verify(token): `jwt.verify` with the same secret, None when it throws.
   */
  datatype Crypto = Crypto(
    hash: (string, string) -> string,
    compare: (string, string) -> bool,
    sign: Claims -> string,
    verify: string -> Option<Claims>)

  /** A password checks against its own hash; a token issued now verifies to its payload. */
  ghost predicate Sound(crypto: Crypto) {
    && (forall password, salt :: crypto.compare(password, crypto.hash(password, salt)))
    && (forall claims :: crypto.sign(claims) != "" && crypto.verify(crypto.sign(claims)) == Some(claims))
  }

  /** An error response: HTTP status and the `error` field of the JSON body. */
  datatype HttpError = HttpError(status: int, message: string)

  /** A route's response: a status with a body, or an error. */
  datatype Reply<+T> = Ok(status: int, body: T) | Error(status: int, message: string)

  function Fail<T>(e: HttpError): Reply<T> {
    Error(e.status, e.message)
  }

  const BearerPrefix: string := "Bearer "
  const Unauthorized: HttpError := HttpError(401, "Unauthorized")
  const InvalidToken: HttpError := HttpError(401, "Invalid token")
  const Forbidden: HttpError := HttpError(403, "Forbidden")

  /**
   * `h.startsWith('Bearer ') ? h.slice(7) : null`, with an empty token as
   * falsy as null. An absent header is "" (`authorization || ''`).
   */
  function BearerToken(header: string): (token: Option<string>)
    ensures token.Some? <==> |header| > |BearerPrefix| && header[..|BearerPrefix|] == BearerPrefix
    ensures token.Some? ==> header == BearerPrefix + token.value && token.value != ""
  {
    if |header| >= |BearerPrefix| && header[..|BearerPrefix|] == BearerPrefix && header[|BearerPrefix|..] != ""
    then Some(header[|BearerPrefix|..])
    else None
  }

  /** Parsing inverts building the header. */
  lemma BearerRoundTrip(token: string)
    requires token != ""
    ensures BearerToken(BearerPrefix + token) == Some(token)
  {
    var header := BearerPrefix + token;
    assert header[..|BearerPrefix|] == BearerPrefix;
    assert header[|BearerPrefix|..] == token;
  }

  /** `requireAuth`: 401 unless the header carries a token that verifies. */
  function Authenticate(header: string, verify: string -> Option<Claims>): (r: Result<Claims, HttpError>)
    ensures BearerToken(header).None? ==> r == Failure(Unauthorized)
    ensures BearerToken(header).Some? && verify(BearerToken(header).value).None? ==> r == Failure(InvalidToken)
    ensures r.Failure? ==> r.error.status == 401
    ensures r.Success? <==> BearerToken(header).Some? && verify(BearerToken(header).value).Some?
    ensures r.Success? ==> exists token :: header == BearerPrefix + token && verify(token) == Some(r.value)
  {
    match BearerToken(header)
    case None => Failure(Unauthorized)
    case Some(token) =>
      match verify(token)
      case None => Failure(InvalidToken)
      case Some(claims) => Success(claims)
  }

  /** A malformed header is refused without consulting the verifier. */
  lemma MalformedHeaderSkipsVerify(header: string, verify1: string -> Option<Claims>, verify2: string -> Option<Claims>)
    requires BearerToken(header).None?
    ensures Authenticate(header, verify1) == Authenticate(header, verify2) == Failure(Unauthorized)
  {
  }

  /** `requireAdmin`: 403 unless the verified role is exactly "admin". */
  function RequireAdmin(claims: Claims): (r: Result<Claims, HttpError>)
    ensures r.Success? <==> claims.role == "admin"
    ensures r.Success? ==> r.value == claims
    ensures r.Failure? ==> r.error == Forbidden
  {
    if claims.role != "admin" then Failure(Forbidden) else Success(claims)
  }

  /** `requireAuth, requireAdmin` in sequence, as both admin listings and the delete use them. */
  function AdminGate(header: string, verify: string -> Option<Claims>): (r: Result<Claims, HttpError>)
    ensures Authenticate(header, verify).Failure? ==> r == Authenticate(header, verify)
    ensures Authenticate(header, verify).Success? && Authenticate(header, verify).value.role != "admin" ==>
      r == Failure(Forbidden)
    ensures r.Success? <==> Authenticate(header, verify).Success? && Authenticate(header, verify).value.role == "admin"
  {
    match Authenticate(header, verify)
    case Failure(e) => Failure(e)
    case Success(claims) => RequireAdmin(claims)
  }
}
