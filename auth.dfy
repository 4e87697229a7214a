/**
 * Bearer-token authentication. The token codec (signing and verifying with the server's key) is a
 * parameter: the model does not look inside tokens, it only relies on what the codec answers.
 */
module Auth {
  import opened Wrappers
  import opened Json
  import opened HttpErrors
  import opened Http

  /** The scheme prefix of the `authorization` header; compared case-sensitively. */
  const Prefix: string := "Bearer "

  /** The `authorization` header, when the request carries one as a string. */
  function AuthorizationOf(headers: Value): (r: Option<string>)
    ensures r.Some? <==> Get(headers, "authorization").Some? && Get(headers, "authorization").value.Str?
  {
    match Get(headers, "authorization")
    case Some(Str(s)) => Some(s)
    case _ => None
  }

  /** The header is present, and starts with "Bearer ". */
  predicate HasBearer(auth: Option<string>)
  {
    auth.Some? && Prefix <= auth.value
  }

  /** What follows the prefix. */
  function TokenOf(auth: Option<string>): (token: string)
    requires HasBearer(auth)
    ensures auth.value == Prefix + token
  {
    auth.value[|Prefix|..]
  }

  /** The payload a token carries: `u` is the user's id, when the signer put one in. */
  datatype Claims = Claims(u: Option<string>)

  /** What the verifier answers for a token: its claims, or why it was refused. */
  datatype Verdict = Accepted(claims: Claims) | Rejected(message: string)

  /** What the signer answers for a payload. */
  datatype Signature = Signed(token: string) | Failed(message: string)

  /** Signing and verifying with the server's key. */
  datatype Codec = Codec(verify: string -> Verdict, sign: Claims -> Signature)

  /** Every token the codec signs verifies to the claims it was signed with. */
  ghost predicate RoundTrips(codec: Codec)
  {
    forall c :: codec.sign(c).Signed? ==> codec.verify(codec.sign(c).token) == Accepted(c)
  }

  /** `getUserFromJWT`: a refused token is a 412 carrying the verifier's message. */
  function GetUserFromJWT(codec: Codec, token: string): (r: Result<Principal, Error>)
    ensures r.Ok? <==> codec.verify(token).Accepted?
    ensures r.Ok? ==> r.value.id == codec.verify(token).claims.u
    ensures r.Err? ==> StatusCodeOf(r.error) == PreconditionFailedCode
                       && MessageOf(r.error) == codec.verify(token).message
  {
    match codec.verify(token)
    case Accepted(claims) => Ok(Principal(claims.u))
    case Rejected(message) => Err(PreconditionFailed(message))
  }

  /** `validateAuth` demands a bearer header; `getUserInfoOptional` goes on without one. */
  datatype Mode = Required | Optional

  /** What either authentication middleware decides: an error, a principal, or to go on without one. */
  function Authenticate(mode: Mode, auth: Option<string>, codec: Codec): (r: Result<Option<Principal>, Error>)
    ensures !HasBearer(auth) && mode.Required? ==> r == Err(UnprocessableEntity())
    ensures !HasBearer(auth) && mode.Optional? ==> r == Ok(None)
    ensures HasBearer(auth) ==>
              (r.Ok? <==> codec.verify(TokenOf(auth)).Accepted?)
              && (r.Ok? ==> r.value == Some(Principal(codec.verify(TokenOf(auth)).claims.u)))
              && (r.Err? ==> StatusCodeOf(r.error) == PreconditionFailedCode)
  {
    if !HasBearer(auth) then
      if mode.Required? then Err(UnprocessableEntity()) else Ok(None)
    else
      match GetUserFromJWT(codec, TokenOf(auth))
      case Ok(user) => Ok(Some(user))
      case Err(e) => Err(e)
  }

  /** Once a bearer header is present the two middlewares decide the same. */
  lemma ModesAgreeOnBearer(auth: Option<string>, codec: Codec)
    requires HasBearer(auth)
    ensures Authenticate(Required, auth, codec) == Authenticate(Optional, auth, codec)
  {
  }

  /** The only failures are 422 (no usable header) and 412 (the token was refused). */
  lemma AuthenticationFailures(mode: Mode, auth: Option<string>, codec: Codec)
    ensures Authenticate(mode, auth, codec).Err? ==>
              StatusCodeOf(Authenticate(mode, auth, codec).error)
                == if HasBearer(auth) then PreconditionFailedCode else UnprocessableEntityCode
    ensures Authenticate(mode, auth, codec).Err? <==>
              if HasBearer(auth) then codec.verify(TokenOf(auth)).Rejected? else mode.Required?
  {
  }

  /** The scheme is case-sensitive: "bearer …" is not a bearer header. */
  lemma {:induction false} LowerCaseSchemeRefused(rest: string, codec: Codec)
    ensures !HasBearer(Some("bearer " + rest))
    ensures Authenticate(Required, Some("bearer " + rest), codec) == Err(UnprocessableEntity())
  {
    assert ("bearer " + rest)[0] == 'b' != Prefix[0];
  }

  /** `issueToken`: the signer's failure is forwarded as it is, without a status. */
  function IssueToken(codec: Codec, claims: Claims): (r: Result<string, Error>)
    ensures r.Ok? <==> codec.sign(claims).Signed?
    ensures r.Ok? ==> r.value == codec.sign(claims).token
    ensures r.Err? ==> StatusCodeOf(r.error) == 0 && MessageOf(r.error) == codec.sign(claims).message
  {
    match codec.sign(claims)
    case Signed(token) => Ok(token)
    case Failed(message) => Err(PlainError(message, ""))
  }

  /** A token the server issued, sent back as "Bearer <token>", authenticates as the claims' user. */
  lemma {:induction false} IssuedTokenAuthenticates(codec: Codec, claims: Claims, mode: Mode)
    requires RoundTrips(codec)
    requires IssueToken(codec, claims).Ok?
    ensures var auth := Some(Prefix + IssueToken(codec, claims).value);
            HasBearer(auth) && Authenticate(mode, auth, codec) == Ok(Some(Principal(claims.u)))
  {
    var token := IssueToken(codec, claims).value;
    var auth := Some(Prefix + token);
    assert Prefix <= Prefix + token;
    assert TokenOf(auth) == token by {
      assert (Prefix + token)[|Prefix|..] == token;
    }
    assert codec.verify(token) == Accepted(claims);
  }

  /** `validateAuth`: sets `req.user` from a verified bearer token, or answers with the error. */
  method ValidateAuth(req: Request, codec: Codec) returns (err: Option<Error>)
    modifies req
    ensures req.Snapshot() == old(req.Snapshot())
    ensures var r := Authenticate(Required, AuthorizationOf(old(req.headers)), codec);
            && (r.Err? ==> err == Some(r.error) && req.user == old(req.user))
            && (r.Ok? ==> err.None? && r.value.Some? && req.user == r.value)
  {
    var auth := AuthorizationOf(req.headers);
    if !HasBearer(auth) {
      return Some(UnprocessableEntity());
    }
    match GetUserFromJWT(codec, TokenOf(auth))
    case Err(e) =>
      err := Some(e);
    case Ok(user) =>
      req.user := Some(user);
      err := None;
  }

  /** `getUserInfoOptional`: like `validateAuth`, but a request without a bearer header goes on unchanged. */
  method GetUserInfoOptional(req: Request, codec: Codec) returns (err: Option<Error>)
    modifies req
    ensures req.Snapshot() == old(req.Snapshot())
    ensures var r := Authenticate(Optional, AuthorizationOf(old(req.headers)), codec);
            && (r.Err? ==> err == Some(r.error) && req.user == old(req.user))
            && (r.Ok? ==> err.None? && req.user == if r.value.Some? then r.value else old(req.user))
  {
    var auth := AuthorizationOf(req.headers);
    if !HasBearer(auth) {
      return None;
    }
    match GetUserFromJWT(codec, TokenOf(auth))
    case Err(e) =>
      err := Some(e);
    case Ok(user) =>
      req.user := Some(user);
      err := None;
  }
}
