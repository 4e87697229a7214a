/**
 * The account handlers: sign-up, sign-in and the (unrouted) password change. Like the to-do
 * handlers, each is specified by a function over the user table and the validated body, and the
 * methods are proved to follow it.
 */
module UserHandlers {
  import opened Wrappers
  import opened HttpErrors
  import opened Schema
  import opened UserModels
  import opened Store
  import opened Http
  import opened Auth

  /** The new user rows and what the handler answers. */
  datatype Outcome = Outcome(users: map<string, User>, reply: Result<Reply, Error>)

  /** `signup`: a taken address is a conflict; otherwise the user is stored and `{ok: true}` answered. */
  function SignupOutcome(users: map<string, User>, newId: string, c: Credentials): (r: Outcome)
    ensures c.email in users ==> r == Outcome(users, Err(Conflict()))
    ensures r.reply.Ok? <==> c.email !in users && !IdTaken(users, newId)
    ensures r.reply.Err? ==> r.users == users
    ensures r.reply.Ok? ==>
              && r.reply.value == Ack(true)
              && r.users.Keys == users.Keys + {c.email}
              && r.users[c.email] == User(newId, c.email, c.password)
              && forall e :: e in users ==> r.users[e] == users[e]
  {
    if c.email in users then Outcome(users, Err(Conflict()))
    else if IdTaken(users, newId) then Outcome(users, Err(UniqueViolation))
    else Outcome(users[c.email := User(newId, c.email, c.password)], Ok(Ack(true)))
  }

  /** Sign-up keeps addresses and identifiers unique. */
  lemma {:induction false} SignupKeepsUsersKeyed(users: map<string, User>, newId: string, c: Credentials)
    requires UsersKeyed(users)
    ensures UsersKeyed(SignupOutcome(users, newId, c).users)
  {
    var r := SignupOutcome(users, newId, c);
    if r.reply.Ok? {
      assert forall e :: e in users ==> users[e].id != newId;
    }
  }

  /** The token reply for a user, or the signer's failure. */
  function TokenFor(u: User, codec: Codec): (r: Result<Reply, Error>)
    ensures r.Ok? <==> codec.sign(Claims(Some(u.id))).Signed?
    ensures r.Ok? ==> r.value == TokenReply(codec.sign(Claims(Some(u.id))).token)
    ensures r.Err? ==> StatusCodeOf(r.error) == 0
  {
    match IssueToken(codec, Claims(Some(u.id)))
    case Ok(token) => Ok(TokenReply(token))
    case Err(e) => Err(e)
  }

  /** `signin` as written: the address alone selects the user; the password is never looked at. */
  function SigninOutcome(users: map<string, User>, c: Credentials, codec: Codec): (r: Result<Reply, Error>)
    ensures c.email !in users ==> r == Err(Unauthorized())
    ensures c.email in users ==> r == TokenFor(users[c.email], codec)
  {
    if c.email !in users then Err(Unauthorized()) else TokenFor(users[c.email], codec)
  }

  /**
   * The discrepancy: a registered address with the wrong password is answered with a token,
   * where the sign-in test expects 401.
   */
  lemma {:induction false} SigninIgnoresPassword(users: map<string, User>, email: string, wrong: string, codec: Codec)
    requires email in users && users[email].password != wrong
    requires codec.sign(Claims(Some(users[email].id))).Signed?
    ensures SigninOutcome(users, Credentials(email, wrong), codec).Ok?
    ensures SigninOutcome(users, Credentials(email, wrong), codec)
            == SigninOutcome(users, Credentials(email, users[email].password), codec)
  {
    assert TokenFor(users[email], codec).Ok?;
  }

  /** `signin` as evidently intended: the stored digest must equal the submitted one. */
  function CheckedSigninOutcome(users: map<string, User>, c: Credentials, codec: Codec): (r: Result<Reply, Error>)
    ensures c.email !in users || users[c.email].password != c.password ==> r == Err(Unauthorized())
    ensures c.email in users && users[c.email].password == c.password ==> r == TokenFor(users[c.email], codec)
  {
    if c.email !in users || users[c.email].password != c.password then Err(Unauthorized())
    else TokenFor(users[c.email], codec)
  }

  /** With the check, an unknown address and a wrong password cannot be told apart. */
  lemma {:induction false} CheckedSigninRefusesWrongPassword(users: map<string, User>, email: string, wrong: string, unknown: string, codec: Codec)
    requires email in users && users[email].password != wrong
    requires unknown !in users
    ensures CheckedSigninOutcome(users, Credentials(email, wrong), codec)
            == CheckedSigninOutcome(users, Credentials(unknown, wrong), codec)
            == Err(Unauthorized())
    ensures StatusCodeOf(Unauthorized()) == UnauthorizedCode
  {
  }

  /** The corrected sign-in accepts exactly what the as-written one accepts with the right password. */
  lemma CheckedSigninAgreesOnRightPassword(users: map<string, User>, c: Credentials, codec: Codec)
    requires c.email in users && users[c.email].password == c.password
    ensures CheckedSigninOutcome(users, c, codec) == SigninOutcome(users, c, codec)
  {
  }

  /** The token the written sign-in hands out authenticates later requests as the user it was issued for. */
  lemma {:induction false} SigninTokenAuthenticates(users: map<string, User>, c: Credentials, codec: Codec)
    requires RoundTrips(codec)
    requires SigninOutcome(users, c, codec).Ok?
    ensures var token := SigninOutcome(users, c, codec).value.token;
            Authenticate(Required, Some(Prefix + token), codec) == Ok(Some(Principal(Some(users[c.email].id))))
  {
    IssuedTokenAuthenticates(codec, Claims(Some(users[c.email].id)), Required);
  }

  /**
   * `changePassword`: without a principal it is a bad request; otherwise the record matching the
   * principal's id and the body's address gets the new password, and no match is "record not found".
   */
  function ChangePasswordOutcome(users: map<string, User>, user: Option<Principal>, c: Credentials): (r: Outcome)
    ensures user.None? ==> r == Outcome(users, Err(BadRequest()))
    ensures r.reply.Ok? <==> user.Some? && c.email in users && MatchesWhere(users[c.email], user.value.id, c.email)
    ensures r.reply.Err? ==> r.users == users
    ensures user.Some? && r.reply.Err? ==> r.reply.error == RecordNotFound
    ensures r.reply.Ok? ==>
              && r.reply.value == Ack(true)
              && r.users.Keys == users.Keys
              && r.users[c.email] == User(users[c.email].id, c.email, c.password)
              && forall e :: e in users && e != c.email ==> r.users[e] == users[e]
  {
    if user.None? then Outcome(users, Err(BadRequest()))
    else if c.email in users && MatchesWhere(users[c.email], user.value.id, c.email) then
      Outcome(users[c.email := users[c.email].(password := c.password)], Ok(Ack(true)))
    else Outcome(users, Err(RecordNotFound))
  }

  /** A principal whose token carried no `u` may change the password of any address it names. */
  lemma AnonymousChangesAnyPassword(users: map<string, User>, c: Credentials)
    requires c.email in users && users[c.email].email == c.email
    ensures ChangePasswordOutcome(users, Some(Principal(None)), c).reply == Ok(Ack(true))
  {
  }

  /** `signup`, reading the validated body; `newId` is the identifier the store generates. */
  method Signup(req: Request, db: UserTable, newId: string) returns (r: Result<Reply, Error>)
    requires db.Valid() && Conforms(UserBody, req.body)
    modifies db
    ensures db.Valid()
    ensures var o := SignupOutcome(old(db.byEmail), newId, CredentialsOf(req.body));
            db.byEmail == o.users && r == o.reply
  {
    var newUser := CredentialsOf(req.body);
    var foundUser := db.FindUnique(newUser.email);
    if foundUser.Some? {
      return Err(Conflict());
    }
    var created := db.Create(newId, newUser);
    r := if created.Ok? then Ok(Ack(true)) else Err(created.error);
  }

  /** `signin` as written. */
  method Signin(req: Request, db: UserTable, codec: Codec) returns (r: Result<Reply, Error>)
    requires Conforms(UserBody, req.body)
    ensures r == SigninOutcome(db.byEmail, CredentialsOf(req.body), codec)
  {
    var newUser := CredentialsOf(req.body);
    var user := db.FindUnique(newUser.email);
    if user.None? {
      return Err(Unauthorized());
    }
    var token := IssueToken(codec, Claims(Some(user.value.id)));
    r := if token.Ok? then Ok(TokenReply(token.value)) else Err(token.error);
  }

  /** `signin` with the password comparison the sign-in test expects. */
  method SigninChecked(req: Request, db: UserTable, codec: Codec) returns (r: Result<Reply, Error>)
    requires Conforms(UserBody, req.body)
    ensures r == CheckedSigninOutcome(db.byEmail, CredentialsOf(req.body), codec)
  {
    var credentials := CredentialsOf(req.body);
    var user := db.FindUnique(credentials.email);
    if user.None? || user.value.password != credentials.password {
      return Err(Unauthorized());
    }
    var token := IssueToken(codec, Claims(Some(user.value.id)));
    r := if token.Ok? then Ok(TokenReply(token.value)) else Err(token.error);
  }

  /** `changePassword`, reading the validated body and the principal. */
  method ChangePassword(req: Request, db: UserTable) returns (r: Result<Reply, Error>)
    requires db.Valid() && Conforms(UserBody, req.body)
    modifies db
    ensures db.Valid()
    ensures var o := ChangePasswordOutcome(old(db.byEmail), req.user, CredentialsOf(req.body));
            db.byEmail == o.users && r == o.reply
  {
    var newUserData := CredentialsOf(req.body);
    var authUser := req.user;
    if authUser.None? {
      return Err(BadRequest());
    }
    var updated := db.UpdatePassword(authUser.value.id, newUserData.email, newUserData.password);
    r := if updated.Ok? then Ok(Ack(true)) else Err(updated.error);
  }
}
