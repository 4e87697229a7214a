/**
 * One request through the application: dispatch on the route table, the route's authentication
 * middlewares, its validation, its handler, and the 404 fallback and error handler behind them.
 */
module Server {
  import opened Wrappers
  import opened Json
  import opened HttpErrors
  import opened Schema
  import opened TodoModels
  import opened UserModels
  import opened Store
  import opened Http
  import opened Auth
  import opened Middlewares
  import TodoHandlers
  import UserHandlers
  import opened Routes

  /** The authentication middlewares in turn; each verified token replaces the principal. */
  function Authorize(modes: seq<Mode>, auth: Option<string>, user: Option<Principal>, codec: Codec): (r: Result<Option<Principal>, Error>)
    ensures r.Err? <==> exists i :: 0 <= i < |modes| && Authenticate(modes[i], auth, codec).Err?
    ensures r.Ok? && r.value != user ==> exists i :: 0 <= i < |modes| && Authenticate(modes[i], auth, codec) == Ok(r.value)
  {
    if modes == [] then Ok(user)
    else
      match Authenticate(modes[0], auth, codec)
      case Err(e) => Err(e)
      case Ok(p) =>
        var r := Authorize(modes[1..], auth, if p.Some? then p else user, codec);
        assert forall i :: 0 <= i < |modes[1..]| ==> modes[1..][i] == modes[i + 1];
        r
  }

  /** How the stages before the handler end: the request goes on to the handler, or an error stops it. */
  datatype Guarded = Pass(parts: Parts, user: Option<Principal>) | Stop(error: Error, status: nat)

  /** Authentication, then validation (which sets 422 on a refusal). */
  function Guard(r: Route, p: Parts, user: Option<Principal>, codec: Codec): (g: Guarded)
    requires WellFormed(r)
    ensures g.Pass? ==> Conformant(ValidatorsFor(HandlerOf(r)), g.parts)
    ensures g.Stop? && g.status != OK ==> g.status == UnprocessableEntityCode && g.error.ValidationError?
  {
    match Authorize(AuthModes(r), AuthorizationOf(p.headers), user, codec)
    case Err(e) => Stop(e, OK)
    case Ok(u) =>
      var vs := ValidatorsFor(HandlerOf(r));
      var c := Validate(vs, p);
      if c.failure.Some? then Stop(ValidationError(c.failure.value, ""), UnprocessableEntityCode)
      else
        ValidatedConform(vs, p);
        Pass(c.parts, u)
  }

  /** The stores after the handler, and what it answered. */
  datatype Effect = Effect(todos: map<string, Todo>, users: map<string, User>, reply: Result<Reply, Error>)

  function TodoReply(r: Result<Todo, Error>): Result<Reply, Error>
  {
    if r.Ok? then Ok(OneTodo(r.value)) else Err(r.error)
  }

  /** The named handler on validated parts, as a function of the tables before it. */
  function HandlerOutcome(h: HandlerName, p: Parts, user: Option<Principal>, todos: map<string, Todo>,
                          users: map<string, User>, newId: string, codec: Codec): (e: Effect)
    requires Conformant(ValidatorsFor(h), p)
    ensures e.reply.Err? ==> e.todos == todos && e.users == users
    ensures h in {GetAll, CreateOne, DeleteOne, UpdateOne} ==> e.users == users
    ensures h in {Signup, Signin, CheckedSignin, ChangePassword} ==> e.todos == todos
  {
    match h
    case GetAll =>
      var l := TodoHandlers.ListOutcome(todos, user, StatusFilterOf(p.query));
      Effect(todos, users, if l.Ok? then Ok(TodoList(l.value)) else Err(l.error))
    case CreateOne =>
      var o := TodoHandlers.CreateOutcome(todos, user, newId, NewTodoOf(p.body));
      Effect(o.rows, users, TodoReply(o.reply))
    case DeleteOne =>
      var o := TodoHandlers.DeleteOutcome(todos, user, IdOf(p.params));
      Effect(o.rows, users, TodoReply(o.reply))
    case UpdateOne =>
      var o := TodoHandlers.UpdateOutcome(todos, user, IdOf(p.params), NewTodoOf(p.body));
      Effect(o.rows, users, TodoReply(o.reply))
    case Signup =>
      var o := UserHandlers.SignupOutcome(users, newId, CredentialsOf(p.body));
      Effect(todos, o.users, o.reply)
    case Signin =>
      Effect(todos, users, UserHandlers.SigninOutcome(users, CredentialsOf(p.body), codec))
    case CheckedSignin =>
      Effect(todos, users, UserHandlers.CheckedSigninOutcome(users, CredentialsOf(p.body), codec))
    case ChangePassword =>
      var o := UserHandlers.ChangePasswordOutcome(users, user, CredentialsOf(p.body));
      Effect(todos, o.users, o.reply)
  }

  /** The stores, the status and the body once the response is written. */
  datatype Final = Final(todos: map<string, Todo>, users: map<string, User>, statusCode: nat, sent: Payload)

  /** The error handler's answer for `err` reached with status `status`. */
  function Failed(todos: map<string, Todo>, users: map<string, User>, err: Error, status: nat, production: bool): (f: Final)
    ensures f.todos == todos && f.users == users && f.sent.Failure?
    ensures f.statusCode == FinalStatus(err, status)
  {
    var s := FinalStatus(err, status);
    Final(todos, users, s, Failure(EnvelopeOf(err, s, production)))
  }

  /** The whole application with the route table `routes` on one request, starting from a fresh response (status 200). */
  function Respond(routes: RouteTable, verb: Verb, path: seq<string>, p: Parts, user: Option<Principal>, todos: map<string, Todo>,
                   users: map<string, User>, newId: string, codec: Codec, production: bool): (f: Final)
    ensures f.sent.Failure? ==> f.todos == todos && f.users == users
  {
    match Match(routes, verb, path)
    case None =>
      Failed(todos, users, PlainError(ReasonPhrase(NotFoundStatus(OK)), ""), NotFoundStatus(OK), production)
    case Some((route, bindings)) =>
      MatchedWellFormed(routes, verb, path);
      Routed(route, p.(params := Obj(bindings)), user, todos, users, newId, codec, production)
  }

  /** The matched route's middlewares and handler, on the request with its path parameters bound. */
  function Routed(route: Route, p: Parts, user: Option<Principal>, todos: map<string, Todo>,
                  users: map<string, User>, newId: string, codec: Codec, production: bool): (f: Final)
    requires WellFormed(route)
    ensures f.sent.Failure? ==> f.todos == todos && f.users == users
  {
    match Guard(route, p, user, codec)
    case Stop(err, status) => Failed(todos, users, err, status, production)
    case Pass(q, u) =>
      var e := HandlerOutcome(HandlerOf(route), q, u, todos, users, newId, codec);
      if e.reply.Ok? then Final(e.todos, e.users, OK, Data(e.reply.value))
      else Failed(todos, users, e.reply.error, OK, production)
  }

  /** A request under "/todos" that matches reaches one of the to-do routes. */
  lemma {:induction false} TodoPathReachesTodoRoute(verb: Verb, path: seq<string>)
    requires |path| >= 1 && path[0] == "todos"
    requires Match(ApiRoutes, verb, path).Some?
    ensures Match(ApiRoutes, verb, path).value.0 in TodoRoutes
  {
    var r := Match(ApiRoutes, verb, path).value.0;
    var k :| 0 <= k < |ApiRoutes| && ApiRoutes[k] == r && Matches(ApiRoutes[k], verb, path);
    UserRoutesSkipTodos(verb, path);
    assert r == TodoRoutes[k - |UserRoutes|];
  }

  /** On a to-do route, an authentication failure stops the request before validation, status untouched. */
  lemma {:induction false} TodoRouteAuthFailureStops(r: Route, q: Parts, user: Option<Principal>, codec: Codec)
    requires r in TodoRoutes
    requires Authenticate(Required, AuthorizationOf(q.headers), codec).Err?
    ensures WellFormed(r)
    ensures Guard(r, q, user, codec) == Stop(Authenticate(Required, AuthorizationOf(q.headers), codec).error, OK)
  {
    TodoRoutesAuthenticateFirst();
    var auth := AuthorizationOf(q.headers);
    assert AuthModes(r) == [Required];
    assert Authorize([Required], auth, user, codec) == Err(Authenticate(Required, auth, codec).error);
  }

  /** A request that a stage before the handler stops is answered by the error handler, stores untouched. */
  lemma {:induction false} StoppedRequestFails(routes: RouteTable, verb: Verb, path: seq<string>, p: Parts, user: Option<Principal>,
                                               todos: map<string, Todo>, users: map<string, User>,
                                               newId: string, codec: Codec, production: bool, err: Error, status: nat)
    requires Match(routes, verb, path).Some?
    requires WellFormed(Match(routes, verb, path).value.0)
    requires var m := Match(routes, verb, path).value;
             Guard(m.0, p.(params := Obj(m.1)), user, codec) == Stop(err, status)
    ensures Respond(routes, verb, path, p, user, todos, users, newId, codec, production) == Failed(todos, users, err, status, production)
  {
  }

  /** Authentication runs first on the to-do routes: without a bearer header the answer is 422, whatever the body. */
  lemma {:induction false} MissingHeaderIsUnprocessable(verb: Verb, path: seq<string>, p: Parts, user: Option<Principal>,
                                                        todos: map<string, Todo>, users: map<string, User>,
                                                        newId: string, codec: Codec, production: bool)
    requires |path| >= 1 && path[0] == "todos" && Match(ApiRoutes, verb, path).Some?
    requires !HasBearer(AuthorizationOf(p.headers))
    ensures var f := Respond(ApiRoutes, verb, path, p, user, todos, users, newId, codec, production);
            && f.statusCode == UnprocessableEntityCode && f.todos == todos && f.users == users
            && f.sent.Failure? && f.sent.envelope.message == Said(ReasonPhrase(UnprocessableEntityCode))
  {
    TodoPathReachesTodoRoute(verb, path);
    var m := Match(ApiRoutes, verb, path).value;
    TodoRouteAuthFailureStops(m.0, p.(params := Obj(m.1)), user, codec);
    StoppedRequestFails(ApiRoutes, verb, path, p, user, todos, users, newId, codec, production, UnprocessableEntity(), OK);
    RaisedEnvelope(UnprocessableEntityCode, production);
  }

  /** A bearer token the verifier refuses is answered with 412 and the verifier's message, whatever the body. */
  lemma {:induction false} RefusedTokenIsPreconditionFailed(verb: Verb, path: seq<string>, p: Parts, user: Option<Principal>,
                                                            todos: map<string, Todo>, users: map<string, User>,
                                                            newId: string, codec: Codec, production: bool)
    requires |path| >= 1 && path[0] == "todos" && Match(ApiRoutes, verb, path).Some?
    requires HasBearer(AuthorizationOf(p.headers))
    requires codec.verify(TokenOf(AuthorizationOf(p.headers))).Rejected?
    ensures var f := Respond(ApiRoutes, verb, path, p, user, todos, users, newId, codec, production);
            && f.statusCode == PreconditionFailedCode && f.todos == todos && f.users == users
            && f.sent.Failure? && f.sent.envelope.message == Said(codec.verify(TokenOf(AuthorizationOf(p.headers))).message)
  {
    TodoPathReachesTodoRoute(verb, path);
    var m := Match(ApiRoutes, verb, path).value;
    TodoRouteAuthFailureStops(m.0, p.(params := Obj(m.1)), user, codec);
  }

  /** The password change is not routed, so a PUT to it ends in the 404 fallback, without a trace. */
  lemma {:induction false} ChangePasswordIsNotFound(p: Parts, user: Option<Principal>, todos: map<string, Todo>,
                                                    users: map<string, User>, newId: string, codec: Codec, production: bool)
    ensures Respond(ApiRoutes, Put, ["changePassword"], p, user, todos, users, newId, codec, production)
            == Final(todos, users, NotFoundCode, Failure(Envelope("fail", Said("Not Found"), None)))
  {
    ChangePasswordUnrouted();
    UnmatchedIsNotFound(production);
  }

  /** On the registered password change, a verified token and an accepted body reach the handler. */
  lemma {:induction false} RoutedChangePasswordPasses(p: Parts, uid: string, c: Credentials, codec: Codec)
    requires HasBearer(AuthorizationOf(p.headers))
    requires codec.verify(TokenOf(AuthorizationOf(p.headers))) == Accepted(Claims(Some(uid)))
    requires ParseCredentials(p.body) == Ok(c)
    ensures WellFormed(ChangePasswordRoute)
    ensures var g := Guard(ChangePasswordRoute, p.(params := Obj(map[])), None, codec);
            && g.Pass? && g.user == Some(Principal(Some(uid)))
            && Conformant(ValidatorsFor(ChangePassword), g.parts)
            && CredentialsOf(g.parts.body) == c
  {
    var q := p.(params := Obj(map[]));
    var principal := Some(Principal(Some(uid)));
    assert WellFormed(ChangePasswordRoute);
    assert AuthModes(ChangePasswordRoute) == [Optional];
    assert Authorize([Optional], AuthorizationOf(q.headers), None, codec) == Ok(principal);
    var vs := ValidatorsFor(ChangePassword);
    var parsed := ParseObject(UserBody, p.body, false).value;
    assert Validate(vs, q) == Checked(q.(body := parsed), None);
    assert Guard(ChangePasswordRoute, q, None, codec) == Pass(q.(body := parsed), principal);
    assert CredentialsOf(parsed) == c;
  }

  /** The password change's middlewares and handler, on a verified token and an accepted body. */
  lemma {:induction false} ChangePasswordRouteSucceeds(p: Parts, todos: map<string, Todo>, users: map<string, User>,
                                                       uid: string, c: Credentials, newId: string, codec: Codec, production: bool)
    requires HasBearer(AuthorizationOf(p.headers))
    requires codec.verify(TokenOf(AuthorizationOf(p.headers))) == Accepted(Claims(Some(uid)))
    requires ParseCredentials(p.body) == Ok(c)
    requires c.email in users && users[c.email] == User(uid, c.email, users[c.email].password)
    ensures WellFormed(ChangePasswordRoute)
    ensures Routed(ChangePasswordRoute, p.(params := Obj(map[])), None, todos, users, newId, codec, production)
            == Final(todos, users[c.email := User(uid, c.email, c.password)], OK, Data(Ack(true)))
  {
    RoutedChangePasswordPasses(p, uid, c, codec);
    var g := Guard(ChangePasswordRoute, p.(params := Obj(map[])), None, codec);
    var o := UserHandlers.ChangePasswordOutcome(users, g.user, c);
    assert o == UserHandlers.Outcome(users[c.email := User(uid, c.email, c.password)], Ok(Ack(true))) by {
      assert users[c.email].(password := c.password) == User(uid, c.email, c.password);
    }
    assert HandlerOutcome(HandlerOf(ChangePasswordRoute), g.parts, g.user, todos, users, newId, codec) == Effect(todos, o.users, o.reply);
  }

  /** With the password change registered, the request its test sends changes that user's password and answers `{ok: true}`. */
  lemma {:induction false} RoutedChangePasswordSucceeds(p: Parts, todos: map<string, Todo>, users: map<string, User>,
                                                        uid: string, c: Credentials, newId: string, codec: Codec, production: bool)
    requires HasBearer(AuthorizationOf(p.headers))
    requires codec.verify(TokenOf(AuthorizationOf(p.headers))) == Accepted(Claims(Some(uid)))
    requires ParseCredentials(p.body) == Ok(c)
    requires c.email in users && users[c.email] == User(uid, c.email, users[c.email].password)
    ensures Respond(CorrectedApi, Put, ["changePassword"], p, None, todos, users, newId, codec, production)
            == Final(todos, users[c.email := User(uid, c.email, c.password)], OK, Data(Ack(true)))
  {
    ChangePasswordRouted();
    ChangePasswordRouteSucceeds(p, todos, users, uid, c, newId, codec, production);
  }

  /** The password change's middlewares, without a token and on a body the user schema refuses. */
  lemma {:induction false} ChangePasswordRouteValidatesBody(p: Parts, user: Option<Principal>, todos: map<string, Todo>,
                                                            users: map<string, User>, newId: string, codec: Codec, production: bool)
    requires !HasBearer(AuthorizationOf(p.headers))
    requires ParseObject(UserBody, p.body, false).Err?
    ensures WellFormed(ChangePasswordRoute)
    ensures var f := Routed(ChangePasswordRoute, p.(params := Obj(map[])), user, todos, users, newId, codec, production);
            && f.statusCode == UnprocessableEntityCode && f.todos == todos && f.users == users
  {
    var q := p.(params := Obj(map[]));
    assert WellFormed(ChangePasswordRoute);
    assert AuthModes(ChangePasswordRoute) == [Optional];
    assert Authorize([Optional], AuthorizationOf(q.headers), user, codec) == Ok(user);
    var issues := ParseObject(UserBody, p.body, false).error;
    assert Validate(ValidatorsFor(ChangePassword), q) == Checked(q, Some(issues));
    assert Guard(ChangePasswordRoute, q, user, codec) == Stop(ValidationError(issues, ""), UnprocessableEntityCode);
  }

  /** With the password change registered, a body the user schema refuses is a 422 even without a token. */
  lemma {:induction false} RoutedChangePasswordValidatesBody(p: Parts, user: Option<Principal>, todos: map<string, Todo>,
                                                             users: map<string, User>, newId: string, codec: Codec, production: bool)
    requires !HasBearer(AuthorizationOf(p.headers))
    requires ParseObject(UserBody, p.body, false).Err?
    ensures var f := Respond(CorrectedApi, Put, ["changePassword"], p, user, todos, users, newId, codec, production);
            && f.statusCode == UnprocessableEntityCode && f.todos == todos && f.users == users
  {
    ChangePasswordRouted();
    ChangePasswordRouteValidatesBody(p, user, todos, users, newId, codec, production);
  }

  /** On the account routes a body the user schema refuses is a 422 listing its issues, before the store is consulted. */
  lemma {:induction false} RefusedAccountBodyIsUnprocessable(action: string, p: Parts, user: Option<Principal>,
                                                             todos: map<string, Todo>, users: map<string, User>,
                                                             newId: string, codec: Codec, production: bool)
    requires action == "signup" || action == "signin"
    requires ParseObject(UserBody, p.body, false).Err?
    ensures var f := Respond(ApiRoutes, Post, [action], p, user, todos, users, newId, codec, production);
            && f.statusCode == UnprocessableEntityCode && f.todos == todos && f.users == users
            && f.sent.Failure? && f.sent.envelope.message == Issues(ParseObject(UserBody, p.body, false).error)
  {
    var m := Match(ApiRoutes, Post, [action]);
    assert Matches(ApiRoutes[if action == "signup" then 0 else 1], Post, [action]);
    assert m.value.0 == ApiRoutes[if action == "signup" then 0 else 1];
    UserRoutesValidateFirst();
  }

  /** On either sign-in route an accepted body reaches the handler, with the body's credentials. */
  lemma {:induction false} SigninRoutePasses(r: Route, p: Parts, user: Option<Principal>, c: Credentials, codec: Codec)
    requires r == UserRoutes[1] || r == CheckedSigninRoute
    requires ParseCredentials(p.body) == Ok(c)
    ensures WellFormed(r)
    ensures var g := Guard(r, p, user, codec);
            && g.Pass? && g.user == user
            && Conformant(ValidatorsFor(HandlerOf(r)), g.parts)
            && CredentialsOf(g.parts.body) == c
  {
    assert WellFormed(r) && AuthModes(r) == [];
    var vs := ValidatorsFor(HandlerOf(r));
    assert vs == NoValidators.(body := Some(UserBody));
    var parsed := ParseObject(UserBody, p.body, false).value;
    assert Validate(vs, p) == Checked(p.(body := parsed), None);
    assert Guard(r, p, user, codec) == Pass(p.(body := parsed), user);
  }

  /** The written sign-in route answers a registered address with its user's token, whatever the password. */
  lemma {:induction false} SigninRouteIgnoresPassword(p: Parts, user: Option<Principal>, todos: map<string, Todo>,
                                                      users: map<string, User>, c: Credentials, newId: string,
                                                      codec: Codec, production: bool)
    requires ParseCredentials(p.body) == Ok(c)
    requires c.email in users && UserHandlers.TokenFor(users[c.email], codec).Ok?
    ensures WellFormed(UserRoutes[1])
    ensures Routed(UserRoutes[1], p, user, todos, users, newId, codec, production)
            == Final(todos, users, OK, Data(UserHandlers.TokenFor(users[c.email], codec).value))
  {
    SigninRoutePasses(UserRoutes[1], p, user, c, codec);
    var g := Guard(UserRoutes[1], p, user, codec);
    assert HandlerOf(UserRoutes[1]) == Signin;
    assert HandlerOutcome(Signin, g.parts, g.user, todos, users, newId, codec).reply == UserHandlers.TokenFor(users[c.email], codec);
  }

  /** As registered, POST "/signin" gives a registered address its token whatever password accompanies it. */
  lemma {:induction false} RegisteredSigninIgnoresPassword(p: Parts, user: Option<Principal>, todos: map<string, Todo>,
                                                           users: map<string, User>, c: Credentials, newId: string,
                                                           codec: Codec, production: bool)
    requires ParseCredentials(p.body) == Ok(c)
    requires c.email in users && UserHandlers.TokenFor(users[c.email], codec).Ok?
    ensures Respond(ApiRoutes, Post, ["signin"], p, user, todos, users, newId, codec, production)
            == Final(todos, users, OK, Data(UserHandlers.TokenFor(users[c.email], codec).value))
  {
    SigninRouted();
    SigninRouteIgnoresPassword(p.(params := Obj(map[])), user, todos, users, c, newId, codec, production);
  }

  /** The checked sign-in route refuses a registered address with the wrong password, changing nothing. */
  lemma {:induction false} CheckedSigninRouteRefuses(p: Parts, user: Option<Principal>, todos: map<string, Todo>,
                                                     users: map<string, User>, c: Credentials, newId: string,
                                                     codec: Codec, production: bool)
    requires ParseCredentials(p.body) == Ok(c)
    requires c.email in users && users[c.email].password != c.password
    ensures WellFormed(CheckedSigninRoute)
    ensures var f := Routed(CheckedSigninRoute, p, user, todos, users, newId, codec, production);
            && f.statusCode == UnauthorizedCode && f.todos == todos && f.users == users
  {
    SigninRoutePasses(CheckedSigninRoute, p, user, c, codec);
    var g := Guard(CheckedSigninRoute, p, user, codec);
    assert HandlerOf(CheckedSigninRoute) == CheckedSignin;
    assert HandlerOutcome(CheckedSignin, g.parts, g.user, todos, users, newId, codec).reply == Err(Unauthorized());
    assert FinalStatus(Unauthorized(), OK) == UnauthorizedCode;
  }

  /** In the corrected table, POST "/signin" with a registered address and the wrong password is a 401. */
  lemma {:induction false} CorrectedSigninRefusesWrongPassword(p: Parts, user: Option<Principal>, todos: map<string, Todo>,
                                                               users: map<string, User>, c: Credentials, newId: string,
                                                               codec: Codec, production: bool)
    requires ParseCredentials(p.body) == Ok(c)
    requires c.email in users && users[c.email].password != c.password
    ensures var f := Respond(CorrectedApi, Post, ["signin"], p, user, todos, users, newId, codec, production);
            && f.statusCode == UnauthorizedCode && f.todos == todos && f.users == users
  {
    SigninRouted();
    CheckedSigninRouteRefuses(p.(params := Obj(map[])), user, todos, users, c, newId, codec, production);
  }

  /** On a matched route a success is a 200 and a failure envelope says "fail". */
  lemma {:induction false} RoutedOutcomeShape(route: Route, p: Parts, user: Option<Principal>, todos: map<string, Todo>,
                                              users: map<string, User>, newId: string, codec: Codec, production: bool)
    requires WellFormed(route)
    ensures var f := Routed(route, p, user, todos, users, newId, codec, production);
            && (f.sent.Data? ==> f.statusCode == OK)
            && (f.sent.Failure? ==> f.sent.envelope.status == "fail")
  {
  }

  /** A success is always a 200 whose body is the handler's reply; any failure leaves both tables as they were. */
  lemma {:induction false} OnlySuccessChangesStores(routes: RouteTable, verb: Verb, path: seq<string>, p: Parts, user: Option<Principal>,
                                                    todos: map<string, Todo>, users: map<string, User>,
                                                    newId: string, codec: Codec, production: bool)
    ensures var f := Respond(routes, verb, path, p, user, todos, users, newId, codec, production);
            && (f.sent.Data? ==> f.statusCode == OK)
            && (f.sent.Failure? ==> f.todos == todos && f.users == users && f.sent.envelope.status == "fail")
  {
    var m := Match(routes, verb, path);
    if m.Some? {
      MatchedWellFormed(routes, verb, path);
      RoutedOutcomeShape(m.value.0, p.(params := Obj(m.value.1)), user, todos, users, newId, codec, production);
    }
  }

  /** Runs the route's authentication middlewares in order, stopping at the first error. */
  method RunAuthentication(modes: seq<Mode>, req: Request, codec: Codec) returns (failure: Option<Error>)
    modifies req
    ensures req.Snapshot() == old(req.Snapshot())
    ensures var r := Authorize(modes, AuthorizationOf(old(req.headers)), old(req.user), codec);
            && (r.Err? <==> failure.Some?)
            && (r.Err? ==> failure.value == r.error)
            && (r.Ok? ==> req.user == r.value)
  {
    ghost var auth := AuthorizationOf(req.headers);
    failure := None;
    var i := 0;
    while i < |modes| && failure.None?
      invariant 0 <= i <= |modes|
      invariant req.Snapshot() == old(req.Snapshot())
      invariant failure.None? ==> Authorize(modes[i..], auth, req.user, codec) == Authorize(modes, auth, old(req.user), codec)
      invariant failure.Some? ==> Authorize(modes, auth, old(req.user), codec) == Err(failure.value)
    {
      assert modes[i..] == [modes[i]] + modes[i + 1..];
      if modes[i].Required? {
        failure := ValidateAuth(req, codec);
      } else {
        failure := GetUserInfoOptional(req, codec);
      }
      i := i + 1;
    }
    if failure.None? {
      assert modes[i..] == [];
    }
  }

  /** Calls the route's handler on the validated request. */
  method Dispatch(h: HandlerName, req: Request, todoDb: TodoTable, userDb: UserTable, newId: string, codec: Codec)
    returns (reply: Result<Reply, Error>)
    requires Conformant(ValidatorsFor(h), req.Snapshot())
    requires todoDb.Valid() && userDb.Valid()
    modifies todoDb, userDb
    ensures todoDb.Valid() && userDb.Valid()
    ensures var e := HandlerOutcome(h, req.Snapshot(), req.user, old(todoDb.rows), old(userDb.byEmail), newId, codec);
            && todoDb.rows == e.todos && userDb.byEmail == e.users && reply == e.reply
  {
    match h
    case GetAll => reply := TodoHandlers.GetAll(req, todoDb);
    case CreateOne => reply := TodoHandlers.CreateOne(req, todoDb, newId);
    case DeleteOne => reply := TodoHandlers.DeleteOne(req, todoDb);
    case UpdateOne => reply := TodoHandlers.UpdateOne(req, todoDb);
    case Signup => reply := UserHandlers.Signup(req, userDb, newId);
    case Signin => reply := UserHandlers.Signin(req, userDb, codec);
    case CheckedSignin => reply := UserHandlers.SigninChecked(req, userDb, codec);
    case ChangePassword => reply := UserHandlers.ChangePassword(req, userDb);
  }

  /**
   * Serves one request against the two tables; `newId` is the identifier the store would generate
   * for a created row, and `production` whether the environment is the production one.
   */
  method Serve(routes: RouteTable, verb: Verb, path: seq<string>, req: Request, res: Response, todoDb: TodoTable, userDb: UserTable,
               newId: string, codec: Codec, production: bool)
    requires res.statusCode == OK && res.sent == None
    requires todoDb.Valid() && userDb.Valid()
    modifies req, res, todoDb, userDb
    ensures todoDb.Valid() && userDb.Valid()
    ensures var f := Respond(routes, verb, path, old(req.Snapshot()), old(req.user), old(todoDb.rows), old(userDb.byEmail), newId, codec, production);
            && todoDb.rows == f.todos && userDb.byEmail == f.users
            && res.statusCode == f.statusCode && res.sent == Some(f.sent)
  {
    var m := Match(routes, verb, path);
    if m.None? {
      var err := NotFound(res);
      ErrorHandler(err, res, production);
      return;
    }
    var (route, bindings) := m.value;
    MatchedWellFormed(routes, verb, path);
    req.params := Obj(bindings);
    RunRoute(route, req, res, todoDb, userDb, newId, codec, production);
  }

  /** The matched route's middlewares and then its handler, each error going to the error handler. */
  method RunRoute(route: Route, req: Request, res: Response, todoDb: TodoTable, userDb: UserTable,
                  newId: string, codec: Codec, production: bool)
    requires WellFormed(route)
    requires res.statusCode == OK && res.sent == None
    requires todoDb.Valid() && userDb.Valid()
    modifies req, res, todoDb, userDb
    ensures todoDb.Valid() && userDb.Valid()
    ensures var f := Routed(route, old(req.Snapshot()), old(req.user), old(todoDb.rows), old(userDb.byEmail), newId, codec, production);
            && todoDb.rows == f.todos && userDb.byEmail == f.users
            && res.statusCode == f.statusCode && res.sent == Some(f.sent)
  {
    ghost var p0 := req.Snapshot();
    var failure := RunAuthentication(AuthModes(route), req, codec);
    if failure.Some? {
      ErrorHandler(failure.value, res, production);
      return;
    }
    var h := HandlerOf(route);
    var vs := ValidatorsFor(h);
    var invalid := ValidateRequest(vs, req, res);
    if invalid.Some? {
      ErrorHandler(invalid.value, res, production);
      return;
    }
    ValidatedConform(vs, p0);
    var reply := Dispatch(h, req, todoDb, userDb, newId, codec);
    if reply.Ok? {
      res.sent := Some(Data(reply.value));
    } else {
      ErrorHandler(reply.error, res, production);
    }
  }
}
