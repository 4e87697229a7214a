/**
 * The route tables of the API mounted under "/api/v1": which verb and path reach which stages, in
 * which order. Paths are split on "/" and taken relative to that mount point, so the to-do routes
 * (mounted at "/todos") start with the segment "todos".
 */
module Routes {
  import opened Wrappers
  import opened Json
  import opened Schema
  import opened TodoModels
  import opened UserModels
  import opened Auth
  import opened Middlewares

  datatype Verb = Get | Post | Put | Delete

  /** A literal path segment, or a named parameter such as `:id`. */
  datatype Segment = Lit(text: string) | Param(name: string)

  /**
   * The handlers the routers register, and the corrected sign-in (`CheckedSignin`), which only the
   * corrected route table registers.
   */
  datatype HandlerName = GetAll | CreateOne | DeleteOne | UpdateOne | Signup | Signin | CheckedSignin | ChangePassword

  /** One middleware or handler of a route. */
  datatype Stage = Authentication(mode: Mode) | Validation(validators: Validators) | Handle(handler: HandlerName)

  datatype Route = Route(verb: Verb, pattern: seq<Segment>, stages: seq<Stage>)

  const NoValidators := Validators(None, None, None, None)

  /** The schemas each handler's input was typed with. */
  function ValidatorsFor(h: HandlerName): (vs: Validators)
    ensures ValidatorsWellFormed(vs)
  {
    ShapesHaveDistinctKeys();
    UserBodyHasDistinctKeys();
    match h
    case GetAll => NoValidators.(query := Some(TodoQuery))
    case CreateOne => NoValidators.(body := Some(NewTodoBody))
    case DeleteOne => NoValidators.(params := Some(TodoParams))
    case UpdateOne => NoValidators.(params := Some(TodoParams), body := Some(NewTodoBody))
    case Signup => NoValidators.(body := Some(UserBody))
    case Signin => NoValidators.(body := Some(UserBody))
    case CheckedSignin => NoValidators.(body := Some(UserBody))
    case ChangePassword => NoValidators.(body := Some(UserBody))
  }

  /** `/signup` and `/signin`: validate the body, then the handler; no authentication. */
  const UserRoutes: seq<Route> := [
    Route(Post, [Lit("signup")], [Validation(NoValidators.(body := Some(UserBody))), Handle(Signup)]),
    Route(Post, [Lit("signin")], [Validation(NoValidators.(body := Some(UserBody))), Handle(Signin)])
  ]

  /** The to-do routes: authentication, then validation, then the handler. */
  const TodoRoutes: seq<Route> := [
    Route(Get, [Lit("todos")],
          [Authentication(Required), Validation(NoValidators.(query := Some(TodoQuery))), Handle(GetAll)]),
    Route(Post, [Lit("todos")],
          [Authentication(Required), Validation(NoValidators.(body := Some(NewTodoBody))), Handle(CreateOne)]),
    Route(Delete, [Lit("todos"), Param("id")],
          [Authentication(Required), Validation(NoValidators.(params := Some(TodoParams))), Handle(DeleteOne)]),
    Route(Put, [Lit("todos"), Param("id")],
          [Authentication(Required), Validation(NoValidators.(params := Some(TodoParams), body := Some(NewTodoBody))), Handle(UpdateOne)])
  ]

  /** The users router is mounted first, then the to-do router. */
  const ApiRoutes: RouteTable := UserRoutes + TodoRoutes

  /**
   * The password change as its tests reach it: PUT "/changePassword" on the users router, with the
   * optional authentication (so that the handler's own "no principal" branch is reachable) and
   * the user schema.
   */
  const ChangePasswordRoute: Route :=
    Route(Put, [Lit("changePassword")],
          [Authentication(Optional), Validation(NoValidators.(body := Some(UserBody))), Handle(ChangePassword)])

  /** `/signin` with the password comparison its test expects. */
  const CheckedSigninRoute: Route :=
    Route(Post, [Lit("signin")], [Validation(NoValidators.(body := Some(UserBody))), Handle(CheckedSignin)])

  /** The route table with both corrections: the checked sign-in, and the password change registered. */
  const CorrectedApi: RouteTable := [UserRoutes[0], CheckedSigninRoute, ChangePasswordRoute] + TodoRoutes

  /** Every route of the table is well formed. */
  predicate AllWellFormed(routes: seq<Route>)
  {
    forall r :: r in routes ==> WellFormed(r)
  }

  /** A route table whose every route is well formed. */
  type RouteTable = routes: seq<Route> | AllWellFormed(routes) witness []

  /**
   * A route's stages are some authentication middlewares, then one validation of exactly the
   * parts its handler reads, then the handler.
   */
  predicate WellFormed(r: Route)
  {
    var n := |r.stages|;
    && n >= 2
    && r.stages[n - 1].Handle?
    && r.stages[n - 2] == Validation(ValidatorsFor(r.stages[n - 1].handler))
    && forall i :: 0 <= i < n - 2 ==> r.stages[i].Authentication?
  }

  function HandlerOf(r: Route): HandlerName
    requires WellFormed(r)
  {
    r.stages[|r.stages| - 1].handler
  }

  /** The authentication modes that run before validation, in order. */
  function AuthModes(r: Route): (modes: seq<Mode>)
    requires WellFormed(r)
    ensures |modes| == |r.stages| - 2
    ensures forall i :: 0 <= i < |modes| ==> r.stages[i] == Authentication(modes[i])
  {
    seq(|r.stages| - 2, i requires 0 <= i < |r.stages| - 2 => r.stages[i].mode)
  }

  /** Every to-do route authenticates, with the mandatory variant, before anything else. */
  lemma TodoRoutesAuthenticateFirst()
    ensures forall r :: r in TodoRoutes ==> WellFormed(r) && AuthModes(r) == [Required]
  {
    forall r | r in TodoRoutes
      ensures WellFormed(r) && AuthModes(r) == [Required]
    {
      assert WellFormed(r);
      assert AuthModes(r)[0] == Required;
    }
  }

  /** The account routes validate the body with the user schema before the handler, without authentication. */
  lemma UserRoutesValidateFirst()
    ensures forall r :: r in UserRoutes ==> WellFormed(r) && AuthModes(r) == [] && r.stages[0] == Validation(NoValidators.(body := Some(UserBody)))
  {
  }

  /** The path matches the pattern; the parameters it binds, each to its (non-empty) segment. */
  function Bind(pattern: seq<Segment>, path: seq<string>): (r: Option<map<string, Value>>)
    ensures r.Some? ==> |pattern| == |path|
    ensures r.Some? ==> forall i :: 0 <= i < |pattern| ==>
              if pattern[i].Lit? then path[i] == pattern[i].text
              else path[i] != "" && pattern[i].name in r.value
    decreases |pattern|
  {
    if |pattern| != |path| then None
    else if pattern == [] then Some(map[])
    else
      match Bind(pattern[1..], path[1..])
      case None => None
      case Some(b) =>
        match pattern[0]
        case Lit(t) => if path[0] == t then Some(b) else None
        case Param(n) => if path[0] == "" then None else Some(b[n := Str(path[0])])
  }

  predicate Matches(r: Route, verb: Verb, path: seq<string>)
  {
    r.verb == verb && Bind(r.pattern, path).Some?
  }

  /** Express's dispatch: the first registered route with the verb whose pattern matches the path. */
  function Match(routes: seq<Route>, verb: Verb, path: seq<string>): (r: Option<(Route, map<string, Value>)>)
    ensures r.None? <==> forall i :: 0 <= i < |routes| ==> !Matches(routes[i], verb, path)
    ensures r.Some? ==> exists k :: 0 <= k < |routes| && routes[k] == r.value.0
                          && Matches(routes[k], verb, path)
                          && Bind(routes[k].pattern, path) == Some(r.value.1)
                          && forall j :: 0 <= j < k ==> !Matches(routes[j], verb, path)
  {
    if routes == [] then None
    else if Matches(routes[0], verb, path) then Some((routes[0], Bind(routes[0].pattern, path).value))
    else
      var r := Match(routes[1..], verb, path);
      if r.Some? then
        ghost var k :| 0 <= k < |routes[1..]| && routes[1..][k] == r.value.0
                       && Matches(routes[1..][k], verb, path)
                       && Bind(routes[1..][k].pattern, path) == Some(r.value.1)
                       && forall j :: 0 <= j < k ==> !Matches(routes[1..][j], verb, path);
        assert routes[k + 1] == r.value.0;
        r
      else r
  }

  /** The matched route is one of the table's, and so well formed. */
  lemma {:induction false} MatchedWellFormed(routes: seq<Route>, verb: Verb, path: seq<string>)
    requires AllWellFormed(routes)
    requires Match(routes, verb, path).Some?
    ensures Match(routes, verb, path).value.0 in routes
    ensures WellFormed(Match(routes, verb, path).value.0)
  {
    var k :| 0 <= k < |routes| && routes[k] == Match(routes, verb, path).value.0;
  }

  /** No account route matches a path under "/todos". */
  lemma {:induction false} UserRoutesSkipTodos(verb: Verb, path: seq<string>)
    requires |path| >= 1 && path[0] == "todos"
    ensures forall k :: 0 <= k < |UserRoutes| ==> !Matches(ApiRoutes[k], verb, path)
  {
    forall k | 0 <= k < |UserRoutes|
      ensures !Matches(ApiRoutes[k], verb, path)
    {
      var pattern := ApiRoutes[k].pattern;
      assert pattern[0].Lit? && pattern[0].text != "todos";
    }
  }

  /** POST "/signin" reaches the written sign-in in the registered table and the checked one in the corrected table. */
  lemma {:induction false} SigninRouted()
    ensures Match(ApiRoutes, Post, ["signin"]) == Some((UserRoutes[1], map[]))
    ensures Match(CorrectedApi, Post, ["signin"]) == Some((CheckedSigninRoute, map[]))
  {
    assert Bind([Lit("signin")], ["signin"]) == Some(map[]) by {
      assert ["signin"][1..] == [];
    }
    assert !Matches(ApiRoutes[0], Post, ["signin"]) && ApiRoutes[1] == UserRoutes[1];
    assert !Matches(CorrectedApi[0], Post, ["signin"]) && CorrectedApi[1] == CheckedSigninRoute;
  }

  /** The password change is never registered: a PUT to "/changePassword" matches no route. */
  lemma ChangePasswordUnrouted()
    ensures Match(ApiRoutes, Put, ["changePassword"]).None?
  {
  }

  /** Once registered, a PUT to "/changePassword" reaches the password change, with no parameters. */
  lemma {:induction false} ChangePasswordRouted()
    ensures Match(CorrectedApi, Put, ["changePassword"]) == Some((ChangePasswordRoute, map[]))
  {
    assert !Matches(CorrectedApi[0], Put, ["changePassword"]) && !Matches(CorrectedApi[1], Put, ["changePassword"]);
    assert CorrectedApi[2] == ChangePasswordRoute;
    assert Bind(ChangePasswordRoute.pattern, ["changePassword"]) == Some(map[]) by {
      assert ["changePassword"][1..] == [];
    }
  }
}
