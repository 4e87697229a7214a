/** The todo schemas: the status enumeration, the create/update body, the list query, the path. */
module TodoModels {
  import opened Wrappers
  import opened Json
  import opened HttpErrors
  import opened Schema
  import Formats

  datatype TodoStatus = NotStarted | OnGoing | Completed

  function StatusName(s: TodoStatus): string
  {
    match s
    case NotStarted => "NotStarted"
    case OnGoing => "OnGoing"
    case Completed => "Completed"
  }

  const StatusNames: seq<string> := ["NotStarted", "OnGoing", "Completed"]

  /** The status a name denotes; exactly the three names denote one, and each its own. */
  function StatusNamed(name: string): (r: Option<TodoStatus>)
    ensures r.Some? <==> name in StatusNames
    ensures r.Some? ==> StatusName(r.value) == name
  {
    if name == "NotStarted" then Some(NotStarted)
    else if name == "OnGoing" then Some(OnGoing)
    else if name == "Completed" then Some(Completed)
    else None
  }

  /** The create/update body: identifiers and timestamps forbidden, status defaulted. */
  const NewTodoBody: Shape := [
    ("id", Never),
    ("name", Text(true, [])),
    ("description", Text(false, [])),
    ("userId", Never),
    ("createdAt", Never),
    ("updatedAt", Never),
    ("status", OneOf(StatusNames, true, Some("NotStarted")))
  ]

  /** The list query: an optional status filter. */
  const TodoQuery: Shape := [("status", OneOf(StatusNames, false, None))]

  /** The path of the single-todo routes: a cuid. */
  const TodoParams: Shape := [("id", Text(true, [Cuid]))]

  lemma ShapesHaveDistinctKeys()
    ensures NoDuplicateKeys(NewTodoBody) && NoDuplicateKeys(TodoQuery) && NoDuplicateKeys(TodoParams)
  {
  }

  /** A parsed body as the handlers read it. */
  datatype NewTodo = NewTodo(name: string, description: Option<string>, status: TodoStatus)

  /** The handlers' view of a conforming body: the same name, description and status. */
  function NewTodoOf(v: Value): (t: NewTodo)
    requires Conforms(NewTodoBody, v)
    ensures Get(v, "name") == Some(Str(t.name))
    ensures Get(v, "description") == if t.description.Some? then Some(Str(t.description.value)) else None
    ensures Get(v, "status") == Some(Str(StatusName(t.status)))
  {
    assert ParseField(NewTodoBody[1].1, Get(v, NewTodoBody[1].0)) == Ok(Get(v, "name"));
    assert ParseField(NewTodoBody[2].1, Get(v, NewTodoBody[2].0)) == Ok(Get(v, "description"));
    assert ParseField(NewTodoBody[6].1, Get(v, NewTodoBody[6].0)) == Ok(Get(v, "status"));
    NewTodo(
      v.fields["name"].s,
      if "description" in v.fields then Some(v.fields["description"].s) else None,
      StatusNamed(v.fields["status"].s).value)
  }

  /** The body schema followed by the handlers' reading of its output. */
  function ParseNewTodo(v: Value): (r: Result<NewTodo, seq<Issue>>)
    ensures r.Ok? <==> ParseObject(NewTodoBody, v, false).Ok?
    ensures r.Err? ==> r == Err(ParseObject(NewTodoBody, v, false).error)
  {
    match ParseObject(NewTodoBody, v, false)
    case Err(issues) => Err(issues)
    case Ok(o) =>
      ShapesHaveDistinctKeys();
      ParsedConforms(NewTodoBody, v, false);
      Ok(NewTodoOf(o))
  }

  /** The canonical body of a todo: the inverse of NewTodoOf. */
  function BodyOf(t: NewTodo): Value
  {
    var fields := map["name" := Str(t.name), "status" := Str(StatusName(t.status))];
    Obj(if t.description.Some? then fields["description" := Str(t.description.value)] else fields)
  }

  /** The canonical body of a todo passes every key of the body schema unchanged. */
  lemma {:induction false} BodyConforms(t: NewTodo)
    ensures Conforms(NewTodoBody, BodyOf(t))
  {
    var v := BodyOf(t);
    forall i | 0 <= i < |NewTodoBody|
      ensures ParseField(NewTodoBody[i].1, Get(v, NewTodoBody[i].0)) == Ok(Get(v, NewTodoBody[i].0))
    {
    }
  }

  /** NewTodoOf and BodyOf are inverse between todos and canonical bodies, which parse to themselves. */
  lemma {:induction false} BodyRoundTrip(t: NewTodo)
    ensures Conforms(NewTodoBody, BodyOf(t)) && NewTodoOf(BodyOf(t)) == t
    ensures ParseObject(NewTodoBody, BodyOf(t), false) == Ok(BodyOf(t))
  {
    BodyConforms(t);
    BodyKeys(t);
    ShapesHaveDistinctKeys();
    ConformingParsesToItself(NewTodoBody, BodyOf(t), false);
  }

  /** The canonical body holds only keys of the body schema. */
  lemma {:induction false} BodyKeys(t: NewTodo)
    ensures BodyOf(t).fields.Keys <= Keys(NewTodoBody)
  {
    assert NewTodoBody[1].0 == "name" && NewTodoBody[2].0 == "description" && NewTodoBody[6].0 == "status";
  }

  lemma {:induction false} NewTodoBodyKeys()
    ensures Keys(NewTodoBody) == {"id", "name", "description", "userId", "createdAt", "updatedAt", "status"}
  {
    assert NewTodoBody[0].0 == "id" && NewTodoBody[3].0 == "userId";
    assert NewTodoBody[4].0 == "createdAt" && NewTodoBody[5].0 == "updatedAt";
    assert NewTodoBody[1].0 == "name" && NewTodoBody[2].0 == "description" && NewTodoBody[6].0 == "status";
  }

  /** A parsed body conforms and holds no key besides the name, the description and the status. */
  lemma {:induction false} ParsedBodyKeys(v: Value)
    requires ParseObject(NewTodoBody, v, false).Ok?
    ensures Conforms(NewTodoBody, ParseObject(NewTodoBody, v, false).value)
    ensures ParseObject(NewTodoBody, v, false).value.fields.Keys <= {"name", "description", "status"}
  {
    var o := ParseObject(NewTodoBody, v, false).value;
    ShapesHaveDistinctKeys();
    ParsedConforms(NewTodoBody, v, false);
    OutKeys(NewTodoBody, v.fields);
    NewTodoBodyKeys();
    assert ParseField(NewTodoBody[0].1, Get(o, "id")) == Ok(Get(o, "id"));
    assert ParseField(NewTodoBody[3].1, Get(o, "userId")) == Ok(Get(o, "userId"));
    assert ParseField(NewTodoBody[4].1, Get(o, "createdAt")) == Ok(Get(o, "createdAt"));
    assert ParseField(NewTodoBody[5].1, Get(o, "updatedAt")) == Ok(Get(o, "updatedAt"));
  }

  /** Every parsed body is the canonical body of what the handlers read from it. */
  lemma {:induction false} ParsedBodyIsCanonical(v: Value)
    requires ParseObject(NewTodoBody, v, false).Ok?
    ensures Conforms(NewTodoBody, ParseObject(NewTodoBody, v, false).value)
    ensures BodyOf(NewTodoOf(ParseObject(NewTodoBody, v, false).value)) == ParseObject(NewTodoBody, v, false).value
  {
    var o := ParseObject(NewTodoBody, v, false).value;
    ParsedBodyKeys(v);
    var t := NewTodoOf(o);
    assert BodyOf(t).fields == o.fields;
  }

  /** A body carrying an identifier, an owner or a timestamp is refused. */
  lemma ForbiddenKeysRefused(v: Value, key: string)
    requires v.Obj? && key in v.fields
    requires key in {"id", "userId", "createdAt", "updatedAt"}
    ensures ParseObject(NewTodoBody, v, false).Err?
    ensures Issue([key], InvalidType) in ParseObject(NewTodoBody, v, false).error
  {
    var i := if key == "id" then 0 else if key == "userId" then 3 else if key == "createdAt" then 4 else 5;
    ForbiddenKeyRefused(NewTodoBody, v, false, i);
  }

  /** The name is required: an accepted body has a string name. */
  lemma NameRequired(v: Value)
    requires ParseObject(NewTodoBody, v, false).Ok?
    ensures Get(v, "name").Some? && Get(v, "name").value.Str?
  {
    RefusedIffSomeKeyRefused(NewTodoBody, v, false);
    assert !ParseField(NewTodoBody[1].1, Get(v, NewTodoBody[1].0)).Err?;
  }

  /** The empty body is refused, for the missing name alone. */
  lemma EmptyBodyRefused()
    ensures ParseObject(NewTodoBody, Obj(map[]), false) == Err([Issue(["name"], InvalidType)])
  {
    var f: map<string, Value> := map[];
    var b := NewTodoBody;
    assert ParseKeys(b[6..], f) == Parsed(map["status" := Str("NotStarted")], []) by {
      assert b[6..][1..] == [];
    }
    assert b[5..][1..] == b[6..] && b[5..][0] == ("updatedAt", Never);
    assert ParseKeys(b[5..], f).issues == [];
    assert b[4..][1..] == b[5..] && b[4..][0] == ("createdAt", Never);
    assert ParseKeys(b[4..], f).issues == [];
    assert b[3..][1..] == b[4..] && b[3..][0] == ("userId", Never);
    assert ParseKeys(b[3..], f).issues == [];
    assert b[2..][1..] == b[3..] && b[2..][0] == ("description", Text(false, []));
    assert ParseKeys(b[2..], f).issues == [];
    assert b[1..][1..] == b[2..];
    assert IssuesAt("name", [InvalidType]) == [Issue(["name"], InvalidType)];
    assert ParseKeys(b[1..], f).issues == [Issue(["name"], InvalidType)];
    assert b[0..][1..] == b[1..];
    assert b == b[0..];
  }

  /**
   * The status of an accepted body: the one given, or NotStarted when none is given; a status
   * that is not one of the three names is refused.
   */
  lemma {:induction false} StatusDefaulted(v: Value)
    requires v.Obj?
    ensures ParseNewTodo(v).Ok? ==>
              if "status" in v.fields then v.fields["status"] == Str(StatusName(ParseNewTodo(v).value.status))
              else ParseNewTodo(v).value.status == NotStarted
    ensures "status" in v.fields && (!v.fields["status"].Str? || v.fields["status"].s !in StatusNames) ==>
              ParseNewTodo(v).Err?
  {
    RefusedIffSomeKeyRefused(NewTodoBody, v, false);
    if ParseObject(NewTodoBody, v, false).Ok? {
      ShapesHaveDistinctKeys();
      ParsedConforms(NewTodoBody, v, false);
      ParseKeysAt(NewTodoBody, v.fields, 6);
      assert Get(v, "status") == Lookup(v.fields, "status");
    }
    if "status" in v.fields && (!v.fields["status"].Str? || v.fields["status"].s !in StatusNames) {
      assert ParseField(NewTodoBody[6].1, Get(v, NewTodoBody[6].0)).Err?;
    }
  }

  /** A parsed body keeps the name and the description it was given. */
  lemma {:induction false} NameAndDescriptionKept(v: Value)
    requires ParseNewTodo(v).Ok?
    ensures Get(v, "name") == Some(Str(ParseNewTodo(v).value.name))
    ensures Get(v, "description") == (var d := ParseNewTodo(v).value.description;
                                      if d.Some? then Some(Str(d.value)) else None)
  {
    ShapesHaveDistinctKeys();
    ParsedConforms(NewTodoBody, v, false);
    ParseKeysAt(NewTodoBody, v.fields, 1);
    ParseKeysAt(NewTodoBody, v.fields, 2);
    assert Get(v, "name") == Lookup(v.fields, "name");
    assert Get(v, "description") == Lookup(v.fields, "description");
  }

  /** The create example: `{name: "test"}` is accepted as a NotStarted todo without description. */
  lemma CreateExample()
    ensures ParseNewTodo(Obj(map["name" := Str("test")])) == Ok(NewTodo("test", None, NotStarted))
  {
    var v := Obj(map["name" := Str("test")]);
    RefusedIffSomeKeyRefused(NewTodoBody, v, false);
    assert ParseObject(NewTodoBody, v, false).Ok?;
    StatusDefaulted(v);
    NameAndDescriptionKept(v);
  }

  /** The status filter of a conforming query. */
  function StatusFilterOf(v: Value): (r: Option<TodoStatus>)
    requires Conforms(TodoQuery, v)
    ensures r.Some? <==> Get(v, "status").Some?
    ensures r.Some? ==> Get(v, "status") == Some(Str(StatusName(r.value)))
  {
    assert ParseField(TodoQuery[0].1, Get(v, TodoQuery[0].0)) == Ok(Get(v, "status"));
    if "status" in v.fields then StatusNamed(v.fields["status"].s) else None
  }

  /** A query is accepted exactly when it has no status or one of the three names. */
  lemma QueryAccepted(v: Value)
    ensures ParseObject(TodoQuery, v, false).Ok? <==>
              v.Obj? && ("status" in v.fields ==> v.fields["status"].Str? && v.fields["status"].s in StatusNames)
  {
    if v.Obj? {
      RefusedIffSomeKeyRefused(TodoQuery, v, false);
    }
  }

  /** The identifier of a conforming path, which is always a cuid. */
  function IdOf(v: Value): (id: string)
    requires Conforms(TodoParams, v)
    ensures Get(v, "id") == Some(Str(id)) && Formats.IsCuid(id)
  {
    assert ParseField(TodoParams[0].1, Get(v, TodoParams[0].0)) == Ok(Get(v, "id"));
    v.fields["id"].s
  }

  /** A path is accepted exactly when its id is a cuid. */
  lemma ParamsAccepted(v: Value)
    ensures ParseObject(TodoParams, v, false).Ok? <==>
              v.Obj? && "id" in v.fields && v.fields["id"].Str? && Formats.IsCuid(v.fields["id"].s)
  {
    if v.Obj? {
      RefusedIffSomeKeyRefused(TodoParams, v, false);
      assert TodoParams[0].0 == "id";
      if "id" in v.fields && v.fields["id"].Str? {
        assert AllCheckIssues([Cuid], v.fields["id"].s) == CheckIssues(Cuid, v.fields["id"].s);
      }
    }
  }
}
