/**
 * The to-do handlers. Each is specified by a function from the table's rows, the authenticated
 * principal and the validated input to the new rows and the reply; the methods run against the
 * table and are proved to follow those functions.
 */
module TodoHandlers {
  import opened Wrappers
  import opened Json
  import opened HttpErrors
  import opened Schema
  import opened TodoModels
  import opened Store
  import opened Http

  /** The new rows and what the handler answers (a todo, or the error it forwards). */
  datatype Outcome = Outcome(rows: map<string, Todo>, reply: Result<Todo, Error>)

  /** The owner filter of the list: `user.id || ''`. */
  function OwnerKey(id: Option<string>): string
  {
    if id.Some? then id.value else ""
  }

  /** The owner the store records for `id`, undefined when there is no such todo. */
  function OwnerOf(rows: map<string, Todo>, id: string): Option<string>
  {
    if id in rows then Some(rows[id].userId) else None
  }

  /** `todo?.userId !== user.id` is false: the principal may touch the todo under `id`. */
  predicate MayTouch(rows: map<string, Todo>, id: string, user: Principal)
  {
    OwnerOf(rows, id) == user.id
  }

  /** `getAll`: the caller's todos, narrowed to one status when the query names one. */
  function ListOutcome(rows: map<string, Todo>, user: Option<Principal>, status: Option<TodoStatus>): (r: Result<set<Todo>, Error>)
    ensures user.None? <==> r.Err?
    ensures r.Err? ==> r.error == Forbidden()
    ensures r.Ok? ==> forall t :: t in r.value <==>
              && t in rows.Values
              && t.userId == OwnerKey(user.value.id)
              && (status.None? || t.status == status.value)
  {
    if user.None? then Err(Forbidden())
    else Ok(Select(rows, OwnerKey(user.value.id), status))
  }

  /** `createOne`: stores the body under a fresh identifier, owned by the caller. */
  function CreateOutcome(rows: map<string, Todo>, user: Option<Principal>, newId: string, body: NewTodo): (r: Outcome)
    ensures r.reply.Ok? <==> user.Some? && user.value.id.Some? && newId !in rows
    ensures r.reply.Err? ==> r.rows == rows
    ensures r.reply.Err? ==> r.reply.error == if user.None? then Forbidden()
                                               else if user.value.id.None? then OwnerMissing
                                               else UniqueViolation
    ensures r.reply.Ok? ==>
              && r.reply.value == Todo(newId, body.name, body.description, body.status, user.value.id.value)
              && newId in r.rows && r.rows[newId] == r.reply.value
              && forall k :: k != newId ==> (k in r.rows <==> k in rows) && (k in rows ==> r.rows[k] == rows[k])
  {
    if user.None? then Outcome(rows, Err(Forbidden()))
    else if user.value.id.None? then Outcome(rows, Err(OwnerMissing))
    else if newId in rows then Outcome(rows, Err(UniqueViolation))
    else
      var t := Todo(newId, body.name, body.description, body.status, user.value.id.value);
      Outcome(rows[newId := t], Ok(t))
  }

  /** `deleteOne`: removes the caller's own todo and answers with it. */
  function DeleteOutcome(rows: map<string, Todo>, user: Option<Principal>, id: string): (r: Outcome)
    ensures r.reply.Ok? <==> user.Some? && user.value.id.Some? && id in rows && rows[id].userId == user.value.id.value
    ensures r.reply.Ok? ==> r.reply.value == rows[id] && id !in r.rows
    ensures forall k :: k != id ==> (k in r.rows <==> k in rows) && (k in rows ==> r.rows[k] == rows[k])
    ensures r.reply.Err? ==> r.rows == rows
    ensures r.reply.Err? ==> r.reply.error == if user.None? || !MayTouch(rows, id, user.value) then Forbidden()
                                               else RecordNotFound
  {
    if user.None? || !MayTouch(rows, id, user.value) then Outcome(rows, Err(Forbidden()))
    else if id in rows then Outcome(rows - {id}, Ok(rows[id]))
    else Outcome(rows, Err(RecordNotFound))
  }

  /** `updateOne`: overwrites the caller's own todo with the body and answers with the result. */
  function UpdateOutcome(rows: map<string, Todo>, user: Option<Principal>, id: string, body: NewTodo): (r: Outcome)
    ensures r.reply.Ok? <==> user.Some? && user.value.id.Some? && id in rows && rows[id].userId == user.value.id.value
    ensures r.reply.Ok? ==>
              && r.reply.value.id == rows[id].id && r.reply.value.userId == rows[id].userId
              && r.reply.value.name == body.name && r.reply.value.status == body.status
              && r.reply.value.description == (if body.description.Some? then body.description else rows[id].description)
              && id in r.rows && r.rows[id] == r.reply.value
    ensures forall k :: k != id ==> (k in r.rows <==> k in rows) && (k in rows ==> r.rows[k] == rows[k])
    ensures r.reply.Err? ==> r.rows == rows
    ensures r.reply.Err? ==> r.reply.error == if user.None? || !MayTouch(rows, id, user.value) then Forbidden()
                                               else RecordNotFound
  {
    if user.None? || !MayTouch(rows, id, user.value) then Outcome(rows, Err(Forbidden()))
    else if id in rows then Outcome(rows[id := Patched(rows[id], body)], Ok(Patched(rows[id], body)))
    else Outcome(rows, Err(RecordNotFound))
  }

  /** Every handler keeps the table keyed by identifier. */
  lemma OutcomesKeepTableKeyed(rows: map<string, Todo>, user: Option<Principal>, id: string, body: NewTodo)
    requires TodosKeyed(rows)
    ensures TodosKeyed(CreateOutcome(rows, user, id, body).rows)
    ensures TodosKeyed(DeleteOutcome(rows, user, id).rows)
    ensures TodosKeyed(UpdateOutcome(rows, user, id, body).rows)
  {
  }

  /**
   * A caller with an identifier cannot tell a todo that does not exist from one that belongs to
   * someone else: both are 403 and leave the table alone.
   */
  lemma MissingAndForeignLookAlike(rows: map<string, Todo>, uid: string, missing: string, foreign: string, body: NewTodo)
    requires missing !in rows
    requires foreign in rows && rows[foreign].userId != uid
    ensures var user := Some(Principal(Some(uid)));
            && DeleteOutcome(rows, user, missing) == DeleteOutcome(rows, user, foreign) == Outcome(rows, Err(Forbidden()))
            && UpdateOutcome(rows, user, missing, body) == UpdateOutcome(rows, user, foreign, body) == Outcome(rows, Err(Forbidden()))
  {
  }

  /**
   * A principal whose token carried no `u` passes the ownership check on a missing todo, and the
   * store's "record not found" then ends as a 500.
   */
  lemma AnonymousMissingIsServerError(rows: map<string, Todo>, id: string, body: NewTodo)
    requires id !in rows
    ensures var user := Some(Principal(None));
            && DeleteOutcome(rows, user, id) == Outcome(rows, Err(RecordNotFound))
            && UpdateOutcome(rows, user, id, body) == Outcome(rows, Err(RecordNotFound))
            && StatusCodeOf(RecordNotFound) == 0
  {
  }

  /** Deleting the same todo twice: the first answers with it, the second is refused. */
  lemma {:induction false} SecondDeleteForbidden(rows: map<string, Todo>, uid: string, id: string)
    requires DeleteOutcome(rows, Some(Principal(Some(uid))), id).reply.Ok?
    ensures var after := DeleteOutcome(rows, Some(Principal(Some(uid))), id).rows;
            DeleteOutcome(after, Some(Principal(Some(uid))), id) == Outcome(after, Err(Forbidden()))
  {
    var after := DeleteOutcome(rows, Some(Principal(Some(uid))), id).rows;
    assert id !in after;
    assert OwnerOf(after, id) == None != Some(uid);
  }

  /** A created todo is listed for its owner, under its own status and without a filter. */
  lemma {:induction false} CreatedIsListed(rows: map<string, Todo>, uid: string, newId: string, body: NewTodo)
    requires CreateOutcome(rows, Some(Principal(Some(uid))), newId, body).reply.Ok?
    ensures var r := CreateOutcome(rows, Some(Principal(Some(uid))), newId, body);
            && r.reply.value in ListOutcome(r.rows, Some(Principal(Some(uid))), None).value
            && r.reply.value in ListOutcome(r.rows, Some(Principal(Some(uid))), Some(body.status)).value
  {
    var r := CreateOutcome(rows, Some(Principal(Some(uid))), newId, body);
    assert r.rows[newId] == r.reply.value;
    assert r.reply.value in r.rows.Values;
  }

  /** A list never shows another caller's todo. */
  lemma ListedAreOwn(rows: map<string, Todo>, user: Principal, status: Option<TodoStatus>, t: Todo)
    requires ListOutcome(rows, Some(user), status).Ok?
    requires t in ListOutcome(rows, Some(user), status).value
    ensures t.userId == OwnerKey(user.id)
    ensures user.id.Some? ==> t.userId == user.id.value
  {
  }

  /**
   * PUT validates the body with the creation schema, so a body without `status` resets the todo
   * to NotStarted whatever it was.
   */
  lemma {:induction false} PutWithoutStatusResets(rows: map<string, Todo>, uid: string, id: string, v: Value)
    requires v.Obj? && "status" !in v.fields
    requires ParseNewTodo(v).Ok?
    requires id in rows && rows[id].userId == uid
    ensures UpdateOutcome(rows, Some(Principal(Some(uid))), id, ParseNewTodo(v).value).reply.value.status == NotStarted
  {
    StatusDefaulted(v);
  }

  /** `getAll`, reading the validated query. */
  method GetAll(req: Request, db: TodoTable) returns (r: Result<Reply, Error>)
    requires Conforms(TodoQuery, req.query)
    ensures var l := ListOutcome(db.rows, req.user, StatusFilterOf(req.query));
            r == if l.Ok? then Ok(TodoList(l.value)) else Err(l.error)
  {
    var status := StatusFilterOf(req.query);
    var user := req.user;
    if user.None? {
      return Err(Forbidden());
    }
    var todos := db.FindMany(OwnerKey(user.value.id), status);
    r := Ok(TodoList(todos));
  }

  /** `createOne`, reading the validated body; `newId` is the identifier the store generates. */
  method CreateOne(req: Request, db: TodoTable, newId: string) returns (r: Result<Reply, Error>)
    requires db.Valid() && Conforms(NewTodoBody, req.body)
    modifies db
    ensures db.Valid()
    ensures var o := CreateOutcome(old(db.rows), req.user, newId, NewTodoOf(req.body));
            && db.rows == o.rows
            && r == if o.reply.Ok? then Ok(OneTodo(o.reply.value)) else Err(o.reply.error)
  {
    var user := req.user;
    var newTodo := NewTodoOf(req.body);
    if user.None? {
      return Err(Forbidden());
    }
    var todo := db.Create(newId, newTodo, user.value.id);
    r := if todo.Ok? then Ok(OneTodo(todo.value)) else Err(todo.error);
  }

  /** `deleteOne`, reading the validated path parameter. */
  method DeleteOne(req: Request, db: TodoTable) returns (r: Result<Reply, Error>)
    requires db.Valid() && Conforms(TodoParams, req.params)
    modifies db
    ensures db.Valid()
    ensures var o := DeleteOutcome(old(db.rows), req.user, IdOf(req.params));
            && db.rows == o.rows
            && r == if o.reply.Ok? then Ok(OneTodo(o.reply.value)) else Err(o.reply.error)
  {
    var user := req.user;
    var id := IdOf(req.params);
    if user.None? {
      return Err(Forbidden());
    }
    var todo := db.FindUnique(id);
    if (if todo.Some? then Some(todo.value.userId) else None) != user.value.id {
      return Err(Forbidden());
    }
    var deleted := db.Delete(id);
    r := if deleted.Ok? then Ok(OneTodo(deleted.value)) else Err(deleted.error);
  }

  /** `updateOne`, reading the validated path parameter and body. */
  method UpdateOne(req: Request, db: TodoTable) returns (r: Result<Reply, Error>)
    requires db.Valid() && Conforms(TodoParams, req.params) && Conforms(NewTodoBody, req.body)
    modifies db
    ensures db.Valid()
    ensures var o := UpdateOutcome(old(db.rows), req.user, IdOf(req.params), NewTodoOf(req.body));
            && db.rows == o.rows
            && r == if o.reply.Ok? then Ok(OneTodo(o.reply.value)) else Err(o.reply.error)
  {
    var user := req.user;
    var id := IdOf(req.params);
    var updatedTodo := NewTodoOf(req.body);
    if user.None? {
      return Err(Forbidden());
    }
    var todo := db.FindUnique(id);
    if (if todo.Some? then Some(todo.value.userId) else None) != user.value.id {
      return Err(Forbidden());
    }
    var updated := db.Update(id, updatedTodo);
    r := if updated.Ok? then Ok(OneTodo(updated.value)) else Err(updated.error);
  }
}
