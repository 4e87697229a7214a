/**
 * The database the handlers talk to, as two in-memory tables: todos keyed by their identifier,
 * users keyed by their (unique) address. Failures of the store are plain errors without an
 * HTTP status code, so the error handler answers them with 500.
 */
module Store {
  import opened Wrappers
  import opened HttpErrors
  import opened TodoModels
  import opened UserModels

  datatype Todo = Todo(id: string, name: string, description: Option<string>, status: TodoStatus, userId: string)

  datatype User = User(id: string, email: string, password: string)

  /** An update or delete whose `where` matches no row. */
  const RecordNotFound: Error := PlainError("Record to update or delete does not exist.", "")

  /** A create that would duplicate a unique column. */
  const UniqueViolation: Error := PlainError("Unique constraint failed", "")

  /** A todo created without an owner. */
  const OwnerMissing: Error := PlainError("Argument `userId` is missing.", "")

  predicate TodosKeyed(rows: map<string, Todo>)
  {
    forall id :: id in rows ==> rows[id].id == id
  }

  function Find(rows: map<string, Todo>, id: string): Option<Todo>
  {
    if id in rows then Some(rows[id]) else None
  }

  /** `findMany({where: {userId, status}})`, an undefined status not filtering. */
  function Select(rows: map<string, Todo>, userId: string, status: Option<TodoStatus>): set<Todo>
  {
    set t | t in rows.Values && t.userId == userId && (status.None? || t.status == status.value)
  }

  /** `update({data: {...body}})`: the keys the body carries overwrite, the others stay. */
  function Patched(t: Todo, body: NewTodo): Todo
  {
    t.(name := body.name,
       status := body.status,
       description := if body.description.Some? then body.description else t.description)
  }

  class TodoTable {
    var rows: map<string, Todo>

    ghost predicate Valid()
      reads this
    {
      TodosKeyed(rows)
    }

    constructor ()
      ensures Valid() && rows == map[]
    {
      rows := map[];
    }

    method FindUnique(id: string) returns (r: Option<Todo>)
      ensures r == Find(rows, id)
    {
      r := if id in rows then Some(rows[id]) else None;
    }

    method FindMany(userId: string, status: Option<TodoStatus>) returns (r: set<Todo>)
      ensures r == Select(rows, userId, status)
    {
      r := set t | t in rows.Values && t.userId == userId && (status.None? || t.status == status.value);
    }

    /** Inserts a row under `id`, the identifier the store generated for it. */
    method Create(id: string, data: NewTodo, userId: Option<string>) returns (r: Result<Todo, Error>)
      requires Valid()
      modifies this
      ensures Valid()
      ensures userId.None? ==> r == Err(OwnerMissing) && rows == old(rows)
      ensures userId.Some? && id in old(rows) ==> r == Err(UniqueViolation) && rows == old(rows)
      ensures userId.Some? && id !in old(rows) ==>
                r == Ok(Todo(id, data.name, data.description, data.status, userId.value))
                && rows == old(rows)[id := r.value]
    {
      if userId.None? {
        r := Err(OwnerMissing);
      } else if id in rows {
        r := Err(UniqueViolation);
      } else {
        var t := Todo(id, data.name, data.description, data.status, userId.value);
        rows := rows[id := t];
        r := Ok(t);
      }
    }

    method Delete(id: string) returns (r: Result<Todo, Error>)
      requires Valid()
      modifies this
      ensures Valid()
      ensures id in old(rows) ==> r == Ok(old(rows)[id]) && rows == old(rows) - {id}
      ensures id !in old(rows) ==> r == Err(RecordNotFound) && rows == old(rows)
    {
      if id in rows {
        r := Ok(rows[id]);
        rows := rows - {id};
      } else {
        r := Err(RecordNotFound);
      }
    }

    method Update(id: string, data: NewTodo) returns (r: Result<Todo, Error>)
      requires Valid()
      modifies this
      ensures Valid()
      ensures id in old(rows) ==> r == Ok(Patched(old(rows)[id], data)) && rows == old(rows)[id := r.value]
      ensures id !in old(rows) ==> r == Err(RecordNotFound) && rows == old(rows)
    {
      if id in rows {
        var t := Patched(rows[id], data);
        rows := rows[id := t];
        r := Ok(t);
      } else {
        r := Err(RecordNotFound);
      }
    }
  }

  /** Users are keyed by address, and no two share an identifier. */
  predicate UsersKeyed(byEmail: map<string, User>)
  {
    && (forall e :: e in byEmail ==> byEmail[e].email == e)
    && (forall e1, e2 :: e1 in byEmail && e2 in byEmail && byEmail[e1].id == byEmail[e2].id ==> e1 == e2)
  }

  function FindByEmail(byEmail: map<string, User>, email: string): Option<User>
  {
    if email in byEmail then Some(byEmail[email]) else None
  }

  predicate IdTaken(byEmail: map<string, User>, id: string)
  {
    exists e :: e in byEmail && byEmail[e].id == id
  }

  /** `where: {id, email}`; an undefined id filters on the address alone. */
  predicate MatchesWhere(u: User, id: Option<string>, email: string)
  {
    u.email == email && (id.None? || u.id == id.value)
  }

  class UserTable {
    var byEmail: map<string, User>

    ghost predicate Valid()
      reads this
    {
      UsersKeyed(byEmail)
    }

    constructor ()
      ensures Valid() && byEmail == map[]
    {
      byEmail := map[];
    }

    method FindUnique(email: string) returns (r: Option<User>)
      ensures r == FindByEmail(byEmail, email)
    {
      r := if email in byEmail then Some(byEmail[email]) else None;
    }

    /** Inserts a user under `id`, the identifier the store generated for it. */
    method Create(id: string, c: Credentials) returns (r: Result<User, Error>)
      requires Valid()
      modifies this
      ensures Valid()
      ensures c.email in old(byEmail) || IdTaken(old(byEmail), id) ==> r == Err(UniqueViolation) && byEmail == old(byEmail)
      ensures !(c.email in old(byEmail) || IdTaken(old(byEmail), id)) ==>
                r == Ok(User(id, c.email, c.password)) && byEmail == old(byEmail)[c.email := r.value]
    {
      if c.email in byEmail || exists e :: e in byEmail && byEmail[e].id == id {
        r := Err(UniqueViolation);
      } else {
        var u := User(id, c.email, c.password);
        byEmail := byEmail[c.email := u];
        r := Ok(u);
      }
    }

    /** `update({where: {id, email}, data: {password}})`. */
    method UpdatePassword(id: Option<string>, email: string, password: string) returns (r: Result<User, Error>)
      requires Valid()
      modifies this
      ensures Valid()
      ensures email in old(byEmail) && MatchesWhere(old(byEmail)[email], id, email) ==>
                r == Ok(old(byEmail)[email].(password := password)) && byEmail == old(byEmail)[email := r.value]
      ensures !(email in old(byEmail) && MatchesWhere(old(byEmail)[email], id, email)) ==>
                r == Err(RecordNotFound) && byEmail == old(byEmail)
    {
      if email in byEmail && (id.None? || byEmail[email].id == id.value) {
        var u := byEmail[email].(password := password);
        byEmail := byEmail[email := u];
        r := Ok(u);
      } else {
        r := Err(RecordNotFound);
      }
    }
  }
}
