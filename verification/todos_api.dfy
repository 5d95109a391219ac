/** The todo API (with-supabase-app/app/api/todos/route.ts): GET lists the
    caller's todos, POST creates one, PUT updates the title and completion
    of one, DELETE removes one. The signed-in user, the parsed request body
    and the database's failures are parameters; the `todos` table is an
    object whose rows the handlers change. */
module TodosApi {
  import opened Text
  import opened Collections

  /** A row of the `todos` table; `createdAt` orders the rows. */
  datatype Row = Row(id: string, title: string, completed: bool, userId: string, createdAt: int)

  /** The fields a PUT may change; `None` is a field left undefined. */
  datatype Updates = Updates(title: Option<string>, completed: Option<bool>)

  /** The body of a JSON response. */
  datatype Body = TodoList(todos: seq<Row>) | OneTodo(todo: Row) | Error(error: string) | Success

  datatype Response = Json(status: int, body: Body) | Redirect(location: string)

  /** A request body: unparsable JSON, or the fields the handler reads. */
  datatype PostRequest = UnparsablePost | PostBody(title: Option<string>)
  datatype PutRequest = UnparsablePut | PutBody(id: Option<string>, title: Option<string>, completed: Option<bool>)

  const LoginPath: string := "/auth/login"
  const TitleRequired: string := "Title is required"
  const IdRequired: string := "Todo ID is required"
  const CreateFailed: string := "Failed to create todo"
  const UpdateFailed: string := "Failed to update todo"
  const DeleteFailed: string := "Failed to delete todo"

  /** The `todos` table. */
  class Table {
    var rows: seq<Row>

    constructor (rows: seq<Row>)
      ensures this.rows == rows
    {
      this.rows := rows;
    }
  }

  /** The rows the query `.eq('id', id).eq('user_id', user)` selects. */
  predicate Owned(r: Row, id: string, user: string) {
    r.id == id && r.userId == user
  }

  function OwnedBy(user: string): Row -> bool {
    (r: Row) => r.userId == user
  }

  /** The GET query: the user's rows, newest first. */
  function UserTodos(rows: seq<Row>, user: string): (r: seq<Row>)
    ensures forall x :: x in r <==> x in rows && x.userId == user
    ensures Descending(r, (x: Row) => x.createdAt)
  {
    var mine := Filter(rows, OwnedBy(user));
    var r := SortDescending(mine, (x: Row) => x.createdAt);
    assert forall x :: x in r <==> x in multiset(mine);
    r
  }

  /** `GET()`: the caller's todos; an empty list without a user, on a
      database error, or when the handler throws. */
  function Get(user: Option<string>, rows: seq<Row>, dbError: bool, threw: bool): (r: Response)
    ensures r.Json? && r.status == 200 && r.body.TodoList?
    ensures user.None? || dbError || threw ==> r.body.todos == []
    ensures user.Some? && !dbError && !threw ==> r.body.todos == UserTodos(rows, user.value)
    ensures forall x :: x in r.body.todos ==> user.Some? && x.userId == user.value && x in rows
  {
    if threw || user.None? || dbError then Json(200, TodoList([]))
    else Json(200, TodoList(UserTodos(rows, user.value)))
  }

  /** The `updates` object: exactly the fields that are not undefined. */
  function BuildUpdates(title: Option<string>, completed: Option<bool>): (u: Updates)
    ensures u.title == title && u.completed == completed
  {
    var u := Updates(None, None);
    var u := if title.Some? then u.(title := title) else u;
    if completed.Some? then u.(completed := completed) else u
  }

  /** A row with the updates applied. */
  function Apply(r: Row, u: Updates): (r': Row)
    ensures r'.id == r.id && r'.userId == r.userId && r'.createdAt == r.createdAt
    ensures r'.title == (if u.title.Some? then u.title.value else r.title)
    ensures r'.completed == (if u.completed.Some? then u.completed.value else r.completed)
  {
    r.(title := if u.title.Some? then u.title.value else r.title,
       completed := if u.completed.Some? then u.completed.value else r.completed)
  }

  /** The table after the update query. */
  function UpdateRows(rows: seq<Row>, id: string, user: string, u: Updates): (r: seq<Row>)
    ensures |r| == |rows|
    ensures forall i :: 0 <= i < |rows| ==> r[i] == if Owned(rows[i], id, user) then Apply(rows[i], u) else rows[i]
  {
    seq(|rows|, i requires 0 <= i < |rows| => if Owned(rows[i], id, user) then Apply(rows[i], u) else rows[i])
  }

  /** The number of rows the query selects. */
  function Matches(rows: seq<Row>, id: string, user: string): nat {
    |Filter(rows, (r: Row) => Owned(r, id, user))|
  }

  /** An update of another user's row, or of another id, changes nothing:
      the update is confined to the caller's row. */
  lemma UpdateConfined(rows: seq<Row>, id: string, user: string, u: Updates, i: int)
    requires 0 <= i < |rows| && (rows[i].userId != user || rows[i].id != id)
    ensures UpdateRows(rows, id, user, u)[i] == rows[i]
  {
  }

  function Unowned(id: string, user: string): Row -> bool {
    (x: Row) => !Owned(x, id, user)
  }

  /** The table after the delete query. */
  function DeleteRows(rows: seq<Row>, id: string, user: string): (r: seq<Row>)
    ensures forall x :: x in r <==> x in rows && !Owned(x, id, user)
  {
    Filter(rows, Unowned(id, user))
  }

  /** A delete keeps every row of other users, in order. */
  lemma DeleteKeepsOthers(rows: seq<Row>, id: string, user: string, other: string)
    requires other != user
    ensures Filter(DeleteRows(rows, id, user), OwnedBy(other)) == Filter(rows, OwnedBy(other))
  {
    FilterThenFilterIs(rows, Unowned(id, user), OwnedBy(other), OwnedBy(other));
  }

  /** `POST(request)`: the untrimmed title of a non-blank title is stored in
      a new row of the caller, not completed. */
  method Post(user: Option<string>, request: PostRequest, table: Table, dbError: bool, newId: string, now: int)
    returns (response: Response)
    modifies table
    ensures user.None? ==> response == Redirect(LoginPath)
    ensures user.Some? && request.UnparsablePost? ==> response == Json(500, Error(CreateFailed))
    ensures user.Some? && request.PostBody? && !(request.title.Some? && Trim(request.title.value) != "") ==>
      response == Json(400, Error(TitleRequired))
    ensures user.Some? && request.PostBody? && request.title.Some? && Trim(request.title.value) != "" ==>
      if dbError then response == Json(500, Error(CreateFailed)) && table.rows == old(table.rows)
      else
        var row := Row(newId, request.title.value, false, user.value, now);
        response == Json(200, OneTodo(row)) && table.rows == old(table.rows) + [row]
    ensures !(response.Json? && response.body.OneTodo?) ==> table.rows == old(table.rows)
  {
    if user.None? {
      return Redirect(LoginPath);
    }
    if request.UnparsablePost? {
      return Json(500, Error(CreateFailed));
    }
    if !(request.title.Some? && Trim(request.title.value) != "") {
      return Json(400, Error(TitleRequired));
    }
    if dbError {
      return Json(500, Error(CreateFailed));
    }
    var row := Row(newId, request.title.value, false, user.value, now);
    table.rows := table.rows + [row];
    response := Json(200, OneTodo(row));
  }

  /** `PUT(request)`: the defined fields are written to the caller's row
      with that id; `.single()` fails unless exactly one row is selected,
      and a failed query changes nothing. */
  method Put(user: Option<string>, request: PutRequest, table: Table, dbError: bool)
    returns (response: Response)
    modifies table
    ensures user.None? ==> response == Redirect(LoginPath)
    ensures user.Some? && request.UnparsablePut? ==> response == Json(500, Error(UpdateFailed))
    ensures user.Some? && request.PutBody? && !Truthy(request.id) ==> response == Json(400, Error(IdRequired))
    ensures user.Some? && request.PutBody? && Truthy(request.id) ==>
      var u := BuildUpdates(request.title, request.completed);
      if dbError || Matches(old(table.rows), request.id.value, user.value) != 1 then
        response == Json(500, Error(UpdateFailed)) && table.rows == old(table.rows)
      else
        && table.rows == UpdateRows(old(table.rows), request.id.value, user.value, u)
        && response.Json? && response.body.OneTodo?
        && (exists x :: x in old(table.rows) && Owned(x, request.id.value, user.value) && response.body.todo == Apply(x, u))
        && response.body.todo in table.rows
    ensures !(response.Json? && response.body.OneTodo?) ==> table.rows == old(table.rows)
  {
    if user.None? {
      return Redirect(LoginPath);
    }
    if request.UnparsablePut? {
      return Json(500, Error(UpdateFailed));
    }
    if !Truthy(request.id) {
      return Json(400, Error(IdRequired));
    }
    var id := request.id.value;
    var u := BuildUpdates(request.title, request.completed);
    var selected := Filter(table.rows, (r: Row) => Owned(r, id, user.value));
    if dbError || |selected| != 1 {
      return Json(500, Error(UpdateFailed));
    }
    table.rows := UpdateRows(table.rows, id, user.value, u);
    var x := selected[0];
    assert x in old(table.rows) && Owned(x, id, user.value);
    ghost var i :| 0 <= i < |old(table.rows)| && old(table.rows)[i] == x;
    assert table.rows[i] == Apply(x, u);
    response := Json(200, OneTodo(Apply(selected[0], u)));
  }

  /** `DELETE(request)`: the caller's rows with the `id` query parameter are
      removed. */
  method Delete(user: Option<string>, id: Option<string>, table: Table, dbError: bool)
    returns (response: Response)
    modifies table
    ensures user.None? ==> response == Redirect(LoginPath)
    ensures user.Some? && !Truthy(id) ==> response == Json(400, Error(IdRequired))
    ensures user.Some? && Truthy(id) ==>
      if dbError then response == Json(500, Error(DeleteFailed)) && table.rows == old(table.rows)
      else response == Json(200, Success) && table.rows == DeleteRows(old(table.rows), id.value, user.value)
    ensures response != Json(200, Success) ==> table.rows == old(table.rows)
  {
    if user.None? {
      return Redirect(LoginPath);
    }
    if !Truthy(id) {
      return Json(400, Error(IdRequired));
    }
    if dbError {
      return Json(500, Error(DeleteFailed));
    }
    table.rows := DeleteRows(table.rows, id.value, user.value);
    response := Json(200, Success);
  }
}
