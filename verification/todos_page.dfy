/** The todo list page (with-supabase-app/app/protected/todos/page.tsx):
    the list shown under the selected filter, the per-filter counts, and
    the handlers that replace the list after each request to the todo
    API. Each request's outcome is a parameter: the todo the server answers
    with, or a failure. */
module TodosPage {
  import opened Text
  import opened Collections

  /** A todo as the page holds it; the dates are milliseconds. */
  datatype Todo = Todo(id: string, title: string, completed: bool, createdAt: int, updatedAt: int)

  datatype TodoFilter = AllTodos | Active | Completed

  /** The outcome of a request that answers with a todo. */
  datatype Answer = Answered(todo: Todo) | Failed

  /** The body of a PUT request the page sends. */
  datatype PutBody = PutBody(id: string, title: Option<string>, completed: Option<bool>)

  datatype Counts = Counts(all: nat, active: nat, completed: nat)

  const LoadFailed: string := "加载任务失败"
  const AddFailed: string := "添加任务失败"
  const ToggleFailed: string := "更新任务状态失败"
  const DeleteFailed: string := "删除任务失败"
  const EditFailed: string := "更新任务失败"

  function Shows(filter: TodoFilter): Todo -> bool {
    (t: Todo) => match filter
         case Active => !t.completed
         case Completed => t.completed
         case AllTodos => true
  }

  function IsActive(): Todo -> bool {
    (t: Todo) => !t.completed
  }

  function IsCompleted(): Todo -> bool {
    (t: Todo) => t.completed
  }

  /** `filteredTodos` */
  function FilteredTodos(todos: seq<Todo>, filter: TodoFilter): (r: seq<Todo>)
    ensures filter == AllTodos ==> r == todos
    ensures forall t :: t in r <==> t in todos && match filter
                                                  case AllTodos => true
                                                  case Active => !t.completed
                                                  case Completed => t.completed
  {
    if filter == AllTodos then
      FilterKeepsAll(todos, Shows(filter));
      Filter(todos, Shows(filter))
    else Filter(todos, Shows(filter))
  }

  /** `counts` */
  function CountsOf(todos: seq<Todo>): (c: Counts)
    ensures c.all == |todos|
    ensures c.active == |FilteredTodos(todos, Active)| && c.completed == |FilteredTodos(todos, Completed)|
  {
    FilterSame(todos, IsActive(), Shows(Active));
    FilterSame(todos, IsCompleted(), Shows(Completed));
    Counts(|todos|, |Filter(todos, IsActive())|, |Filter(todos, IsCompleted())|)
  }

  /** Every todo is either active or completed: the counts add up. */
  lemma CountsAddUp(todos: seq<Todo>)
    ensures CountsOf(todos).all == CountsOf(todos).active + CountsOf(todos).completed
  {
    FilterComplement(todos, IsCompleted(), IsActive());
  }

  /** `todos.find(t => t.id === id)`: the first todo with the id. */
  function Find(todos: seq<Todo>, id: string): (r: Option<Todo>)
    ensures r.None? <==> forall i :: 0 <= i < |todos| ==> todos[i].id != id
    ensures r.Some? ==> r.value.id == id && r.value in todos
    ensures r.Some? ==>
      exists k :: (0 <= k < |todos| && todos[k] == r.value && forall j :: 0 <= j < k ==> todos[j].id != id)
    decreases |todos|
  {
    if todos == [] then None
    else if todos[0].id == id then Some(todos[0])
    else
      var r := Find(todos[1..], id);
      if r.Some? then
        var k :| 0 <= k < |todos[1..]| && todos[1..][k] == r.value
          && forall j :: 0 <= j < k ==> todos[1..][j].id != id;
        assert todos[k + 1] == r.value;
        r
      else r
  }

  /** `todos.map(t => t.id === id ? todo : t)` */
  function ReplaceById(todos: seq<Todo>, id: string, todo: Todo): (r: seq<Todo>)
    ensures |r| == |todos|
    ensures forall i :: 0 <= i < |todos| ==> r[i] == if todos[i].id == id then todo else todos[i]
  {
    seq(|todos|, i requires 0 <= i < |todos| => if todos[i].id == id then todo else todos[i])
  }

  /** Replacing with a todo of the same id leaves every other todo where it
      was, and the todo with that id is found again as the replacement. */
  lemma ReplaceFound(todos: seq<Todo>, id: string, todo: Todo)
    requires todo.id == id && Find(todos, id).Some?
    ensures Find(ReplaceById(todos, id, todo), id) == Some(todo)
    ensures forall t :: t in todos && t.id != id ==> t in ReplaceById(todos, id, todo)
  {
    var r := ReplaceById(todos, id, todo);
    var k :| 0 <= k < |todos| && todos[k].id == id;
    assert r[k] == todo;
    FindFirst(r, id, todo);
    forall t | t in todos && t.id != id
      ensures t in r
    {
      var j :| 0 <= j < |todos| && todos[j] == t;
      assert r[j] == t;
    }
  }

  /** When every todo with the id is `todo`, `find` returns it. */
  lemma {:induction false} FindFirst(todos: seq<Todo>, id: string, todo: Todo)
    requires forall i :: 0 <= i < |todos| && todos[i].id == id ==> todos[i] == todo
    requires exists i :: 0 <= i < |todos| && todos[i].id == id
    ensures Find(todos, id) == Some(todo)
    decreases |todos|
  {
    if todos[0].id != id {
      var i :| 0 <= i < |todos| && todos[i].id == id;
      assert todos[1..][i - 1] == todos[i];
      FindFirst(todos[1..], id, todo);
    }
  }

  function Unlike(id: string): Todo -> bool {
    (t: Todo) => t.id != id
  }

  /** `todos.filter(todo => todo.id !== id)` */
  function RemoveById(todos: seq<Todo>, id: string): (r: seq<Todo>)
    ensures forall t :: t in r <==> t in todos && t.id != id
    ensures Find(r, id).None?
  {
    Filter(todos, Unlike(id))
  }

  /** Removing an id that is not there changes nothing. */
  lemma RemoveAbsent(todos: seq<Todo>, id: string)
    requires Find(todos, id).None?
    ensures RemoveById(todos, id) == todos
  {
    forall t | t in todos
      ensures Unlike(id)(t)
    {
      var j :| 0 <= j < |todos| && todos[j] == t;
    }
    FilterKeepsAll(todos, Unlike(id));
  }

  class Page {
    var todos: seq<Todo>
    var filter: TodoFilter
    var loading: bool
    var error: Option<string>

    constructor ()
      ensures todos == [] && filter == AllTodos && loading && error.None?
    {
      todos := [];
      filter := AllTodos;
      loading := true;
      error := None;
    }

    /** `fetchTodos()`: the list the server answers with, or an error. */
    method FetchTodos(answer: Option<seq<Todo>>)
      modifies this
      ensures answer.Some? ==> todos == answer.value && error.None?
      ensures answer.None? ==> todos == old(todos) && error == Some(LoadFailed)
      ensures !loading && filter == old(filter)
    {
      if answer.Some? {
        todos := answer.value;
        error := None;
      } else {
        error := Some(LoadFailed);
      }
      loading := false;
    }

    /** `addTodo(title)`: the server's todo goes first. */
    method AddTodo(title: string, answer: Answer) returns (request: string)
      modifies this
      ensures request == title
      ensures answer.Answered? ==> todos == [answer.todo] + old(todos) && error.None?
      ensures answer.Failed? ==> todos == old(todos) && error == Some(AddFailed)
      ensures filter == old(filter) && loading == old(loading)
    {
      request := title;
      if answer.Answered? {
        todos := [answer.todo] + todos;
        error := None;
      } else {
        error := Some(AddFailed);
      }
    }

    /** `toggleTodo(id)`: nothing for an unknown id; otherwise the negated
        completion is requested and the answer replaces the todo. */
    method ToggleTodo(id: string, answer: Answer) returns (request: Option<PutBody>)
      modifies this
      ensures Find(old(todos), id).None? ==> request.None? && todos == old(todos) && error == old(error)
      ensures Find(old(todos), id).Some? ==>
        && request == Some(PutBody(id, None, Some(!Find(old(todos), id).value.completed)))
        && (answer.Answered? ==> todos == ReplaceById(old(todos), id, answer.todo) && error.None?)
        && (answer.Failed? ==> todos == old(todos) && error == Some(ToggleFailed))
      ensures filter == old(filter) && loading == old(loading)
    {
      var todo := Find(todos, id);
      if todo.None? {
        return None;
      }
      request := Some(PutBody(id, None, Some(!todo.value.completed)));
      if answer.Answered? {
        todos := ReplaceById(todos, id, answer.todo);
        error := None;
      } else {
        error := Some(ToggleFailed);
      }
    }

    /** `deleteTodo(id)`: on success every todo with the id is dropped and
        the rest keep their order. */
    method DeleteTodo(id: string, succeeded: bool) returns (request: string)
      modifies this
      ensures request == id
      ensures succeeded ==> todos == RemoveById(old(todos), id) && error.None?
      ensures !succeeded ==> todos == old(todos) && error == Some(DeleteFailed)
      ensures filter == old(filter) && loading == old(loading)
    {
      request := id;
      if succeeded {
        todos := RemoveById(todos, id);
        error := None;
      } else {
        error := Some(DeleteFailed);
      }
    }

    /** `editTodo(id, newTitle)`: the new title is requested as given and
        the answer replaces the todo. */
    method EditTodo(id: string, newTitle: string, answer: Answer) returns (request: PutBody)
      modifies this
      ensures request == PutBody(id, Some(newTitle), None)
      ensures answer.Answered? ==> todos == ReplaceById(old(todos), id, answer.todo) && error.None?
      ensures answer.Failed? ==> todos == old(todos) && error == Some(EditFailed)
      ensures filter == old(filter) && loading == old(loading)
    {
      request := PutBody(id, Some(newTitle), None);
      if answer.Answered? {
        todos := ReplaceById(todos, id, answer.todo);
        error := None;
      } else {
        error := Some(EditFailed);
      }
    }
  }
}
