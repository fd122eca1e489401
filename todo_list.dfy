/** The applyflow todo list component: the list it shows, the new-todo
    field and form toggle, and the requests it sends. The outcome of every
    request is an input: `None` stands for a response that is not ok or a
    network error. */
module TodoListView {
  import opened Base
  import opened TodosRoute

  /** A request the component sends. */
  datatype TodoCall =
    | Create(body: TodoRequest)
    | SetCompleted(id: string, completed: bool)
    | Remove(id: string)

  /** The todos shown for the `applicationId` prop: all of them without one,
      otherwise exactly those of that application, in server order. */
  function ForApplication(todos: seq<ApiTodo>, applicationId: Option<string>): (r: seq<ApiTodo>)
    ensures !Truthy(applicationId) ==> r == todos
    ensures Truthy(applicationId) ==> forall t :: t in r <==> t in todos && t.applicationId == applicationId
    ensures |r| <= |todos|
  {
    if Truthy(applicationId) then Filter(todos, (t: ApiTodo) => t.applicationId == applicationId) else todos
  }

  /** `todos.map(todo => todo.id === todoId ? updatedTodo : todo)`. */
  function ReplaceById(todos: seq<ApiTodo>, id: string, updated: ApiTodo): (r: seq<ApiTodo>)
    ensures |r| == |todos|
    ensures forall i :: 0 <= i < |todos| && todos[i].id == id ==> r[i] == updated
    ensures forall i :: 0 <= i < |todos| && todos[i].id != id ==> r[i] == todos[i]
  {
    seq(|todos|, i requires 0 <= i < |todos| => if todos[i].id == id then updated else todos[i])
  }

  /** Replacing by the server copy of the same todo keeps every position's
      id, and replacing an id that is not listed changes nothing. */
  lemma ReplaceKeepsIds(todos: seq<ApiTodo>, id: string, updated: ApiTodo)
    ensures updated.id == id ==> forall i :: 0 <= i < |todos| ==> ReplaceById(todos, id, updated)[i].id == todos[i].id
    ensures (forall t :: t in todos ==> t.id != id) ==> ReplaceById(todos, id, updated) == todos
  {
  }

  /** `todos.filter(todo => todo.id !== todoId)`. */
  function RemoveById(todos: seq<ApiTodo>, id: string): (r: seq<ApiTodo>)
    ensures forall t :: t in r <==> t in todos && t.id != id
  {
    Filter(todos, (t: ApiTodo) => t.id != id)
  }

  /** Removing drops exactly the todos with that id, keeps the others in
      their order, and a second removal changes nothing. */
  lemma RemoveByIdCount(todos: seq<ApiTodo>, id: string)
    ensures |RemoveById(todos, id)| == |todos| - |Filter(todos, (t: ApiTodo) => t.id == id)|
    ensures RemoveById(RemoveById(todos, id), id) == RemoveById(todos, id)
  {
    FilterComplement(todos, (t: ApiTodo) => t.id != id, (t: ApiTodo) => t.id == id);
    FilterTwice(todos, (t: ApiTodo) => t.id != id);
  }

  /** The create request for a title: the title untrimmed, the prop as the
      application, priority 'medium'. */
  function CreateRequest(title: string, applicationId: Option<string>): (r: TodoRequest)
    ensures r.title == Some(title) && r.applicationId == applicationId && r.priority == Some("medium")
    ensures r.description.None? && r.dueDate.None?
  {
    TodoRequest(Some(title), applicationId, None, Some("medium"), None)
  }

  class TodoList {
    const applicationId: Option<string>
    var todos: seq<ApiTodo>
    var isLoading: bool
    var newTodoTitle: string
    var showForm: bool
    var sent: seq<TodoCall>

    constructor (applicationId: Option<string>)
      ensures this.applicationId == applicationId
      ensures todos == [] && isLoading && newTodoTitle == "" && !showForm && sent == []
    {
      this.applicationId := applicationId;
      todos := [];
      isLoading := true;
      newTodoTitle := "";
      showForm := false;
      sent := [];
    }

    /** `loadTodos`: on success show the todos for the prop; loading ends
        either way. */
    method LoadTodos(response: Option<seq<ApiTodo>>)
      modifies this`todos, this`isLoading
      ensures !isLoading
      ensures response.Some? ==> todos == ForApplication(response.value, applicationId)
      ensures response.None? ==> todos == old(todos)
    {
      if response.Some? {
        todos := ForApplication(response.value, applicationId);
      }
      isLoading := false;
    }

    /** `toggleTodo`: on success the server copy replaces the todo with that
        id; on failure the list stays. */
    method ToggleTodo(todoId: string, completed: bool, response: Option<ApiTodo>)
      modifies this`todos, this`sent
      ensures sent == old(sent) + [SetCompleted(todoId, completed)]
      ensures response.Some? ==> todos == ReplaceById(old(todos), todoId, response.value)
      ensures response.None? ==> todos == old(todos)
    {
      sent := sent + [SetCompleted(todoId, completed)];
      if response.Some? {
        todos := ReplaceById(todos, todoId, response.value);
      }
    }

    /** `deleteTodo`. */
    method DeleteTodo(todoId: string, ok: bool)
      modifies this`todos, this`sent
      ensures sent == old(sent) + [Remove(todoId)]
      ensures ok ==> todos == RemoveById(old(todos), todoId)
      ensures !ok ==> todos == old(todos)
    {
      sent := sent + [Remove(todoId)];
      if ok {
        todos := RemoveById(todos, todoId);
      }
    }

    /** `addTodo`: a blank title sends nothing; a created todo goes first,
        the title is cleared and the form hidden; a failure changes nothing
        else. */
    method AddTodo(response: Option<ApiTodo>)
      modifies this`todos, this`newTodoTitle, this`showForm, this`sent
      ensures IsBlank(old(newTodoTitle)) ==>
        todos == old(todos) && newTodoTitle == old(newTodoTitle) && showForm == old(showForm) && sent == old(sent)
      ensures !IsBlank(old(newTodoTitle)) ==> sent == old(sent) + [Create(CreateRequest(old(newTodoTitle), applicationId))]
      ensures !IsBlank(old(newTodoTitle)) && response.Some? ==>
        todos == [response.value] + old(todos) && newTodoTitle == "" && !showForm
      ensures !IsBlank(old(newTodoTitle)) && response.None? ==>
        todos == old(todos) && newTodoTitle == old(newTodoTitle) && showForm == old(showForm)
    {
      if IsBlank(newTodoTitle) {
        return;
      }
      sent := sent + [Create(CreateRequest(newTodoTitle, applicationId))];
      if response.Some? {
        todos := [response.value] + todos;
        newTodoTitle := "";
        showForm := false;
      }
    }

    /** The plus button. */
    method ToggleForm()
      modifies this`showForm
      ensures showForm == !old(showForm)
    {
      showForm := !showForm;
    }
  }

  /** A title the list sends passes the route's title check. */
  lemma SentTitleAccepted(title: string, applicationId: Option<string>)
    requires !IsBlank(title)
    ensures Truthy(CreateRequest(title, applicationId).title)
  {
  }
}
