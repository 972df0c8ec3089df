/**
 * The state of the `App` component: the session token, the task collection
 * and the two filter selections, with one method per handler. Every server
 * reply is a parameter and every request the handler would send is returned
 * as a `Call` value, so each handler is one atomic step on the current state.
 */
module AppState {
  import opened JsValues
  import opened TaskList

  /** The browser's durable storage, reduced to its one "token" entry. */
  class Storage {
    var token: Option<string>

    constructor (initial: Option<string>)
      ensures token == initial
    {
      token := initial;
    }

    /** `localStorage.setItem("token", value)` */
    method SetItem(value: string)
      modifies this
      ensures token == Some(value)
    {
      token := Some(value);
    }

    /** `localStorage.removeItem("token")` */
    method RemoveItem()
      modifies this
      ensures token == None
    {
      token := None;
    }
  }

  /** A request the client sends to the task service; `bearer` is the token
      placed in the `Authorization` header. */
  datatype Call =
    | ListTasks(bearer: string)
    | CreateTask(bearer: string, text: string, status: string, priority: string)
    | RemoveTask(bearer: string, id: string)
    | SetStatus(bearer: string, id: string, status: string)
    | SetPriority(bearer: string, id: string, priority: string)

  /** The token the client starts with: the stored one, or "" when there is none. */
  function InitialToken(stored: Option<string>): (r: string)
    ensures r == (if stored.Some? then stored.value else "")
    ensures r != "" <==> Truthy(stored)
  {
    OrEmptyIsDefault(stored);
    Or(stored, "")
  }

  /** The task list is fetched only for a truthy (non-empty) token. */
  predicate ShouldLoad(token: string) {
    token != ""
  }

  class App {
    var token: string
    var tasks: seq<Task>
    var filterStatus: string
    var filterPriority: string
    const storage: Storage

    /** Mounting the component: the token is read from storage, nothing is loaded yet. */
    constructor (storage: Storage)
      ensures this.storage == storage
      ensures token == InitialToken(storage.token)
      ensures tasks == [] && filterStatus == All && filterPriority == All
    {
      this.storage := storage;
      token := InitialToken(storage.token);
      tasks := [];
      filterStatus := All;
      filterPriority := All;
    }

    /** The list the page renders. */
    function FilteredTasks(): (r: seq<Task>)
      reads this
      ensures IsSubsequence(r, tasks)
      ensures forall t :: t in r <==> t in tasks && Shown(t, filterStatus, filterPriority)
      ensures forall t :: multiset(r)[t] == if Shown(t, filterStatus, filterPriority) then multiset(tasks)[t] else 0
      ensures filterStatus == All && filterPriority == All ==> r == tasks
    {
      VisibleAllIsEverything(tasks);
      Visible(tasks, filterStatus, filterPriority)
    }

    /** The `setToken` setter handed to the login page. */
    method SetToken(value: string)
      modifies this`token
      ensures token == value
    {
      token := value;
    }

    /** `fetchTasks(token)`: ask for the list and take the normalised reply
        as the new collection. A `null` body makes the handler throw before
        it sets anything. */
    method FetchTasks(bearer: string, reply: ListReply) returns (call: Call, loaded: bool)
      modifies this`tasks
      ensures call == ListTasks(bearer)
      ensures loaded <==> !reply.NullReply?
      ensures loaded ==> tasks == Normalize(reply).value
      ensures !loaded ==> tasks == old(tasks)
    {
      call := ListTasks(bearer);
      var normalized := Normalize(reply);
      loaded := normalized.Some?;
      if loaded {
        tasks := normalized.value;
      }
    }

    /** The effect that runs when the token changes: fetch only with a
        non-empty token. */
    method OnTokenChange(reply: ListReply) returns (call: Option<Call>)
      modifies this`tasks
      ensures call.Some? <==> ShouldLoad(token)
      ensures call.Some? ==> call.value == ListTasks(token)
      ensures !ShouldLoad(token) || reply.NullReply? ==> tasks == old(tasks)
      ensures ShouldLoad(token) && !reply.NullReply? ==> tasks == Normalize(reply).value
    {
      if ShouldLoad(token) {
        var c, _ := FetchTasks(token, reply);
        call := Some(c);
      } else {
        call := None;
      }
    }

    /** `logout`: forget the token, in memory and in storage, and drop the tasks. */
    method Logout()
      modifies this`token, this`tasks, storage
      ensures token == "" && storage.token == None && tasks == []
    {
      token := "";
      storage.RemoveItem();
      tasks := [];
    }

    /** `addTask(text)`: create a pending, medium-priority task and append
        the task the server returns. */
    method AddTask(text: string, reply: Task) returns (call: Call)
      modifies this`tasks
      ensures call == CreateTask(token, text, Pending, Medium)
      ensures |tasks| == |old(tasks)| + 1
      ensures tasks[..|old(tasks)|] == old(tasks) && tasks[|old(tasks)|] == reply
    {
      call := CreateTask(token, text, Pending, Medium);
      tasks := tasks + [reply];
    }

    /** `deleteTask(id)`: drop every task with that `_id`. */
    method DeleteTask(id: string) returns (call: Call)
      modifies this`tasks
      ensures call == RemoveTask(token, id)
      ensures tasks == Without(old(tasks), id)
    {
      call := RemoveTask(token, id);
      tasks := Without(tasks, id);
    }

    /** `updateTaskStatus(id, currentStatus)`: ask for the toggled status and
        put the task the server returns in place of every task with that `_id`. */
    method UpdateTaskStatus(id: string, currentStatus: string, reply: Task) returns (call: Call)
      modifies this`tasks
      ensures call == SetStatus(token, id, Toggle(currentStatus))
      ensures tasks == ReplaceById(old(tasks), id, reply)
    {
      call := SetStatus(token, id, Toggle(currentStatus));
      tasks := ReplaceById(tasks, id, reply);
    }

    /** `updateTaskPriority(id, newPriority)`: ask for the new priority and
        put the returned task in place of every task with that `_id`. */
    method UpdateTaskPriority(id: string, newPriority: string, reply: Task) returns (call: Call)
      modifies this`tasks
      ensures call == SetPriority(token, id, newPriority)
      ensures tasks == ReplaceById(old(tasks), id, reply)
    {
      call := SetPriority(token, id, newPriority);
      tasks := ReplaceById(tasks, id, reply);
    }

    /** The status selection's `onChange`. */
    method SetFilterStatus(value: string)
      modifies this`filterStatus
      ensures filterStatus == value
    {
      filterStatus := value;
    }

    /** The priority selection's `onChange`. */
    method SetFilterPriority(value: string)
      modifies this`filterPriority
      ensures filterPriority == value
    {
      filterPriority := value;
    }
  }
}
