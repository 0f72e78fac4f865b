/**
 * The dashboard page: the task list it keeps, its error banner and loading
 * flag, and the create/edit form state, as changed by its handlers. Each
 * handler is given how its service call settled; the call itself is
 * returned so that it can be related to `TaskApi`.
 */
module Dashboard {
  import opened Wrappers
  import opened Text
  import opened Api
  import opened Auth
  import opened TaskApi

  const LoadError := "Failed to load tasks. Please try again."
  const CreateError := "Failed to create task. Please try again."
  const UpdateError := "Failed to update task. Please try again."
  const DeleteError := "Failed to delete task. Please try again."
  const ToggleError := "Failed to update task status. Please try again."

  /** The service call a handler makes. */
  datatype TaskCall =
    | ListTasks
    | CreateTask(title: string, description: Option<string>)
    | UpdateTask(taskId: string, data: TaskUpdate)
    | DeleteTask(taskId: string)
    | ToggleTask(taskId: string)

  // ---------------------------------------------------------------- list updates

  /** `tasks.map((t) => (t.id === updated.id ? updated : t))`. */
  function ReplaceById(tasks: seq<Task>, updated: Task): (r: seq<Task>)
    ensures |r| == |tasks|
    ensures forall i | 0 <= i < |tasks| :: r[i] == (if tasks[i].id == updated.id then updated else tasks[i])
    decreases |tasks|
  {
    if tasks == [] then []
    else [if tasks[0].id == updated.id then updated else tasks[0]] + ReplaceById(tasks[1..], updated)
  }

  /** `tasks.filter((t) => t.id !== taskId)`. */
  function RemoveById(tasks: seq<Task>, taskId: string): (r: seq<Task>)
    ensures |r| <= |tasks|
    ensures forall t :: t in r <==> t in tasks && t.id != taskId
    decreases |tasks|
  {
    if tasks == [] then []
    else if tasks[0].id == taskId then RemoveById(tasks[1..], taskId)
    else [tasks[0]] + RemoveById(tasks[1..], taskId)
  }

  /** Filtering distributes over concatenation, so the kept tasks stay in their order. */
  lemma {:induction false} RemoveKeepsOrder(a: seq<Task>, b: seq<Task>, taskId: string)
    ensures RemoveById(a + b, taskId) == RemoveById(a, taskId) + RemoveById(b, taskId)
    decreases |a|
  {
    if a != [] {
      assert (a + b)[1..] == a[1..] + b;
      RemoveKeepsOrder(a[1..], b, taskId);
    } else {
      assert a + b == b;
    }
  }

  /** Removing an id no task has changes nothing. */
  lemma {:induction false} RemoveAbsentIsIdentity(tasks: seq<Task>, taskId: string)
    requires forall i | 0 <= i < |tasks| :: tasks[i].id != taskId
    ensures RemoveById(tasks, taskId) == tasks
    decreases |tasks|
  {
    if tasks != [] {
      RemoveAbsentIsIdentity(tasks[1..], taskId);
      assert [tasks[0]] + tasks[1..] == tasks;
    }
  }

  /** Removing twice is removing once. */
  lemma RemoveIsIdempotent(tasks: seq<Task>, taskId: string)
    ensures RemoveById(RemoveById(tasks, taskId), taskId) == RemoveById(tasks, taskId)
  {
    var r := RemoveById(tasks, taskId);
    forall i | 0 <= i < |r| ensures r[i].id != taskId {
      assert r[i] in r;
    }
    RemoveAbsentIsIdentity(r, taskId);
  }

  /** Replacing twice with the same task is replacing once. */
  lemma ReplaceIsIdempotent(tasks: seq<Task>, updated: Task)
    ensures ReplaceById(ReplaceById(tasks, updated), updated) == ReplaceById(tasks, updated)
  {
  }

  /** Replacing keeps every position's id, so the list's ids and their order are unchanged. */
  lemma ReplaceKeepsIds(tasks: seq<Task>, updated: Task)
    ensures forall i | 0 <= i < |tasks| :: ReplaceById(tasks, updated)[i].id == tasks[i].id
  {
  }

  /** `trimmed || undefined` for the optional description fields. */
  function NonEmpty(s: string): (r: Option<string>)
    ensures r.Some? <==> s != ""
    ensures r.Some? ==> r.value == s
  {
    if s == "" then None else Some(s)
  }

  /**
   * The call `handleCreateTask` makes for the form's contents: none without a
   * user or with a blank title; otherwise the trimmed title and the trimmed
   * description, left out when empty.
   */
  function CreateCall(user: Option<User>, title: string, description: string): (c: Option<TaskCall>)
    ensures c.None? <==> user.None? || Trim(title) == ""
    ensures c.Some? ==> c.value == CreateTask(Trim(title), NonEmpty(Trim(description)))
  {
    var trimmed := Trim(title);
    if user.None? || trimmed == "" then None else Some(CreateTask(trimmed, NonEmpty(Trim(description))))
  }

  /** The update `handleUpdateTask` sends for the task being edited: all three fields, an empty description left out. */
  function EditedUpdate(t: Task): TaskUpdate {
    TaskUpdate(Some(t.title), if t.description.Some? then NonEmpty(t.description.value) else None, Some(t.status))
  }

  // ---------------------------------------------------------------- the page

  class DashboardPage {
    var tasks: seq<Task>
    var loading: bool
    var error: Option<string>
    var showCreateModal: bool
    var showEditModal: bool
    var editingTask: Option<Task>
    var newTaskTitle: string
    var newTaskDescription: string

    /** The state before the first load: no tasks, loading, nothing being edited. */
    constructor ()
      ensures tasks == [] && loading && error == None
      ensures !showCreateModal && !showEditModal && editingTask == None
      ensures newTaskTitle == "" && newTaskDescription == ""
    {
      tasks := [];
      loading := true;
      error := None;
      showCreateModal := false;
      showEditModal := false;
      editingTask := None;
      newTaskTitle := "";
      newTaskDescription := "";
    }

    /** `loadTasks`: without a user nothing happens (not even the loading flag). */
    method LoadTasks(user: Option<User>, outcome: Result<seq<Task>, Thrown>) returns (call: Option<TaskCall>)
      modifies this
      ensures user.None? ==> call == None && tasks == old(tasks) && error == old(error) && loading == old(loading)
      ensures user.Some? ==> call == Some(ListTasks) && !loading
      ensures user.Some? && outcome.Ok? ==> tasks == outcome.value && error == None
      ensures user.Some? && outcome.Err? ==> tasks == old(tasks) && error == Some(LoadError)
      ensures showCreateModal == old(showCreateModal) && showEditModal == old(showEditModal)
      ensures editingTask == old(editingTask)
      ensures newTaskTitle == old(newTaskTitle) && newTaskDescription == old(newTaskDescription)
    {
      if user.None? {
        return None;
      }
      loading := true;
      call := Some(ListTasks);
      match outcome {
        case Ok(loaded) =>
          tasks := loaded;
          error := None;
        case Err(_) =>
          error := Some(LoadError);
      }
      loading := false;
    }

    /**
     * `handleCreateTask`: ignored without a user or with a blank title; sends the
     * trimmed title and the trimmed description (left out when empty); a created
     * task goes in front and the form closes.
     */
    method HandleCreateTask(user: Option<User>, outcome: Result<Task, Thrown>) returns (call: Option<TaskCall>)
      modifies this
      ensures call == CreateCall(user, old(newTaskTitle), old(newTaskDescription))
      ensures call.None? ==> unchanged(this)
      ensures call.Some? && outcome.Ok? ==>
                && tasks == [outcome.value] + old(tasks) && error == old(error)
                && newTaskTitle == "" && newTaskDescription == "" && !showCreateModal
      ensures call.Some? && outcome.Err? ==>
                && tasks == old(tasks) && error == Some(CreateError)
                && newTaskTitle == old(newTaskTitle) && newTaskDescription == old(newTaskDescription)
                && showCreateModal == old(showCreateModal)
      ensures loading == old(loading) && showEditModal == old(showEditModal) && editingTask == old(editingTask)
    {
      call := CreateCall(user, newTaskTitle, newTaskDescription);
      if call.None? {
        return;
      }
      SettleCreate(outcome);
    }

    /** The second half of `handleCreateTask`, once `createTask` has settled. */
    method SettleCreate(outcome: Result<Task, Thrown>)
      modifies this
      ensures outcome.Ok? ==>
                && tasks == [outcome.value] + old(tasks) && error == old(error)
                && newTaskTitle == "" && newTaskDescription == "" && !showCreateModal
      ensures outcome.Err? ==>
                && tasks == old(tasks) && error == Some(CreateError)
                && newTaskTitle == old(newTaskTitle) && newTaskDescription == old(newTaskDescription)
                && showCreateModal == old(showCreateModal)
      ensures loading == old(loading) && showEditModal == old(showEditModal) && editingTask == old(editingTask)
    {
      match outcome {
        case Ok(created) =>
          tasks := [created] + tasks;
          newTaskTitle := "";
          newTaskDescription := "";
          showCreateModal := false;
        case Err(_) =>
          error := Some(CreateError);
      }
    }

    /** `handleEditTask`: opens the edit form on a copy of the task. */
    method HandleEditTask(task: Task)
      modifies this
      ensures editingTask == Some(task) && showEditModal
      ensures tasks == old(tasks) && error == old(error) && loading == old(loading)
      ensures showCreateModal == old(showCreateModal)
      ensures newTaskTitle == old(newTaskTitle) && newTaskDescription == old(newTaskDescription)
    {
      editingTask := Some(task);
      showEditModal := true;
    }

    /**
     * `handleUpdateTask`: ignored when nothing is being edited or there is no
     * user; the returned task replaces every task with its id and the form closes.
     */
    method HandleUpdateTask(user: Option<User>, outcome: Result<Task, Thrown>) returns (call: Option<TaskCall>)
      modifies this
      ensures old(editingTask).None? || user.None? ==> call == None && unchanged(this)
      ensures old(editingTask).Some? && user.Some? ==>
                call == Some(UpdateTask(old(editingTask).value.id, EditedUpdate(old(editingTask).value)))
      ensures call.Some? && outcome.Ok? ==>
                tasks == ReplaceById(old(tasks), outcome.value) && editingTask == None && !showEditModal && error == old(error)
      ensures call.Some? && outcome.Err? ==>
                tasks == old(tasks) && error == Some(UpdateError) && editingTask == old(editingTask) && showEditModal == old(showEditModal)
      ensures loading == old(loading) && showCreateModal == old(showCreateModal)
      ensures newTaskTitle == old(newTaskTitle) && newTaskDescription == old(newTaskDescription)
    {
      if editingTask.None? || user.None? {
        return None;
      }
      call := Some(UpdateTask(editingTask.value.id, EditedUpdate(editingTask.value)));
      match outcome {
        case Ok(updated) =>
          tasks := ReplaceById(tasks, updated);
          editingTask := None;
          showEditModal := false;
        case Err(_) =>
          error := Some(UpdateError);
      }
    }

    /**
     * `handleDeleteTask`: ignored without a user or when the confirmation is
     * declined (the dialog is only shown when there is a user); a deletion
     * removes every task with that id.
     */
    method HandleDeleteTask(user: Option<User>, taskId: string, confirmed: bool, outcome: Result<(), Thrown>)
      returns (call: Option<TaskCall>)
      modifies this
      ensures user.None? || !confirmed ==> call == None && unchanged(this)
      ensures user.Some? && confirmed ==> call == Some(DeleteTask(taskId))
      ensures call.Some? && outcome.Ok? ==> tasks == RemoveById(old(tasks), taskId) && error == old(error)
      ensures call.Some? && outcome.Err? ==> tasks == old(tasks) && error == Some(DeleteError)
      ensures loading == old(loading) && showCreateModal == old(showCreateModal)
      ensures showEditModal == old(showEditModal) && editingTask == old(editingTask)
      ensures newTaskTitle == old(newTaskTitle) && newTaskDescription == old(newTaskDescription)
    {
      if user.None? || !confirmed {
        return None;
      }
      call := Some(DeleteTask(taskId));
      match outcome {
        case Ok(_) =>
          tasks := RemoveById(tasks, taskId);
        case Err(_) =>
          error := Some(DeleteError);
      }
    }

    /** `handleToggleCompletion`: the returned task replaces every task with its id. */
    method HandleToggleCompletion(user: Option<User>, task: Task, outcome: Result<Task, Thrown>)
      returns (call: Option<TaskCall>)
      modifies this
      ensures user.None? ==> call == None && unchanged(this)
      ensures user.Some? ==> call == Some(ToggleTask(task.id))
      ensures call.Some? && outcome.Ok? ==> tasks == ReplaceById(old(tasks), outcome.value) && error == old(error)
      ensures call.Some? && outcome.Err? ==> tasks == old(tasks) && error == Some(ToggleError)
      ensures loading == old(loading) && showCreateModal == old(showCreateModal)
      ensures showEditModal == old(showEditModal) && editingTask == old(editingTask)
      ensures newTaskTitle == old(newTaskTitle) && newTaskDescription == old(newTaskDescription)
    {
      if user.None? {
        return None;
      }
      call := Some(ToggleTask(task.id));
      match outcome {
        case Ok(updated) =>
          tasks := ReplaceById(tasks, updated);
        case Err(_) =>
          error := Some(ToggleError);
      }
    }
  }
}
