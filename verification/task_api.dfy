/**
 * The task service: the requests it sends for listing, creating, updating,
 * deleting and completing tasks, and how it reads the answers. Every call
 * goes through `Api.ApiRequest`, so a 401 ends the session as there.
 */
module TaskApi {
  import opened Wrappers
  import opened Json
  import opened Globals
  import opened Api

  datatype Status = Pending | Completed

  /** A task as the backend describes it. */
  datatype Task = Task(
    id: string,
    title: string,
    description: Option<string>,
    status: Status,
    createdAt: string,
    updatedAt: string,
    userId: string)

  /** `UpdateTaskRequest`: each field may be left out. */
  datatype TaskUpdate = TaskUpdate(title: Option<string>, description: Option<string>, status: Option<Status>)

  const TodosPath := "/api/todos"
  const NotFoundMessage := "Task not found"

  function TaskPath(taskId: string): string { TodosPath + "/" + taskId }

  function CompletePath(taskId: string): string { TaskPath(taskId) + "/complete" }

  /** What `await apiX(...)` gives: the parsed body, `undefined` after a 204, or the rejection. */
  function Awaited(r: FetchResult): (a: Result<Option<Json>, Thrown>)
    ensures a.Err? <==> r.Failed?
    ensures a.Err? ==> a.error == r.thrown
    ensures a == Ok(None) <==> r.NoContent?
    ensures r.Data? ==> a == Ok(Some(r.value))
  {
    match r
    case Data(v) => Ok(Some(v))
    case NoContent => Ok(None)
    case Failed(t) => Err(t)
  }

  // ---------------------------------------------------------------- listing

  /**
   * `response.todos || []`: reading `todos` of `undefined` or `null` throws; a
   * missing or falsy `todos` gives the empty list; anything else is passed on.
   */
  function TodosOrEmpty(a: Result<Option<Json>, Thrown>): (r: Result<Json, Thrown>)
    ensures a.Err? ==> r == Err(a.error)
    ensures a == Ok(None) || a == Ok(Some(JNull)) ==> r == Err(TypeError)
    ensures a.Ok? && a.value.Some? && !a.value.value.JNull? ==>
              && r.Ok?
              && (Truthy(Prop(a.value.value, "todos")) ==> r.value == Prop(a.value.value, "todos").value)
              && (!Truthy(Prop(a.value.value, "todos")) ==> r.value == JArr([]))
  {
    match a
    case Err(t) => Err(t)
    case Ok(None) => Err(TypeError)
    case Ok(Some(JNull)) => Err(TypeError)
    case Ok(Some(v)) =>
      var todos := Or(Prop(v, "todos"), Some(JArr([])));
      Ok(todos.value)
  }

  /** `getUserTasks`: the user id is not sent; the backend takes the user from the token. */
  method GetUserTasks(b: Browser, userId: Option<Json>, response: Response)
    returns (request: Request, tasks: Result<Json, Thrown>)
    modifies b`storage, b`location
    ensures request == Request(Get, TodosPath, Headers(old(GetToken(b))), None)
    ensures tasks == TodosOrEmpty(Awaited(Classify(response)))
    ensures SessionAfter(b, response)
  {
    var result;
    request, result := ApiRequest(b, Get, TodosPath, None, response);
    tasks := TodosOrEmpty(Awaited(result));
  }

  // ---------------------------------------------------------------- creating and updating

  /**
   * The JSON text `createTask` sends: title, `completed: false`, and the
   * description only when there is one (serialisation drops `undefined`).
   */
  function CreateBody(title: string, description: Option<string>): (body: map<string, Json>)
    ensures body.Keys == {"title", "completed"} + (if description.Some? then {"description"} else {})
    ensures body["title"] == JStr(title) && body["completed"] == JBool(false)
    ensures description.Some? ==> body["description"] == JStr(description.value)
  {
    var base := map["title" := JStr(title), "completed" := JBool(false)];
    if description.Some? then base["description" := JStr(description.value)] else base
  }

  method CreateTask(b: Browser, userId: Option<Json>, title: string, description: Option<string>, response: Response)
    returns (request: Request, created: Result<Option<Json>, Thrown>)
    modifies b`storage, b`location
    ensures request == Request(Post, TodosPath, Headers(old(GetToken(b))), Some(JObj(CreateBody(title, description))))
    ensures created == Awaited(Classify(response))
    ensures SessionAfter(b, response)
  {
    var result;
    request, result := ApiRequest(b, Post, TodosPath, Some(JObj(CreateBody(title, description))), response);
    created := Awaited(result);
  }

  /** The payload of `updateTask`: exactly the supplied fields, the status as `completed`. */
  predicate IsUpdatePayload(data: TaskUpdate, payload: map<string, Json>) {
    && payload.Keys <= {"title", "description", "completed"}
    && ("title" in payload <==> data.title.Some?)
    && ("description" in payload <==> data.description.Some?)
    && ("completed" in payload <==> data.status.Some?)
    && (data.title.Some? ==> payload["title"] == JStr(data.title.value))
    && (data.description.Some? ==> payload["description"] == JStr(data.description.value))
    && (data.status.Some? ==> payload["completed"] == JBool(data.status.value == Completed))
  }

  /** Two payloads that both fit the same update are the same payload. */
  lemma UpdatePayloadIsUnique(data: TaskUpdate, p: map<string, Json>, q: map<string, Json>)
    requires IsUpdatePayload(data, p) && IsUpdatePayload(data, q)
    ensures p == q
  {
    assert p.Keys == q.Keys;
  }

  /** Builds the `updateTask` payload field by field. */
  method BuildUpdatePayload(data: TaskUpdate) returns (payload: map<string, Json>)
    ensures IsUpdatePayload(data, payload)
  {
    payload := map[];
    if data.title.Some? {
      payload := payload["title" := JStr(data.title.value)];
    }
    if data.description.Some? {
      payload := payload["description" := JStr(data.description.value)];
    }
    if data.status.Some? {
      payload := payload["completed" := JBool(data.status.value == Completed)];
    }
  }

  method UpdateTask(b: Browser, userId: Option<Json>, taskId: string, data: TaskUpdate, response: Response)
    returns (request: Request, updated: Result<Option<Json>, Thrown>)
    modifies b`storage, b`location
    ensures request.verb == Put && request.endpoint == TaskPath(taskId)
    ensures request.headers == Headers(old(GetToken(b)))
    ensures request.body.Some? && request.body.value.JObj? && IsUpdatePayload(data, request.body.value.fields)
    ensures updated == Awaited(Classify(response))
    ensures SessionAfter(b, response)
  {
    var payload := BuildUpdatePayload(data);
    var result;
    request, result := ApiRequest(b, Put, TaskPath(taskId), Some(JObj(payload)), response);
    updated := Awaited(result);
  }

  /**
   * `deleteTask`: awaits the DELETE and discards its value, so it resolves to
   * `undefined` whatever a successful reply carried.
   */
  method DeleteTask(b: Browser, userId: Option<Json>, taskId: string, response: Response)
    returns (request: Request, deleted: Result<(), Thrown>)
    modifies b`storage, b`location
    ensures request == Request(Delete, TaskPath(taskId), Headers(old(GetToken(b))), None)
    ensures deleted.Err? <==> Classify(response).Failed?
    ensures deleted.Err? ==> deleted.error == Classify(response).thrown
    ensures SessionAfter(b, response)
  {
    var result;
    request, result := ApiRequest(b, Delete, TaskPath(taskId), None, response);
    deleted := if result.Failed? then Err(result.thrown) else Ok(());
  }

  // ---------------------------------------------------------------- completion

  /** `t.id === taskId` for one list element other than `null`. */
  predicate HasId(item: Json, taskId: string) {
    Prop(item, "id") == Some(JStr(taskId))
  }

  /** None of the first `j` elements matches, and none of them is `null`. */
  predicate PassedOver(items: seq<Json>, taskId: string, j: int)
    requires 0 <= j <= |items|
  {
    forall k | 0 <= k < j :: !items[k].JNull? && !HasId(items[k], taskId)
  }

  /**
   * `items.find((t) => t.id === taskId)`: the first element with that id; the
   * callback throws on a `null` element it reaches first.
   */
  function Find(items: seq<Json>, taskId: string): (r: Result<Option<Json>, Thrown>)
    ensures r.Ok? && r.value.Some? ==>
              exists j | 0 <= j < |items| :: items[j] == r.value.value && HasId(items[j], taskId) && PassedOver(items, taskId, j)
    ensures r == Ok(None) <==> PassedOver(items, taskId, |items|)
    ensures r.Err? ==> r.error == TypeError && exists j | 0 <= j < |items| :: items[j].JNull? && PassedOver(items, taskId, j)
    decreases |items|
  {
    if items == [] then Ok(None)
    else if items[0].JNull? then Err(TypeError)
    else if HasId(items[0], taskId) then Ok(Some(items[0]))
    else
      var r := Find(items[1..], taskId);
      assert PassedOver(items, taskId, 1);
      ShiftPassedOver(items, taskId);
      r
  }

  /** Passing over the tail after a first non-matching element is passing over the whole. */
  lemma ShiftPassedOver(items: seq<Json>, taskId: string)
    requires items != [] && !items[0].JNull? && !HasId(items[0], taskId)
    ensures forall j | 0 <= j <= |items[1..]| :: PassedOver(items[1..], taskId, j) <==> PassedOver(items, taskId, j + 1)
  {
    forall j | 0 <= j <= |items[1..]|
      ensures PassedOver(items[1..], taskId, j) <==> PassedOver(items, taskId, j + 1)
    {
      if PassedOver(items[1..], taskId, j) {
        forall k | 0 <= k < j + 1
          ensures !items[k].JNull? && !HasId(items[k], taskId)
        {
          if k > 0 {
            assert items[k] == items[1..][k - 1];
          }
        }
      }
      if PassedOver(items, taskId, j + 1) {
        forall k | 0 <= k < j
          ensures !items[1..][k].JNull? && !HasId(items[1..][k], taskId)
        {
          assert items[1..][k] == items[k + 1];
        }
      }
    }
  }

  /** `task.status !== 'completed'`: the value the toggle sends. */
  function Flipped(task: Json): bool {
    Prop(task, "status") != Some(JStr("completed"))
  }

  /**
   * What `toggleTaskCompletion` decides from the fetched list: the rejection of
   * the listing, a lookup failure, "Task not found", or the `completed` value to send.
   */
  function ToggleTarget(list: Result<Json, Thrown>, taskId: string): (r: Result<bool, Thrown>)
    ensures list.Err? ==> r == Err(list.error)
    ensures list.Ok? && !list.value.JArr? ==> r == Err(TypeError)
    ensures list.Ok? && list.value.JArr? && Find(list.value.items, taskId) == Ok(None) ==>
              r == Err(Failure(NotFoundMessage))
    ensures list.Ok? && list.value.JArr? && Find(list.value.items, taskId).Ok? && Find(list.value.items, taskId).value.Some? ==>
              r == Ok(Flipped(Find(list.value.items, taskId).value.value))
  {
    match list
    case Err(t) => Err(t)
    case Ok(JArr(items)) =>
      (match Find(items, taskId)
       case Err(t) => Err(t)
       case Ok(None) => Err(Failure(NotFoundMessage))
       case Ok(Some(task)) => Ok(Flipped(task)))
    case Ok(_) => Err(TypeError)   // `find` is not a function
  }

  /** An id no listed task has is reported as not found. */
  lemma AbsentIdNotFound(items: seq<Json>, taskId: string)
    requires forall k | 0 <= k < |items| :: !items[k].JNull? && !HasId(items[k], taskId)
    ensures ToggleTarget(Ok(JArr(items)), taskId) == Err(Failure(NotFoundMessage))
  {
    assert PassedOver(items, taskId, |items|);
  }

  /** `find` returns the first element with the id when everything before it is passed over. */
  lemma {:induction false} FindsFirstMatch(items: seq<Json>, taskId: string, j: int)
    requires 0 <= j < |items| && HasId(items[j], taskId) && PassedOver(items, taskId, j)
    ensures Find(items, taskId) == Ok(Some(items[j]))
    decreases j
  {
    if j > 0 {
      assert !items[0].JNull? && !HasId(items[0], taskId);
      ShiftPassedOver(items, taskId);
      assert items[1..][j - 1] == items[j];
      FindsFirstMatch(items[1..], taskId, j - 1);
    }
  }

  /** The toggle sends the opposite of the listed task's completion. */
  lemma ToggleInvertsStatus(items: seq<Json>, taskId: string, j: int)
    requires 0 <= j < |items| && HasId(items[j], taskId) && PassedOver(items, taskId, j)
    ensures ToggleTarget(Ok(JArr(items)), taskId) ==
              Ok(!("status" in items[j].fields && items[j].fields["status"] == JStr("completed")))
  {
    FindsFirstMatch(items, taskId, j);
  }

  /**
   * `toggleTaskCompletion`: lists the tasks, then either fails without a second
   * request or patches the completion endpoint with the flipped value.
   */
  method ToggleTaskCompletion(b: Browser, userId: Option<Json>, taskId: string, listResponse: Response, patchResponse: Response)
    returns (sent: seq<Request>, result: Result<Option<Json>, Thrown>)
    modifies b`storage, b`location
    ensures |sent| >= 1 && sent[0] == Request(Get, TodosPath, Headers(old(GetToken(b))), None)
    ensures var target := ToggleTarget(TodosOrEmpty(Awaited(Classify(listResponse))), taskId);
      && (target.Err? ==> |sent| == 1 && result == Err(target.error))
      && (target.Ok? ==>
            && |sent| == 2
            && sent[1] == Request(Patch, CompletePath(taskId), Headers(old(GetToken(b))),
                                  Some(JObj(map["completed" := JBool(target.value)])))
            && result == Awaited(Classify(patchResponse)))
    ensures |sent| == 1 ==> SessionAfter(b, listResponse)
    ensures |sent| == 2 ==> !IsUnauthorized(listResponse) && SessionAfter(b, patchResponse)
  {
    var listRequest, tasks := GetUserTasks(b, userId, listResponse);
    sent := [listRequest];
    var target := ToggleTarget(tasks, taskId);
    if target.Err? {
      return sent, Err(target.error);
    }
    var patchRequest, patched := ApiRequest(b, Patch, CompletePath(taskId), Some(JObj(map["completed" := JBool(target.value)])), patchResponse);
    sent := sent + [patchRequest];
    result := Awaited(patched);
  }

  /** `markTaskComplete` (`completed` true) and `markTaskIncomplete` (false). */
  method MarkTask(b: Browser, userId: Option<Json>, taskId: string, completed: bool, response: Response)
    returns (request: Request, result: Result<Option<Json>, Thrown>)
    modifies b`storage, b`location
    ensures request == Request(Patch, CompletePath(taskId), Headers(old(GetToken(b))),
                               Some(JObj(map["completed" := JBool(completed)])))
    ensures result == Awaited(Classify(response))
    ensures SessionAfter(b, response)
  {
    var fetched;
    request, fetched := ApiRequest(b, Patch, CompletePath(taskId), Some(JObj(map["completed" := JBool(completed)])), response);
    result := Awaited(fetched);
  }
}
