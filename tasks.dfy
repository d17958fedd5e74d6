/**
 * The task store and request handling of the task tracker (TaskTracker.py),
 * as pure functions of the state. A state is the ordered task list together
 * with the id counter. Every handler gives back the next state and the HTTP
 * response it sends. The server class in module Server runs these steps in
 * place.
 */
module Tasks {
  import opened Wrappers
  import opened Paths

  /** A decoded JSON value. Numbers are integers here. */
  datatype Json =
    | Null
    | Bool(b: bool)
    | Num(n: int)
    | Str(s: string)
    | Arr(items: seq<Json>)
    | Obj(fields: map<string, Json>)

  datatype Priority = Low | Normal | High

  /** The wire spelling of a priority. */
  function PriorityName(p: Priority): string {
    match p
    case Low => "low"
    case Normal => "normal"
    case High => "high"
  }

  /**
   * The check `priority in ("low", "normal", "high")`. It accepts exactly the
   * three spellings and tells which one was given.
   */
  function PriorityOf(v: Json): (r: Option<Priority>)
    ensures forall p :: r == Some(p) <==> v == Str(PriorityName(p))
  {
    if v == Str("low") then Some(Low)
    else if v == Str("normal") then Some(Normal)
    else if v == Str("high") then Some(High)
    else None
  }

  /** A task record. The title is stored exactly as the client sent it. */
  datatype Task = Task(id: int, title: Json, priority: Priority, isDone: bool)

  /**
   * A request body after `_read_json_body`: `None` when it was empty or did
   * not parse, otherwise the decoded JSON object.
   */
  type Body = Option<map<string, Json>>

  /** What a response carries. `NoPayload` is the bare response with no body. */
  datatype Payload =
    | NoPayload
    | ErrorPayload(error: string)
    | TaskPayload(task: Task)
    | ListPayload(tasks: seq<Task>)

  datatype Response = Response(status: int, payload: Payload)

  const BodyRequired: string := "JSON body is required"
  const FieldsRequired: string := "Fields 'title' and 'priority' are required"
  const BadPriority: string := "priority must be one of: low, normal, high"
  const NotFound: string := "Not found"

  /** `_error`: a JSON body `{"error": msg}` with the given status. */
  function Error(status: int, msg: string): (r: Response)
    ensures r.status == status && r.payload.ErrorPayload? && r.payload.error == msg
  {
    Response(status, ErrorPayload(msg))
  }

  /** The global state: `TASKS` and `NEXT_TASK_ID`. */
  datatype Store = Store(tasks: seq<Task>, nextId: int)

  /** The state at process start, before any load. */
  const Initial: Store := Store([], 1)

  /** A state change together with the response that was sent. */
  datatype Outcome = Outcome(store: Store, response: Response)

  /** Every id in `tasks` is below `bound`. */
  predicate IdsBelow(tasks: seq<Task>, bound: int) {
    forall i :: 0 <= i < |tasks| ==> tasks[i].id < bound
  }

  /** The counter is ahead of every stored id, so the next id is unused. */
  predicate Fresh(s: Store) {
    IdsBelow(s.tasks, s.nextId)
  }

  /**
   * `after` is `before` with possibly more tasks appended, where every earlier
   * task keeps its id, title and priority and a done task stays done: the only
   * change the handlers make to a stored task is to set `isDone`.
   */
  predicate Extends(before: seq<Task>, after: seq<Task>) {
    |before| <= |after| &&
    forall i :: 0 <= i < |before| ==>
      after[i].id == before[i].id && after[i].title == before[i].title &&
      after[i].priority == before[i].priority && (before[i].isDone ==> after[i].isDone)
  }

  /** `id` is stored in `tasks`. */
  predicate HasId(tasks: seq<Task>, id: int) {
    exists i :: 0 <= i < |tasks| && tasks[i].id == id
  }

  // ---------------------------------------------------------------- create

  /** What the validation in `create_task` decides about a body. */
  datatype Checked = Accepted(title: Json, priority: Priority) | Rejected(message: string)

  /** The three checks of `create_task`, in the order the source makes them. */
  function ValidateCreate(body: Body): (r: Checked)
    ensures r.Accepted? <==>
      body.Some? && |body.value| > 0 && "title" in body.value && "priority" in body.value &&
      PriorityOf(body.value["priority"]).Some?
    ensures r.Accepted? ==>
      r.title == body.value["title"] && body.value["priority"] == Str(PriorityName(r.priority))
    ensures r.Rejected? ==> r.message in {BodyRequired, FieldsRequired, BadPriority}
  {
    if body.None? || |body.value| == 0 then Rejected(BodyRequired)
    else if "title" !in body.value || "priority" !in body.value then Rejected(FieldsRequired)
    else match PriorityOf(body.value["priority"])
      case None => Rejected(BadPriority)
      case Some(p) => Accepted(body.value["title"], p)
  }

  /** `create_task`. */
  function CreateStep(s: Store, body: Body): (o: Outcome)
    ensures Extends(s.tasks, o.store.tasks) && |o.store.tasks| <= |s.tasks| + 1
    ensures o.store.tasks[..|s.tasks|] == s.tasks
    ensures o.response.status == 200 || o.response.status == 400
    ensures o.response.status == 400 ==> o.store == s && o.response.payload.ErrorPayload?
    ensures o.response.status == 200 ==>
      o.store.nextId == s.nextId + 1 && |o.store.tasks| == |s.tasks| + 1 &&
      o.response.payload == TaskPayload(o.store.tasks[|s.tasks|])
  {
    match ValidateCreate(body)
    case Rejected(msg) => Outcome(s, Error(400, msg))
    case Accepted(title, p) =>
      var t := Task(s.nextId, title, p, false);
      Outcome(Store(s.tasks + [t], s.nextId + 1), Response(200, TaskPayload(t)))
  }

  // -------------------------------------------------------------- complete

  /** The position of the first task with id `id`, the one the scan in `complete_task` stops at. */
  function FirstIndexOf(tasks: seq<Task>, id: int): (r: Option<nat>)
    ensures r.Some? ==> r.value < |tasks| && tasks[r.value].id == id
    ensures r.Some? ==> forall j :: 0 <= j < r.value ==> tasks[j].id != id
    ensures r.None? <==> !HasId(tasks, id)
    decreases |tasks|
  {
    if tasks == [] then None
    else if tasks[0].id == id then Some(0)
    else match FirstIndexOf(tasks[1..], id)
      case None => None
      case Some(k) => Some(k + 1)
  }

  /** `task["isDone"] = True` on the task at position `i`. */
  function MarkDone(tasks: seq<Task>, i: nat): (r: seq<Task>)
    requires i < |tasks|
    ensures |r| == |tasks| && r[i].isDone && r[i].(isDone := tasks[i].isDone) == tasks[i]
    ensures forall j :: 0 <= j < |tasks| && j != i ==> r[j] == tasks[j]
  {
    tasks[i := tasks[i].(isDone := true)]
  }

  /** The id in a path `/tasks/<id>/complete`; `None` where `complete_task` answers a bare 404. */
  function ParseCompletePath(path: string): (r: Option<int>)
    ensures r.Some? <==> |Split(path)| == 4 && ParseInt(Split(path)[2]).Some?
    ensures r.Some? ==> ParseInt(Split(path)[2]) == r
  {
    var parts := Split(path);
    if |parts| != 4 then None else ParseInt(parts[2])
  }

  /** The scan of `complete_task` once the id is known. */
  function CompleteId(s: Store, id: int): (o: Outcome)
    ensures Extends(s.tasks, o.store.tasks) && |o.store.tasks| == |s.tasks|
    ensures o.store.nextId == s.nextId && o.response.payload == NoPayload
    ensures o.response.status == 200 <==> HasId(s.tasks, id)
    ensures o.response.status != 200 ==> o.response.status == 404 && o.store == s
  {
    match FirstIndexOf(s.tasks, id)
    case None => Outcome(s, Response(404, NoPayload))
    case Some(i) => Outcome(Store(MarkDone(s.tasks, i), s.nextId), Response(200, NoPayload))
  }

  /** `complete_task`. */
  function CompleteStep(s: Store, path: string): (o: Outcome)
    ensures Extends(s.tasks, o.store.tasks) && |o.store.tasks| == |s.tasks|
    ensures o.store.nextId == s.nextId && o.response.payload == NoPayload
    ensures o.response.status == 200 <==> ParseCompletePath(path).Some? && HasId(s.tasks, ParseCompletePath(path).value)
    ensures o.response.status != 200 ==> o.response.status == 404 && o.store == s
  {
    match ParseCompletePath(path)
    case None => Outcome(s, Response(404, NoPayload))
    case Some(id) => CompleteId(s, id)
  }

  // ------------------------------------------------------------------ load

  /** `max(t["id"] for t in TASKS)`. */
  function MaxId(tasks: seq<Task>): (m: int)
    requires |tasks| > 0
    ensures HasId(tasks, m)
    ensures IdsBelow(tasks, m + 1)
    decreases |tasks|
  {
    if |tasks| == 1 then tasks[0].id
    else
      var rest := MaxId(tasks[1..]);
      if tasks[0].id >= rest then tasks[0].id else rest
  }

  /**
   * `load_tasks`. `disk` is the content of the tasks file, `None` when the
   * file does not exist.
   */
  function LoadStep(s: Store, disk: Option<seq<Task>>): (l: Store)
    ensures disk.None? ==> l == s
    ensures disk.Some? ==> l.tasks == disk.value
    ensures disk == Some([]) ==> l.nextId == s.nextId
    ensures disk.Some? && disk.value != [] ==>
      HasId(disk.value, l.nextId - 1) && IdsBelow(disk.value, l.nextId)
  {
    match disk
    case None => s
    case Some(ts) => if ts == [] then Store(ts, s.nextId) else Store(ts, MaxId(ts) + 1)
  }

  // -------------------------------------------------------------- dispatch

  datatype Route = ListRoute | CreateRoute | CompleteRoute | NoRoute

  /** The branch `do_GET` takes for a path. */
  function GetRoute(path: string): (r: Route)
    ensures r == ListRoute <==> path == "/tasks"
    ensures r == ListRoute || r == NoRoute
  {
    if path == "/tasks" then ListRoute else NoRoute
  }

  /** The branch `do_POST` takes for a path. */
  function PostRoute(path: string): (r: Route)
    ensures r == CreateRoute <==> path == "/tasks"
    ensures r == CompleteRoute <==>
      path != "/tasks" && StartsWith(path, "/tasks/") && EndsWith(path, "/complete")
    ensures r != ListRoute
  {
    if path == "/tasks" then CreateRoute
    else if StartsWith(path, "/tasks/") && EndsWith(path, "/complete") then CompleteRoute
    else NoRoute
  }

  /** `do_GET`. It never changes the state. */
  function GetStep(s: Store, path: string): (r: Response)
    ensures path == "/tasks" ==> r == Response(200, ListPayload(s.tasks))
    ensures path != "/tasks" ==> r == Error(404, NotFound)
  {
    match GetRoute(path)
    case ListRoute => Response(200, ListPayload(s.tasks))
    case _ => Error(404, NotFound)
  }

  /** `do_POST`. */
  function PostStep(s: Store, path: string, body: Body): (o: Outcome)
    ensures Extends(s.tasks, o.store.tasks) && |o.store.tasks| <= |s.tasks| + 1
    ensures o.store.nextId == s.nextId || o.store.nextId == s.nextId + 1
    ensures o.response.status in {200, 400, 404}
    ensures o.response.status != 200 ==> o.store == s
  {
    match PostRoute(path)
    case CreateRoute => CreateStep(s, body)
    case CompleteRoute => CompleteStep(s, path)
    case _ => Outcome(s, Error(404, NotFound))
  }
}
