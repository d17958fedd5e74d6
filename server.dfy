/**
 * The request handler of TaskTracker.py with its module-level state. The
 * globals `TASKS` and `NEXT_TASK_ID` become the fields `tasks` and `nextId`,
 * and the tasks file becomes the field `disk`. Each handler updates them in
 * place, and its contract ties the new state and the response to the step
 * function of module Tasks.
 */
module Server {
  import opened Wrappers
  import opened Tasks
  import Properties

  class TaskServer {
    var tasks: seq<Task>
    var nextId: int
    /** The contents of the tasks file; `None` while the file does not exist. */
    var disk: Option<seq<Task>>

    /** The abstract state of the store. */
    function State(): Store
      reads this
    {
      Store(tasks, nextId)
    }

    /** Process start: an empty list, the counter at 1, and whatever file is on disk. */
    constructor (onDisk: Option<seq<Task>>)
      ensures State() == Initial && disk == onDisk
    {
      tasks := [];
      nextId := 1;
      disk := onDisk;
    }

    /** `save_tasks`: the whole list replaces the file's contents. */
    method Save()
      modifies this`disk
      ensures disk == Some(tasks)
    {
      disk := Some(tasks);
    }

    /** `load_tasks`. */
    method Load()
      modifies this`tasks, this`nextId
      ensures State() == LoadStep(old(State()), disk)
      ensures Fresh(old(State())) ==> Fresh(State())
    {
      if disk.Some? {
        tasks := disk.value;
        if tasks != [] {
          nextId := MaxId(tasks) + 1;
        }
      }
      if Fresh(old(State())) {
        Properties.LoadKeepsFresh(old(State()), disk);
      }
    }

    /** `do_GET`: a read that leaves the state alone. */
    method DoGet(path: string) returns (resp: Response)
      ensures resp == GetStep(State(), path)
      ensures path == "/tasks" ==> resp == Response(200, ListPayload(tasks))
      ensures path != "/tasks" ==> resp == Error(404, NotFound)
    {
      if path == "/tasks" {
        resp := Response(200, ListPayload(tasks));
      } else {
        resp := Error(404, NotFound);
      }
    }

    /** `create_task`. The file is rewritten exactly when a task was added. */
    method CreateTask(body: Body) returns (resp: Response)
      modifies this
      ensures Outcome(State(), resp) == CreateStep(old(State()), body)
      ensures disk == if resp.status == 200 then Some(tasks) else old(disk)
      ensures Fresh(old(State())) ==> Fresh(State())
    {
      if body.None? || |body.value| == 0 {
        return Error(400, BodyRequired);
      }
      var data := body.value;
      if "title" !in data || "priority" !in data {
        return Error(400, FieldsRequired);
      }
      var title := data["title"];
      var priority := PriorityOf(data["priority"]);
      if priority.None? {
        return Error(400, BadPriority);
      }
      var task := Task(nextId, title, priority.value, false);
      nextId := nextId + 1;
      tasks := tasks + [task];
      Save();
      resp := Response(200, TaskPayload(task));
      if Fresh(old(State())) {
        Properties.CreateKeepsFresh(old(State()), body);
      }
    }

    /**
     * `complete_task`: parse the id out of the path, then scan the list and
     * mark the first task with that id done. The file is rewritten exactly
     * when a task was found.
     */
    method CompleteTask(path: string) returns (resp: Response)
      modifies this
      ensures Outcome(State(), resp) == CompleteStep(old(State()), path)
      ensures disk == if resp.status == 200 then Some(tasks) else old(disk)
      ensures Fresh(old(State())) ==> Fresh(State())
    {
      var parsed := ParseCompletePath(path);
      if parsed.None? {
        return Response(404, NoPayload);
      }
      var id := parsed.value;
      var i := 0;
      while i < |tasks|
        invariant 0 <= i <= |tasks|
        invariant tasks == old(tasks) && nextId == old(nextId) && disk == old(disk)
        invariant forall j :: 0 <= j < i ==> tasks[j].id != id
      {
        if tasks[i].id == id {
          tasks := tasks[i := tasks[i].(isDone := true)];
          Save();
          resp := Response(200, NoPayload);
          if Fresh(old(State())) {
            Properties.CompleteKeepsFresh(old(State()), path);
          }
          return;
        }
        i := i + 1;
      }
      resp := Response(404, NoPayload);
    }

    /** `do_POST`. */
    method DoPost(path: string, body: Body) returns (resp: Response)
      modifies this
      ensures Outcome(State(), resp) == PostStep(old(State()), path, body)
      ensures disk == if resp.status == 200 then Some(tasks) else old(disk)
      ensures Fresh(old(State())) ==> Fresh(State())
    {
      if path == "/tasks" {
        resp := CreateTask(body);
        return;
      }
      if Paths.StartsWith(path, "/tasks/") && Paths.EndsWith(path, "/complete") {
        resp := CompleteTask(path);
        return;
      }
      resp := Error(404, NotFound);
    }
  }

  /** `run`: start the process, then load the tasks file before serving. */
  method Start(onDisk: Option<seq<Task>>) returns (server: TaskServer)
    ensures fresh(server)
    ensures server.State() == LoadStep(Initial, onDisk) && server.disk == onDisk
    ensures Fresh(server.State())
  {
    server := new TaskServer(onDisk);
    server.Load();
  }
}
