/**
 * What the task tracker promises, stated over the step functions of module
 * Tasks: id freshness, append-only creation, single-flag completion,
 * idempotence, the reload counter and the routing of request paths.
 */
module Properties {
  import opened Wrappers
  import opened Paths
  import opened Tasks

  // ---------------------------------------------------------------- create

  /** Creation succeeds exactly when the body passes all three checks of `create_task`. */
  lemma CreateSucceedsIff(s: Store, body: Body)
    ensures CreateStep(s, body).response.status == 200 <==>
      body.Some? && |body.value| > 0 &&
      "title" in body.value && "priority" in body.value &&
      PriorityOf(body.value["priority"]).Some?
  {
  }

  /**
   * A rejected create answers 400 with the message of the first check that
   * failed and leaves the state exactly as it was.
   */
  lemma CreateRejects(s: Store, body: Body)
    requires CreateStep(s, body).response.status != 200
    ensures CreateStep(s, body).store == s
    ensures CreateStep(s, body).response.status == 400
    ensures body.None? || |body.value| == 0 ==>
      CreateStep(s, body).response == Error(400, BodyRequired)
    ensures body.Some? && |body.value| > 0 && ("title" !in body.value || "priority" !in body.value) ==>
      CreateStep(s, body).response == Error(400, FieldsRequired)
    ensures body.Some? && |body.value| > 0 && "title" in body.value && "priority" in body.value ==>
      CreateStep(s, body).response == Error(400, BadPriority) &&
      forall p :: body.value["priority"] != Str(PriorityName(p))
  {
  }

  /**
   * A successful create returns a new, not yet done task carrying the
   * counter's old value, the title sent and the priority sent; it appends that
   * task after every earlier one and advances the counter by one.
   */
  lemma CreateAppends(s: Store, body: Body)
    requires CreateStep(s, body).response.status == 200
    ensures var o := CreateStep(s, body);
      o.response.payload.TaskPayload? &&
      var t := o.response.payload.task;
      t.id == s.nextId && !t.isDone &&
      t.title == body.value["title"] &&
      body.value["priority"] == Str(PriorityName(t.priority)) &&
      o.store.nextId == s.nextId + 1 &&
      |o.store.tasks| == |s.tasks| + 1 &&
      o.store.tasks[..|s.tasks|] == s.tasks &&
      o.store.tasks[|s.tasks|] == t
  {
  }

  /** A body holding a title and a valid priority is accepted with exactly those values. */
  lemma CreateAcceptsWellFormed(title: Json, p: Priority)
    ensures ValidateCreate(Some(map["title" := title, "priority" := Str(PriorityName(p))])) ==
      Accepted(title, p)
  {
  }

  /**
   * Creation keeps the counter ahead of every stored id, and the id it hands
   * out differs from every id already stored.
   */
  lemma CreateKeepsFresh(s: Store, body: Body)
    requires Fresh(s)
    ensures Fresh(CreateStep(s, body).store)
    ensures CreateStep(s, body).response.status == 200 ==> !HasId(s.tasks, s.nextId)
  {
  }

  /** Ids strictly increase along the list. */
  predicate IdsIncreasing(tasks: seq<Task>) {
    forall i, j :: 0 <= i < j < |tasks| ==> tasks[i].id < tasks[j].id
  }

  /** Creation keeps ids in strictly increasing list order. */
  lemma CreateKeepsIdsIncreasing(s: Store, body: Body)
    requires Fresh(s) && IdsIncreasing(s.tasks)
    ensures IdsIncreasing(CreateStep(s, body).store.tasks)
  {
  }

  // -------------------------------------------------------------- complete

  /** A path that does not parse gives a bare 404 and changes nothing. */
  lemma CompleteRejectsPath(s: Store, path: string)
    requires |Split(path)| != 4 || ParseInt(Split(path)[2]).None?
    ensures CompleteStep(s, path) == Outcome(s, Response(404, NoPayload))
  {
  }

  /** An id that is not stored gives a bare 404 and changes nothing. */
  lemma CompleteMissing(s: Store, id: int)
    requires !HasId(s.tasks, id)
    ensures CompleteId(s, id) == Outcome(s, Response(404, NoPayload))
  {
  }

  /**
   * Completing a stored id answers 200 and sets `isDone` on the first task
   * with that id. Nothing else changes: not the other tasks, not that task's
   * other fields, not the length and not the counter.
   */
  lemma CompleteMarksFirst(s: Store, id: int, k: nat)
    requires k < |s.tasks| && s.tasks[k].id == id
    requires forall j :: 0 <= j < k ==> s.tasks[j].id != id
    ensures var o := CompleteId(s, id);
      o.response == Response(200, NoPayload) &&
      o.store.nextId == s.nextId &&
      |o.store.tasks| == |s.tasks| &&
      o.store.tasks[k].isDone &&
      o.store.tasks[k] == s.tasks[k].(isDone := true) &&
      forall j :: 0 <= j < |s.tasks| && j != k ==> o.store.tasks[j] == s.tasks[j]
  {
  }

  /** The scan finds the same position in two lists with the same ids. */
  lemma FirstIndexOfSameIds(a: seq<Task>, b: seq<Task>, id: int)
    requires |a| == |b|
    requires forall j :: 0 <= j < |a| ==> a[j].id == b[j].id
    ensures FirstIndexOf(a, id) == FirstIndexOf(b, id)
  {
  }

  /**
   * Completing the same path twice answers the same way both times and ends
   * in the state one completion reaches.
   */
  lemma CompleteIdempotent(s: Store, path: string)
    ensures var o := CompleteStep(s, path);
      CompleteStep(o.store, path) == o
  {
    var o := CompleteStep(s, path);
    match ParseCompletePath(path)
    case None =>
    case Some(id) =>
      match FirstIndexOf(s.tasks, id)
      case None =>
      case Some(k) =>
        FirstIndexOfSameIds(s.tasks, o.store.tasks, id);
        assert o.store.tasks[k := o.store.tasks[k].(isDone := true)] == o.store.tasks;
  }

  /** Completion keeps the counter ahead of every stored id. */
  lemma CompleteKeepsFresh(s: Store, path: string)
    requires Fresh(s)
    ensures Fresh(CompleteStep(s, path).store)
  {
  }

  // ------------------------------------------------------------------ load

  /** Every load keeps the counter ahead of every stored id, whatever the file holds. */
  lemma LoadKeepsFresh(s: Store, disk: Option<seq<Task>>)
    requires Fresh(s)
    ensures Fresh(LoadStep(s, disk))
  {
  }

  /**
   * After a restart that reloads the saved list, every task is back in order
   * with its done flag, and the next create hands out the largest stored id
   * plus one, an id that no stored task has.
   */
  lemma RestartThenCreate(saved: seq<Task>, body: Body)
    requires saved != []
    requires CreateStep(LoadStep(Initial, Some(saved)), body).response.status == 200
    ensures var l := LoadStep(Initial, Some(saved));
      var o := CreateStep(l, body);
      l.tasks == saved &&
      o.response.payload.TaskPayload? &&
      o.response.payload.task.id == MaxId(saved) + 1 &&
      !HasId(saved, o.response.payload.task.id)
  {
  }

  // -------------------------------------------------------------- dispatch

  /**
   * POST `/tasks` creates; any other path that starts with `/tasks/` and ends
   * with `/complete` goes to completion; a POST path that fits no route is a
   * JSON 404 that changes nothing.
   */
  lemma PostDispatch(s: Store, path: string, body: Body)
    ensures path == "/tasks" ==> PostStep(s, path, body) == CreateStep(s, body)
    ensures path != "/tasks" && StartsWith(path, "/tasks/") && EndsWith(path, "/complete") ==>
      PostStep(s, path, body) == CompleteStep(s, path)
    ensures !StartsWith(path, "/tasks/") || !EndsWith(path, "/complete") ==>
      path != "/tasks" ==> PostStep(s, path, body) == Outcome(s, Error(404, NotFound))
  {
  }

  /** A string framed as `/<a>/<m>/<c>` with segments `a` and `c` splits into `""`, `a`, the pieces of `m` and `c`. */
  lemma SplitFramed(a: string, m: string, c: string)
    requires IsSegment(a) && IsSegment(c)
    ensures Split([Sep] + a + [Sep] + m + [Sep] + c) == ["", a] + Split(m) + [c]
  {
    var t1 := m + [Sep] + c;
    var t2 := a + [Sep] + t1;
    assert [Sep] + a + [Sep] + m + [Sep] + c == [Sep] + t2;
    SplitLeadingSep(t2);
    SplitFirstSegment(a, t1);
    SplitLastSegment(m, c);
  }

  /** The path `/tasks/<m>/complete` splits into `""`, `tasks`, the pieces of `m` and `complete`. */
  lemma SplitCompletePath(m: string)
    ensures Split("/tasks/" + m + "/complete") == ["", "tasks"] + Split(m) + ["complete"]
  {
    assert "/tasks/" + m + "/complete" == [Sep] + "tasks" + [Sep] + m + [Sep] + "complete";
    SplitFramed("tasks", m, "complete");
  }

  /** A path that passes both route tests but is shorter than `/tasks//complete` has fewer than four pieces. */
  lemma ShortCompleteRoute(path: string)
    requires StartsWith(path, "/tasks/") && EndsWith(path, "/complete")
    requires |path| < 16
    ensures |Split(path)| < 4
  {
    var q := path[..|path| - 9];
    assert path == q + [Sep] + "complete";
    SplitLastSegment(q, "complete");
    if q != [] {
      assert forall i :: 1 <= i < |q| ==> q[i] == path[..7][i];
      assert IsSegment(q[1..]);
      if q[0] == Sep {
        assert q == [Sep] + q[1..];
        SplitLeadingSep(q[1..]);
        SplitSegment(q[1..]);
      } else {
        SplitSegment(q);
      }
    }
  }

  /**
   * A POST path routed to completion that also passes the segment count is
   * exactly `/tasks/<segment>/complete`.
   */
  lemma CompleteRouteShape(path: string)
    requires PostRoute(path) == CompleteRoute
    requires |Split(path)| == 4
    ensures path == "/tasks/" + Split(path)[2] + "/complete"
  {
    if |path| < 16 {
      ShortCompleteRoute(path);
    } else {
      var m := path[7..|path| - 9];
      assert path == path[..7] + m + path[|path| - 9..];
      SplitCompletePath(m);
      JoinSplit(m);
    }
  }

  /** POST `/tasks/<n>/complete`, with `n` printed in decimal, completes id `n`. */
  lemma PostCompletesId(s: Store, n: int, body: Body)
    ensures PostStep(s, "/tasks/" + ShowInt(n) + "/complete", body) == CompleteId(s, n)
  {
    var path := "/tasks/" + ShowInt(n) + "/complete";
    SplitCompletePath(ShowInt(n));
    SplitSegment(ShowInt(n));
    ParseShowInt(n);
    assert StartsWith(path, "/tasks/");
    assert EndsWith(path, "/complete");
  }

  // -------------------------------------------------------------- scenario

  const Milk: Task := Task(1, Str("Buy milk"), High, false)

  /** On a fresh server, `{"title": "Buy milk", "priority": "high"}` creates task 1. */
  lemma BuyMilkCreated()
    ensures PostStep(Initial, "/tasks", Some(map["title" := Str("Buy milk"), "priority" := Str("high")])) ==
      Outcome(Store([Milk], 2), Response(200, TaskPayload(Milk)))
  {
  }

  /** Then `/tasks/1/complete` answers 200 and marks that task done. */
  lemma BuyMilkCompleted()
    ensures PostStep(Store([Milk], 2), "/tasks/1/complete", None) ==
      Outcome(Store([Milk.(isDone := true)], 2), Response(200, NoPayload))
  {
    assert ShowInt(1) == "1";
    assert "/tasks/" + ShowInt(1) + "/complete" == "/tasks/1/complete";
    PostCompletesId(Store([Milk], 2), 1, None);
    assert FirstIndexOf([Milk], 1) == Some(0);
  }

  /**
   * Create `{"title": "Buy milk", "priority": "high"}` on a fresh server,
   * complete `/tasks/1/complete`, then list: one task with id 1, done.
   */
  lemma BuyMilkScenario()
    ensures var created := PostStep(Initial, "/tasks", Some(map["title" := Str("Buy milk"), "priority" := Str("high")]));
      var completed := PostStep(created.store, "/tasks/1/complete", None);
      created.response == Response(200, TaskPayload(Milk)) &&
      completed.response == Response(200, NoPayload) &&
      GetStep(completed.store, "/tasks") == Response(200, ListPayload([Milk.(isDone := true)]))
  {
    BuyMilkCreated();
    BuyMilkCompleted();
  }
}
