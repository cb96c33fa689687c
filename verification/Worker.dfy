/**
 * The worker object (internal/app/worker/worker.go, handler.go), proved against WorkerModel over either kind
 * of store.
 */
module Workers {
  import opened Seqs
  import opened Tasks
  import opened Stores
  import opened WorkerModel

  class Worker {
    const uuid: Uuid
    const taskDb: Store<Task>
    var queue: seq<Task>
    // What Docker sees.
    var calls: seq<DockerCall>

    /** Every record is stored under its own id. */
    ghost predicate Valid()
      reads this, taskDb, taskDb.cells.Values
    {
      taskDb.Valid() && forall k | k in taskDb.cells :: taskDb.cells[k].value.id == k
    }

    ghost function Model(): Machine
      reads this, taskDb, taskDb.cells.Values
    {
      Machine(queue, taskDb.Contents(), calls)
    }

    predicate Durable(diskOk: bool) {
      !taskDb.persistent || diskOk
    }

    /** Which of the two Puts of one queue entry reach the store. */
    function Written(disk: Puts): Puts {
      Puts(Durable(disk.first), Durable(disk.last))
    }

    /** Which Puts of one health check reach the store. */
    function AllDurable(diskOk: Uuid -> bool): Uuid -> bool {
      id => !taskDb.persistent || diskOk(id)
    }

    constructor (uuid: Uuid, persistent: bool)
      ensures Valid() && fresh(taskDb) && taskDb.persistent == persistent && this.uuid == uuid
      ensures taskDb.cells == map[] && Model() == FRESH
    {
      this.uuid := uuid;
      taskDb := new Store(persistent);
      queue, calls := [], [];
      new;
      assert taskDb.Contents() == map[];
    }

    method AddTask(t: Task)
      requires Valid()
      modifies this`queue
      ensures Valid() && Model() == Enqueue(old(Model()), t)
    {
      queue := queue + [t];
    }

    method StartTaskHandler(body: Task)
      requires Valid()
      modifies this`queue
      ensures Valid() && Model() == Enqueue(old(Model()), body)
    {
      AddTask(body);
    }

    method StopTaskHandler(id: Uuid) returns (found: bool)
      requires Valid()
      modifies this`queue
      ensures Valid() && Model() == RequestStop(old(Model()), id)
      ensures found <==> id in old(Model()).db
    {
      var taskToStop := taskDb.Get(id);
      found := taskToStop != null;
      if found {
        AddTask(taskToStop.value.(state := Completed));
      }
    }

    /** Puts a copy of the task under its own id. */
    method Store(t: Task, diskOk: bool)
      requires Valid()
      modifies taskDb
      ensures Valid() && Model() == Remember(old(Model()), t, Durable(diskOk))
      ensures fresh(taskDb.cells.Values - old(taskDb.cells.Values))
    {
      var p := new Cell(t);
      var ok := taskDb.Put(t.id, p, diskOk);
      assert taskDb.Contents() == Remember(old(Model()), t, ok).db;
      forall k | k in taskDb.cells
        ensures taskDb.cells[k].value.id == k
      {
        assert taskDb.Contents()[k] == taskDb.cells[k].value;
        assert k != t.id ==> old(taskDb.Contents())[k] == old(taskDb.cells[k].value);
      }
    }

    method StartTask(t: Task, now: Time, answer: StartAnswer, diskOk: bool)
      requires Valid()
      modifies this`calls, taskDb
      ensures Valid() && Model() == Start(old(Model()), t, now, answer, Durable(diskOk))
      ensures fresh(taskDb.cells.Values - old(taskDb.cells.Values))
    {
      var taskToStart := t.(startTime := now);
      calls := calls + [StartCall(t.id, answer, now)];
      taskToStart := taskToStart.(containerId := ContainerOf(answer));
      taskToStart := taskToStart.(state := Running);
      Store(taskToStart, diskOk);
    }

    method StopTask(t: Task, now: Time, stopped: bool, diskOk: bool)
      requires Valid()
      modifies this`calls, taskDb
      ensures Valid() && Model() == Stop(old(Model()), t, now, stopped, Durable(diskOk))
      ensures fresh(taskDb.cells.Values - old(taskDb.cells.Values))
    {
      calls := calls + [StopCall(t.id, t.containerId, stopped, now)];
      var taskToStop := t.(finishTime := now);
      taskToStop := taskToStop.(state := Completed);
      Store(taskToStop, diskOk);
    }

    /** A task without a record is stored as queued before its transition is checked. */
    method TransitionTask(q: Task, now: Time, docker: Answers, disk: Puts) returns (err: bool)
      requires Valid()
      modifies this`calls, taskDb
      ensures Valid() && Model() == Transition(old(Model()), q, now, docker, Written(disk))
      ensures err <==> !CallsDocker(old(Model()), q)
      ensures fresh(taskDb.cells.Values - old(taskDb.cells.Values))
    {
      hide TRANSITIONS, ValidStateTransition, Remember, Start, Stop;
      var persisted := taskDb.Get(q.id);
      var src := q.state;
      if persisted == null {
        Store(q, disk.first);
      } else {
        src := persisted.value.state;
      }
      if !ValidStateTransition(src, q.state) {
        return true;
      }
      err := false;
      if q.state == Scheduled {
        StartTask(q, now, docker.start, disk.last);
      } else if q.state == Completed {
        StopTask(q, now, docker.stopped, disk.last);
      } else {
        err := true;
      }
    }

    method RunTask(now: Time, docker: Answers, disk: Puts) returns (err: bool)
      requires Valid()
      modifies this, taskDb
      ensures Valid() && Model() == RunHead(old(Model()), now, docker, Written(disk))
      ensures fresh(taskDb.cells.Values - old(taskDb.cells.Values))
    {
      if queue == [] {
        return false;
      }
      var q := queue[0];
      queue := queue[1..];
      hide Transition;
      err := TransitionTask(q, now, docker, disk);
    }

    /**
     * Asks Docker about every running task.  Only the loss of the container is put back; the other changes are
     * made to the record the store handed out, which is the stored one only in the in-memory store.
     */
    method UpdateTasks(inspect: Uuid -> Inspection, diskOk: Uuid -> bool)
      requires Valid()
      modifies taskDb, taskDb.cells.Values
      ensures Valid() && Model() == HealthCheck(old(Model()), inspect, taskDb.persistent, AllDurable(diskOk))
      ensures fresh(taskDb.cells.Values - old(taskDb.cells.Values))
    {
      ghost var db := taskDb.Contents();
      var tasks, keys := taskDb.List();
      CheckAll(tasks, keys, inspect, diskOk, db);
      PartlyAll(db, keys, inspect, taskDb.persistent, AllDurable(diskOk));
    }

    method CheckAll(tasks: seq<Cell<Task>>, ghost keys: seq<Uuid>, inspect: Uuid -> Inspection, diskOk: Uuid -> bool,
        ghost db: map<Uuid, Task>)
      requires Valid() && taskDb.Contents() == db
      requires Listed(tasks, keys) && NoDup(keys) && forall j | 0 <= j < |keys| :: keys[j] in db
      modifies taskDb, taskDb.cells.Values
      ensures Valid() && taskDb.Contents() == Partly(db, keys, inspect, taskDb.persistent, AllDurable(diskOk))
      ensures fresh(taskDb.cells.Values - old(taskDb.cells.Values))
    {
      hide Checked;
      assert db == Partly(db, [], inspect, taskDb.persistent, AllDurable(diskOk));
      for i := 0 to |tasks|
        invariant Valid() && Listed(tasks, keys)
        invariant taskDb.Contents() == Partly(db, keys[..i], inspect, taskDb.persistent, AllDurable(diskOk))
        invariant fresh(taskDb.cells.Values - old(taskDb.cells.Values))
      {
        PartlyStep(db, keys, i, inspect, taskDb.persistent, AllDurable(diskOk));
        CheckListed(tasks, keys, i, inspect, diskOk);
      }
      assert keys[..|keys|] == keys;
    }

    /** The listed records: the stored ones, or copies that stay as they are. */
    ghost predicate Listed(tasks: seq<Cell<Task>>, keys: seq<Uuid>)
      reads taskDb, tasks
    {
      && |tasks| == |keys|
      && forall j | 0 <= j < |tasks| ::
           && tasks[j].value.id == keys[j]
           && if taskDb.persistent then tasks[j] !in taskDb.cells.Values
              else keys[j] in taskDb.cells && taskDb.cells[keys[j]] == tasks[j]
    }

    /** The assignments to the record of a running task. */
    static method Observe(inspected: Cell<Task>, resp: Inspection)
      modifies inspected
      ensures inspected.value == match resp
                                 case Unseen => old(inspected.value).(state := Failed)
                                 case Exited(ports) => old(inspected.value).(state := Failed, portBindings := ports)
                                 case Up(ports) => old(inspected.value).(portBindings := ports)
    {
      match resp
      case Unseen =>
        inspected.value := inspected.value.(state := Failed);
      case Exited(ports) =>
        inspected.value := inspected.value.(state := Failed);
        inspected.value := inspected.value.(portBindings := ports);
      case Up(ports) =>
        inspected.value := inspected.value.(portBindings := ports);
    }

    /** One iteration of the loop. */
    method CheckListed(tasks: seq<Cell<Task>>, ghost keys: seq<Uuid>, i: nat, inspect: Uuid -> Inspection,
        diskOk: Uuid -> bool)
      requires Valid() && Listed(tasks, keys) && i < |tasks| && keys[i] in taskDb.cells
      modifies taskDb, taskDb.cells.Values
      ensures Valid() && Listed(tasks, keys)
      ensures taskDb.Contents() ==
              var id, db := keys[i], old(taskDb.Contents());
              db[id := Checked(db[id], inspect(id), taskDb.persistent, AllDurable(diskOk)(id))]
      ensures fresh(taskDb.cells.Values - old(taskDb.cells.Values))
    {
      hide Checked;
      var id := tasks[i].value.id;
      CheckTask(id, inspect(id), diskOk(id));
      assert taskDb.persistent ==> forall j | 0 <= j < |tasks| :: tasks[j].value == old(tasks[j].value);
      forall j | 0 <= j < |tasks| && !taskDb.persistent
        ensures tasks[j].value.id == keys[j]
      {
        assert tasks[j] == taskDb.cells[keys[j]];
      }
    }

    method CheckTask(id: Uuid, resp: Inspection, diskOk: bool)
      requires Valid() && id in taskDb.cells
      modifies taskDb, taskDb.cells[id]
      ensures Valid()
      ensures taskDb.Contents() ==
              var db := old(taskDb.Contents());
              db[id := Checked(db[id], resp, taskDb.persistent, Durable(diskOk))]
      ensures fresh(taskDb.cells.Values - old(taskDb.cells.Values))
      ensures !taskDb.persistent ==> taskDb.cells == old(taskDb.cells)
    {
      var inspected := taskDb.Get(id);
      if inspected.value.state != Running {
        assert taskDb.Contents() == taskDb.Contents()[id := inspected.value];
        return;
      }
      Observe(inspected, resp);
      ghost var before := old(taskDb.Contents());
      if taskDb.persistent {
        assert taskDb.Contents() == before == before[id := before[id]];
      } else {
        taskDb.ChangedThroughPointer(id);
      }
      assert taskDb.Contents()[id := inspected.value] == before[id := inspected.value];
      ghost var wanted := Checked(before[id], resp, taskDb.persistent, Durable(diskOk));
      if resp.Unseen? {
        var ok := taskDb.Put(id, inspected, diskOk);
        assert wanted == if ok then inspected.value else before[id];
      } else {
        assert wanted == if taskDb.persistent then before[id] else inspected.value;
      }
      assert taskDb.Contents() == before[id := wanted];
      forall k | k in taskDb.cells
        ensures taskDb.cells[k].value.id == k
      {
        assert taskDb.Contents()[k] == taskDb.cells[k].value;
        assert before[k] == old(taskDb.cells[k].value);
      }
    }
  }

  /** The records with those of `done` checked. */
  ghost function Partly(db: map<Uuid, Task>, done: seq<Uuid>, inspect: Uuid -> Inspection, persistent: bool,
      durable: Uuid -> bool): map<Uuid, Task> {
    map id | id in db :: if id in done then Checked(db[id], inspect(id), persistent, durable(id)) else db[id]
  }

  lemma PartlyAll(db: map<Uuid, Task>, keys: seq<Uuid>, inspect: Uuid -> Inspection, persistent: bool,
      durable: Uuid -> bool)
    requires forall k :: k in keys <==> k in db
    ensures Partly(db, keys, inspect, persistent, durable) ==
            map id | id in db :: Checked(db[id], inspect(id), persistent, durable(id))
  {
  }

  lemma PartlyStep(db: map<Uuid, Task>, ids: seq<Uuid>, i: nat, inspect: Uuid -> Inspection, persistent: bool,
      durable: Uuid -> bool)
    requires i < |ids| && NoDup(ids) && ids[i] in db
    ensures ids[i] !in ids[..i]
    ensures Partly(db, ids[..i + 1], inspect, persistent, durable) ==
            var before := Partly(db, ids[..i], inspect, persistent, durable);
            before[ids[i] := Checked(db[ids[i]], inspect(ids[i]), persistent, durable(ids[i]))]
  {
    assert ids[..i + 1] == ids[..i] + [ids[i]];
  }
}
