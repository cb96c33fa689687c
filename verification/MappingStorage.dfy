/**
 * The manager's storage as the object the manager holds (internal/app/manager/state.go).  Every method is
 * proved to do to the abstract value Model() what StateModel says, over either kind of store.
 */
module MappingStorages {
  import opened Seqs
  import opened Tasks
  import opened StateModel
  import opened Stores

  class MappingStorage {
    const taskDb: Store<Task>
    // The records of these three stores are never changed through a pointer, so they are kept as values.
    var eventDb: map<Uuid, TaskEvent>
    var taskWorkerDb: map<Uuid, Uuid>
    var workerNameDb: map<Uuid, string>

    // Derived indexes
    var workers: seq<Uuid>
    var workerTaskMap: map<Uuid, seq<Uuid>>
    var workerActiveTaskCountMap: map<Uuid, int>

    ghost predicate Valid()
      reads this, taskDb
    {
      taskDb.Valid()
    }

    ghost function Model(): Storage
      reads this, taskDb, taskDb.cells.Values
    {
      Storage(taskDb.Contents(), eventDb, taskWorkerDb, workerNameDb, workers, workerTaskMap, workerActiveTaskCountMap)
    }

    /** The outcome of a write to a store of this storage's kind. */
    predicate Durable(diskOk: bool)
    {
      !taskDb.persistent || diskOk
    }

    constructor (persistent: bool)
      ensures Valid() && fresh(taskDb) && taskDb.persistent == persistent
      ensures taskDb.cells == map[]
      ensures Model() == Storage(map[], map[], map[], map[], [], map[], map[])
    {
      taskDb := new Store(persistent);
      eventDb, taskWorkerDb, workerNameDb := map[], map[], map[];
      workers, workerTaskMap, workerActiveTaskCountMap := [], map[], map[];
      new;
      assert taskDb.Contents() == map[];
    }

    /** Rebuilds the three indexes from the stores, listing every store in an arbitrary order. */
    method Rehydrate() returns (ok: bool)
      requires Valid()
      modifies this`workers, this`workerTaskMap, this`workerActiveTaskCountMap
      ensures SameStores(Model(), old(Model()))
      ensures ok <==> Loadable(old(Model()))
      ensures ok ==> Rehydrated(Model())
    {
      RebuildLists();
      ok := RebuildCounts();
    }

    /** The first half of the rebuild: the task lists of every worker, and the workers. */
    method RebuildLists()
      modifies this`workers, this`workerTaskMap
      ensures Agree(Model())
    {
      var grouped := GroupTasks(taskWorkerDb);
      var taskMap := AddNamed(workerNameDb.Keys, grouped);
      workers := Enumerate(taskMap.Keys);
      workerTaskMap := taskMap;
      assert forall w :: Model().ListOf(w) == if w in grouped then grouped[w] else [];
      GroupedAgrees(Model(), grouped);
    }

    /** The task lists of the workers that have tasks. */
    static method GroupTasks(placement: map<Uuid, Uuid>) returns (taskMap: map<Uuid, seq<Uuid>>)
      ensures Grouped(placement, {}, taskMap)
    {
      taskMap := map[];
      var todo := placement.Keys;
      while todo != {}
        invariant todo <= placement.Keys
        invariant Grouped(placement, todo, taskMap)
        decreases |todo|
      {
        var id :| id in todo;
        var w := placement[id];
        var slice := if w in taskMap then taskMap[w] else [];
        GroupedStep(placement, todo, taskMap, id);
        taskMap := taskMap[w := slice + [id]];
        todo := todo - {id};
      }
    }

    /** An empty list for every registered worker without tasks. */
    static method AddNamed(named: set<Uuid>, grouped: map<Uuid, seq<Uuid>>) returns (taskMap: map<Uuid, seq<Uuid>>)
      ensures forall w :: w in taskMap <==> w in grouped || w in named
      ensures forall w | w in taskMap :: taskMap[w] == if w in grouped then grouped[w] else []
    {
      taskMap := grouped;
      var todo := named;
      while todo != {}
        invariant todo <= named
        invariant forall w :: w in taskMap <==> w in grouped || (w in named && w !in todo)
        invariant forall w | w in taskMap :: taskMap[w] == if w in grouped then grouped[w] else []
        decreases |todo|
      {
        var w :| w in todo;
        taskMap := taskMap[w := if w in taskMap then taskMap[w] else []];
        todo := todo - {w};
      }
    }

    /** The entries outside `todo` are grouped by worker, without duplicates or empty groups. */
    static ghost predicate Grouped(placement: map<Uuid, Uuid>, todo: set<Uuid>, taskMap: map<Uuid, seq<Uuid>>) {
      && (forall w | w in taskMap :: NoDup(taskMap[w]) && taskMap[w] != [])
      && (forall w, id | w in taskMap :: id in taskMap[w] <==> id in placement && id !in todo && placement[id] == w)
      && (forall id | id in placement && id !in todo :: placement[id] in taskMap)
    }

    static lemma GroupedStep(placement: map<Uuid, Uuid>, todo: set<Uuid>, taskMap: map<Uuid, seq<Uuid>>, id: Uuid)
      requires todo <= placement.Keys && id in todo && Grouped(placement, todo, taskMap)
      ensures var w := placement[id];
              Grouped(placement, todo - {id}, taskMap[w := (if w in taskMap then taskMap[w] else []) + [id]])
    {
      var w := placement[id];
      var slice := if w in taskMap then taskMap[w] else [];
      var after := taskMap[w := slice + [id]];
      NoDupSnoc(slice, id);
      forall x, y | x in after
        ensures y in after[x] <==> y in placement && y !in todo - {id} && placement[y] == x
      {
        if x != w {
          assert after[x] == taskMap[x];
        } else {
          assert y in after[w] <==> y in slice || y == id;
        }
      }
    }

    static lemma GroupedAgrees(s: Storage, grouped: map<Uuid, seq<Uuid>>)
      requires Grouped(s.placement, {}, grouped)
      requires NoDup(s.workers)
      requires forall w :: w in s.workers <==> w in s.lists
      requires forall w :: w in s.lists <==> w in grouped || w in s.names
      requires forall w :: s.ListOf(w) == if w in grouped then grouped[w] else []
      ensures Agree(s)
    {
      forall w
        ensures HasTask(s, w) <==> w in grouped
      {
        if w in grouped {
          var id := grouped[w][0];
          assert id in grouped[w];
          assert id in s.placement && s.placement[id] == w;
        }
      }
      forall w, id
        ensures id in s.ListOf(w) <==> id in s.placement && s.placement[id] == w
        ensures NoDup(s.ListOf(w))
      {
        GroupIsList(s, grouped, w, id);
      }
    }

    static lemma GroupIsList(s: Storage, grouped: map<Uuid, seq<Uuid>>, w: Uuid, id: Uuid)
      requires Grouped(s.placement, {}, grouped)
      requires s.ListOf(w) == if w in grouped then grouped[w] else []
      ensures id in s.ListOf(w) <==> id in s.placement && s.placement[id] == w
      ensures NoDup(s.ListOf(w))
    {
    }

    /** The keys of a map in an arbitrary order. */
    static method Enumerate(keys: set<Uuid>) returns (order: seq<Uuid>)
      ensures NoDup(order)
      ensures forall k :: k in order <==> k in keys
    {
      order := [];
      var todo := keys;
      while todo != {}
        invariant todo <= keys && NoDup(order)
        invariant forall k :: k in order <==> k in keys && k !in todo
        decreases |todo|
      {
        var k :| k in todo;
        NoDupSnoc(order, k);
        order, todo := order + [k], todo - {k};
      }
    }

    /** The second half: the active counters, or an error when an assigned task has no record. */
    method RebuildCounts() returns (ok: bool)
      requires Valid() && Agree(Model())
      modifies this`workerActiveTaskCountMap
      ensures ok <==> Loadable(old(Model()))
      ensures ok ==> Rehydrated(Model())
      ensures workers == old(workers) && workerTaskMap == old(workerTaskMap)
    {
      ghost var s := Model();
      var counts;
      ok, counts := CountAll(s);
      if ok {
        CountsAreRehydrated(s, counts);
        workerActiveTaskCountMap := counts;
        assert Model() == s.(counts := counts);
      }
    }

    /** The outer loop over the workers. */
    method CountAll(ghost s: Storage) returns (ok: bool, counts: map<Uuid, int>)
      requires Valid() && s == Model() && Agree(s)
      ensures ok <==> Loadable(s)
      ensures ok ==> forall w :: CountExact(s, counts, w)
    {
      counts := map[];
      var todo := workerTaskMap.Keys;
      forall w | w !in todo
        ensures CountExact(s, counts, w) && forall id | id in s.ListOf(w) :: id in s.tasks
      {
        NoListNoActive(s, w);
      }
      while todo != {}
        invariant todo <= workerTaskMap.Keys && taskDb.Contents() == s.tasks
        invariant forall w | w !in todo :: CountExact(s, counts, w)
        invariant forall w | w in todo :: w !in counts
        invariant forall w | w !in todo :: Present(s, w)
        decreases |todo|
      {
        var w :| w in todo;
        ghost var before := counts;
        assert s.ListOf(w) == workerTaskMap[w];
        var missing;
        counts, missing := CountList(workerTaskMap[w], w, counts, s.tasks);
        if missing {
          MissingNotLoadable(s, w);
          return false, counts;
        }
        ListCountsExactly(s, w, before, counts);
        forall x | x != w && x !in todo
          ensures CountExact(s, counts, x)
        {
          assert CountExact(s, before, x);
        }
        todo := todo - {w};
      }
      PresentLoadable(s);
      ok := true;
    }

    /** Every task of w has a record. */
    static ghost predicate Present(s: Storage, w: Uuid) {
      forall id | id in s.ListOf(w) :: id in s.tasks
    }

    static lemma MissingNotLoadable(s: Storage, w: Uuid)
      requires Agree(s) && !Present(s, w)
      ensures !Loadable(s)
    {
      var id :| id in s.ListOf(w) && id !in s.tasks;
      assert id in s.placement;
    }

    static lemma PresentLoadable(s: Storage)
      requires Agree(s) && forall w :: Present(s, w)
      ensures Loadable(s)
    {
      forall id | id in s.placement
        ensures id in s.tasks
      {
        assert id in s.ListOf(s.placement[id]);
        assert Present(s, s.placement[id]);
      }
    }

    static ghost predicate CountExact(s: Storage, counts: map<Uuid, int>, w: Uuid) {
      (if w in counts then counts[w] else 0) == |ActiveIds(s, w)|
    }

    static lemma CountsAreRehydrated(s: Storage, counts: map<Uuid, int>)
      requires Agree(s) && Loadable(s) && forall w :: CountExact(s, counts, w)
      ensures Rehydrated(s.(counts := counts))
    {
      var r := s.(counts := counts);
      forall w
        ensures Drift(r, w) == 0
      {
        assert CountExact(s, counts, w);
        assert ActiveIds(r, w) == ActiveIds(s, w);
      }
      assert forall w :: HasTask(r, w) <==> HasTask(s, w);
      assert forall w :: r.ListOf(w) == s.ListOf(w);
    }

    /** A worker without a list has no assigned task. */
    static lemma NoListNoActive(s: Storage, w: Uuid)
      requires Agree(s) && w !in s.lists
      ensures CountExact(s, map[], w)
    {
      assert s.ListOf(w) == [];
      assert forall id :: id in s.ListOf(w) <==> id in s.placement && s.placement[id] == w;
      assert ActiveIds(s, w) == {};
    }

    static ghost function ActiveCount(tasks: map<Uuid, Task>, ids: seq<Uuid>): nat {
      if ids == [] then 0
      else
        var last := ids[|ids| - 1];
        ActiveCount(tasks, ids[..|ids| - 1]) + if last in tasks && IsActive(tasks[last].state) then 1 else 0
    }

    static lemma {:induction false} ActiveCountIsSize(s: Storage, ids: seq<Uuid>)
      requires NoDup(ids)
      ensures ActiveCount(s.tasks, ids) == |set id | id in ids && WasActive(s, id)|
    {
      var size := set id | id in ids && WasActive(s, id);
      if ids == [] {
        assert size == {};
      } else {
        var front, last := ids[..|ids| - 1], ids[|ids| - 1];
        assert ids == front + [last];
        ActiveCountIsSize(s, front);
        var before := set id | id in front && WasActive(s, id);
        SizeAfterChange(before, size, last);
      }
    }

    /** Counting the list of w counts its active tasks. */
    static lemma ListCountsExactly(s: Storage, w: Uuid, before: map<Uuid, int>, counts: map<Uuid, int>)
      requires Agree(s) && w !in before
      requires counts == Raised(before, w, ActiveCount(s.tasks, s.ListOf(w)))
      ensures CountExact(s, counts, w)
    {
      ActiveCountIsSize(s, s.ListOf(w));
      assert (set id | id in s.ListOf(w) && WasActive(s, id)) == ActiveIds(s, w);
    }

    static ghost function Raised(before: map<Uuid, int>, w: Uuid, n: nat): map<Uuid, int> {
      if n == 0 then before else before[w := n]
    }

    /** The inner loop: one worker's list of tasks. */
    method CountList(ids: seq<Uuid>, w: Uuid, before: map<Uuid, int>, ghost tasks: map<Uuid, Task>)
      returns (counts: map<Uuid, int>, missing: bool)
      requires taskDb.Contents() == tasks && w !in before
      ensures missing <==> exists id :: id in ids && id !in tasks
      ensures !missing ==> counts == Raised(before, w, ActiveCount(tasks, ids))
      ensures taskDb.Contents() == tasks
    {
      counts := before;
      for i := 0 to |ids|
        invariant taskDb.Contents() == tasks
        invariant forall j | 0 <= j < i :: ids[j] in tasks
        invariant counts == Raised(before, w, ActiveCount(tasks, ids[..i]))
      {
        var present, active := ActiveRecord(ids[i], tasks);
        if !present {
          assert ids[i] in ids;
          return counts, true;
        }
        assert ids[..i + 1][..i] == ids[..i];
        if active {
          counts := counts[w := (if w in counts then counts[w] else 0) + 1];
        }
      }
      missing := false;
      assert ids[..|ids|] == ids;
    }

    method ActiveRecord(id: Uuid, ghost tasks: map<Uuid, Task>) returns (present: bool, active: bool)
      requires taskDb.Contents() == tasks
      ensures taskDb.Contents() == tasks
      ensures present <==> id in tasks
      ensures active <==> id in tasks && IsActive(tasks[id].state)
    {
      var t := taskDb.Get(id);
      present := t != null;
      active := t != null && (t.value.state == Scheduled || t.value.state == Running);
    }

    /** "unknown" for a worker that never registered. */
    method GetWorkerMetadata(id: Uuid) returns (workerName: string, activeTaskCount: int)
      requires Valid()
      ensures workerName == if id in workerNameDb then workerNameDb[id] else "unknown"
      ensures activeTaskCount == Model().CountOf(id)
    {
      activeTaskCount := if id in workerActiveTaskCountMap then workerActiveTaskCountMap[id] else 0;
      workerName := if id in workerNameDb then workerNameDb[id] else "unknown";
    }

    method GetWorkerIds() returns (ids: seq<Uuid>)
      ensures ids == workers
    {
      ids := workers;
    }

    method GetAssignedWorker(id: Uuid) returns (found: bool, w: Uuid)
      ensures found <==> id in taskWorkerDb
      ensures found ==> w == taskWorkerDb[id]
    {
      found := id in taskWorkerDb;
      if found {
        w := taskWorkerDb[id];
      } else {
        w := *;
      }
    }

    method RegisterWorker(w: Uuid, name: string, diskOk: bool) returns (err: bool)
      requires Valid()
      modifies this
      ensures Valid() && Model() == Register(old(Model()), w, name, Durable(diskOk))
      ensures err == !Durable(diskOk)
    {
      var known := w in workerNameDb;
      if !Durable(diskOk) {
        return true;
      }
      workerNameDb := workerNameDb[w := name];
      if !known {
        workers := workers + [w];
      }
      err := false;
    }

    /** The five assignments to the record that was read. */
    static method Overwrite(existing: Cell<Task>, report: Task)
      modifies existing
      ensures existing.value == Merge(old(existing.value), report)
    {
      existing.value := existing.value.(state := report.state);
      existing.value := existing.value.(startTime := report.startTime);
      existing.value := existing.value.(finishTime := report.finishTime);
      existing.value := existing.value.(containerId := report.containerId);
      existing.value := existing.value.(portBindings := report.portBindings);
    }

    /** Changes the record that Get returned and puts it back. */
    method WriteBack(existing: Cell<Task>, report: Task, diskOk: bool) returns (ok: bool)
      requires Valid() && report.id in taskDb.cells
      requires existing.value == taskDb.cells[report.id].value
      requires if taskDb.persistent then existing !in taskDb.cells.Values else existing == taskDb.cells[report.id]
      modifies taskDb, existing
      ensures Valid() && ok == Durable(diskOk)
      ensures taskDb.Contents() ==
              if ok then old(taskDb.Contents())[report.id := Merge(old(existing.value), report)]
              else old(taskDb.Contents())
      ensures fresh(taskDb.cells.Values - old(taskDb.cells.Values))
    {
      Overwrite(existing, report);
      if !taskDb.persistent {
        taskDb.ChangedThroughPointer(report.id);
      } else {
        assert taskDb.Contents() == old(taskDb.Contents());
      }
      ok := taskDb.Put(report.id, existing, diskOk);
    }

    /**
     * The report is merged into the stored record.  Over the in-memory store the record is changed through
     * the stored pointer before the Put; over the persistent store a copy is changed and then written.
     */
    method UpdateTask(report: Task, diskOk: bool) returns (err: bool)
      requires Valid()
      modifies this, taskDb, taskDb.cells.Values
      ensures Valid() && Model() == Update(old(Model()), report, Durable(diskOk))
      ensures err == !(Updatable(old(Model()), report) && Durable(diskOk))
      ensures fresh(taskDb.cells.Values - old(taskDb.cells.Values))
    {
      var existing := taskDb.Get(report.id);
      if existing == null {
        return true;
      }
      if existing.value.state != report.state && (report.state == Completed || report.state == Failed) {
        err := CountDown(report.id);
        if err {
          return;
        }
      }
      ghost var counted := Model();
      hide Merge;
      var ok := WriteBack(existing, report, diskOk);
      assert Model() == counted.(tasks := taskDb.Contents());
      err := !ok;
    }

    /** The counter of the task's worker goes down before the record is written; without a worker there is an error. */
    method CountDown(id: Uuid) returns (err: bool)
      requires Valid()
      modifies this`workerActiveTaskCountMap
      ensures Valid() && err == (id !in old(Model()).placement)
      ensures var s := old(Model());
              Model() == if err then s else s.(counts := s.counts[s.placement[id] := s.CountOf(s.placement[id]) - 1])
    {
      var found, w := GetAssignedWorker(id);
      if !found {
        return true;
      }
      var count := if w in workerActiveTaskCountMap then workerActiveTaskCountMap[w] else 0;
      workerActiveTaskCountMap := workerActiveTaskCountMap[w := count - 1];
      err := false;
    }

    /** Returns the Scheduled copy that was stored, or null when a write failed. */
    method AssignTaskToWorker(t: Task, w: Uuid, taskDiskOk: bool, assignDiskOk: bool) returns (stored: Cell?<Task>)
      requires Valid()
      modifies this, taskDb
      ensures Valid()
      ensures Model() == Assign(old(Model()), t, w, Durable(taskDiskOk), Durable(assignDiskOk))
      ensures stored != null <==> Durable(taskDiskOk) && Durable(assignDiskOk)
      ensures stored != null ==> stored.value == t.(state := Scheduled)
      ensures fresh(taskDb.cells.Values - old(taskDb.cells.Values))
    {
      var taskToAssign := new Cell(t.(state := Scheduled));
      var ok := taskDb.Put(t.id, taskToAssign, taskDiskOk);
      if !ok {
        return null;
      }
      if !Durable(assignDiskOk) {
        return null;
      }
      taskWorkerDb := taskWorkerDb[t.id := w];
      Link(t.id, w);
      stored := taskToAssign;
    }

    /** Adds the task to the worker's list and counts it, unless the list has it already. */
    method Link(id: Uuid, w: Uuid)
      modifies this`workerTaskMap, this`workerActiveTaskCountMap
      ensures var list := if w in old(workerTaskMap) then old(workerTaskMap)[w] else [];
              var count := if w in old(workerActiveTaskCountMap) then old(workerActiveTaskCountMap)[w] else 0;
              if id in list
              then workerTaskMap == old(workerTaskMap) && workerActiveTaskCountMap == old(workerActiveTaskCountMap)
              else workerTaskMap == old(workerTaskMap)[w := list + [id]]
                   && workerActiveTaskCountMap == old(workerActiveTaskCountMap)[w := count + 1]
    {
      var slice := if w in workerTaskMap then workerTaskMap[w] else [];
      if id !in slice {
        workerTaskMap := workerTaskMap[w := slice + [id]];
        var count := if w in workerActiveTaskCountMap then workerActiveTaskCountMap[w] else 0;
        workerActiveTaskCountMap := workerActiveTaskCountMap[w := count + 1];
      }
    }

    method UpdateTaskEvent(ev: TaskEvent, diskOk: bool) returns (err: bool)
      requires Valid()
      modifies this`eventDb
      ensures Valid() && Model() == LogEvent(old(Model()), ev, Durable(diskOk))
      ensures err == !Durable(diskOk)
    {
      if Durable(diskOk) {
        eventDb := eventDb[ev.id := ev];
      }
      err := !Durable(diskOk);
    }

    /** The stored pointer itself (or a copy, over the persistent store). */
    method GetTask(id: Uuid) returns (t: Cell?<Task>)
      ensures t == null <==> id !in Model().tasks
      ensures t != null ==> t.value == Model().tasks[id]
    {
      t := taskDb.Get(id);
    }

    /** All records in the order the store lists them. */
    method GetTasks() returns (tasks: seq<Task>)
      requires Valid()
      ensures Enumerates(tasks, Model().tasks)
    {
      ghost var db := taskDb.Contents();
      var ps, keys := taskDb.List();
      tasks := [];
      for i := 0 to |ps|
        invariant |tasks| == i && forall j | 0 <= j < i :: tasks[j] == ps[j].value
      {
        tasks := tasks + [ps[i].value];
      }
      assert taskDb.Contents() == db && KeyedBy(tasks, keys, db);
    }
  }

  /** One call by a client of the storage. */
  method Serve(storage: MappingStorage, c: Call) returns (r: Response)
    requires storage.Valid()
    modifies storage, storage.taskDb, storage.taskDb.cells.Values
    ensures storage.Valid() && fresh(storage.taskDb.cells.Values - old(storage.taskDb.cells.Values))
    ensures storage.Model() == Perform(old(storage.Model()), c, storage.taskDb.persistent)
    ensures Answered(old(storage.Model()), c, storage.taskDb.persistent, r)
  {
    hide Register, Update, Assign, LogEvent, Updatable, Enumerates;
    if c.RegisterCall? || c.UpdateCall? || c.AssignCall? || c.LogCall? {
      var err := ServeWrite(storage, c);
      r := Wrote(err);
    } else {
      ghost var s := storage.Model();
      r := ServeRead(storage, c);
      assert storage.Model() == s;
    }
  }

  method ServeWrite(storage: MappingStorage, c: Call) returns (err: bool)
    requires storage.Valid() && (c.RegisterCall? || c.UpdateCall? || c.AssignCall? || c.LogCall?)
    modifies storage, storage.taskDb, storage.taskDb.cells.Values
    ensures storage.Valid() && fresh(storage.taskDb.cells.Values - old(storage.taskDb.cells.Values))
    ensures storage.Model() == Perform(old(storage.Model()), c, storage.taskDb.persistent)
    ensures Answered(old(storage.Model()), c, storage.taskDb.persistent, Wrote(err))
  {
    hide Register, Update, Assign, LogEvent, Updatable;
    match c {
      case RegisterCall(w, name, ok) => err := storage.RegisterWorker(w, name, ok);
      case UpdateCall(t, ok) => err := storage.UpdateTask(t, ok);
      case AssignCall(t, w, taskOk, assignOk) =>
        var stored := storage.AssignTaskToWorker(t, w, taskOk, assignOk);
        err := stored == null;
      case LogCall(ev, ok) => err := storage.UpdateTaskEvent(ev, ok);
    }
  }

  /** Reading changes nothing. */
  method ServeRead(storage: MappingStorage, c: Call) returns (r: Response)
    requires storage.Valid() && !(c.RegisterCall? || c.UpdateCall? || c.AssignCall? || c.LogCall?)
    ensures Answered(storage.Model(), c, storage.taskDb.persistent, r)
  {
    hide Enumerates;
    match c {
      case TaskCall(id) =>
        var t := storage.GetTask(id);
        r := TaskReply(if t == null then None else Some(t.value));
      case TasksCall =>
        var tasks := storage.GetTasks();
        r := TasksReply(tasks);
      case AssignedWorkerCall(id) =>
        var found, w := storage.GetAssignedWorker(id);
        r := WorkerReply(if found then Some(w) else None);
      case WorkerIdsCall =>
        var ids := storage.GetWorkerIds();
        r := WorkerIdsReply(ids);
      case MetadataCall(w) =>
        var name, count := storage.GetWorkerMetadata(w);
        r := MetadataReply(name, count);
    }
  }

  /** Any sequence of calls: storage and replies are those of the map of values, over either kind of store. */
  method ServeAll(storage: MappingStorage, calls: seq<Call>) returns (replies: seq<Response>)
    requires storage.Valid()
    modifies storage, storage.taskDb, storage.taskDb.cells.Values
    ensures storage.Valid()
    ensures storage.Model() == PerformAll(old(storage.Model()), calls, storage.taskDb.persistent)
    ensures AllAnswer(old(storage.Model()), calls, storage.taskDb.persistent, replies)
  {
    replies := [];
    ghost var s0 := storage.Model();
    hide Perform, Answered, PerformAll;
    NothingAsked(s0, storage.taskDb.persistent);
    hide AllAnswer;
    for i := 0 to |calls|
      invariant storage.Valid() && fresh(storage.taskDb.cells.Values - old(storage.taskDb.cells.Values))
      invariant storage.Model() == PerformAll(s0, calls[..i], storage.taskDb.persistent)
      invariant AllAnswer(s0, calls[..i], storage.taskDb.persistent, replies)
    {
      var r := Serve(storage, calls[i]);
      OneMoreAnswers(s0, calls, i, storage.taskDb.persistent, replies, r);
      replies := replies + [r];
    }
    assert calls[..|calls|] == calls;
  }
}
