/**
 * The value of the manager's storage (internal/app/manager/state.go) and what each operation does to it.
 * Four stores survive a restart; three indexes are derived from them.  Every Put may fail: its outcome is
 * an argument, `true` when the write reached the store.
 */
module StateModel {
  import opened Seqs
  import opened Tasks

  datatype Storage = Storage(
    tasks: map<Uuid, Task>,
    events: map<Uuid, TaskEvent>,
    placement: map<Uuid, Uuid>,
    names: map<Uuid, string>,
    workers: seq<Uuid>,
    lists: map<Uuid, seq<Uuid>>,
    counts: map<Uuid, int>)
  {
    /** A missing list reads as the empty list, a missing counter as zero. */
    function ListOf(w: Uuid): seq<Uuid> {
      if w in lists then lists[w] else []
    }

    function CountOf(w: Uuid): int {
      if w in counts then counts[w] else 0
    }
  }

  // ---------- the operations ----------

  function Register(s: Storage, w: Uuid, name: string, ok: bool): Storage {
    if !ok then s
    else s.(names := s.names[w := name],
            workers := if w in s.names then s.workers else s.workers + [w])
  }

  /** What a report overwrites in the stored record: the five fields a worker owns. */
  function Merge(existing: Task, report: Task): Task {
    existing.(state := report.state, startTime := report.startTime, finishTime := report.finishTime,
              containerId := report.containerId, portBindings := report.portBindings)
  }

  /** A report that moves the task into a terminal state lowers the counter of its worker. */
  predicate Lowers(existing: Task, report: Task) {
    existing.state != report.state && IsTerminal(report.state)
  }

  /** The report is applied only to a stored task, and a lowering one only to an assigned task. */
  predicate Updatable(s: Storage, report: Task) {
    && report.id in s.tasks
    && (Lowers(s.tasks[report.id], report) ==> report.id in s.placement)
  }

  function CountsAfter(s: Storage, report: Task): map<Uuid, int>
    requires Updatable(s, report)
  {
    if Lowers(s.tasks[report.id], report)
    then var w := s.placement[report.id]; s.counts[w := s.CountOf(w) - 1]
    else s.counts
  }

  function TasksAfter(s: Storage, report: Task, ok: bool): map<Uuid, Task>
    requires Updatable(s, report)
  {
    if ok then s.tasks[report.id := Merge(s.tasks[report.id], report)] else s.tasks
  }

  /** The counter moves before the Put, so a lost write leaves it lowered. */
  function Update(s: Storage, report: Task, ok: bool): Storage {
    if !Updatable(s, report) then s
    else s.(counts := CountsAfter(s, report), tasks := TasksAfter(s, report, ok))
  }

  /** Two Puts, the task record first; the indexes change only after both. */
  function Assign(s: Storage, t: Task, w: Uuid, taskOk: bool, assignOk: bool): Storage {
    if !taskOk then s
    else
      var s1 := s.(tasks := s.tasks[t.id := t.(state := Scheduled)]);
      if !assignOk then s1
      else
        var s2 := s1.(placement := s1.placement[t.id := w]);
        if t.id in s2.ListOf(w) then s2
        else s2.(lists := s2.lists[w := s2.ListOf(w) + [t.id]], counts := s2.counts[w := s2.CountOf(w) + 1])
  }

  function LogEvent(s: Storage, ev: TaskEvent, ok: bool): Storage {
    if ok then s.(events := s.events[ev.id := ev]) else s
  }

  // ---------- any sequence of operations ----------

  /** A call on the storage with the outcomes of its writes, were they to reach a disk. */
  datatype Call =
    | RegisterCall(worker: Uuid, name: string, ok: bool)
    | UpdateCall(report: Task, ok: bool)
    | AssignCall(task: Task, to: Uuid, taskOk: bool, assignOk: bool)
    | LogCall(event: TaskEvent, ok: bool)
    | TaskCall(id: Uuid)
    | TasksCall
    | AssignedWorkerCall(id: Uuid)
    | WorkerIdsCall
    | MetadataCall(worker: Uuid)

  datatype Response =
    | Wrote(err: bool)
    | TaskReply(task: Option<Task>)
    | TasksReply(tasks: seq<Task>)
    | WorkerReply(worker: Option<Uuid>)
    | WorkerIdsReply(workers: seq<Uuid>)
    | MetadataReply(name: string, activeTasks: int)

  /** Over an in-memory store no write fails. */
  function Perform(s: Storage, c: Call, persistent: bool): Storage {
    match c
    case RegisterCall(w, name, ok) => Register(s, w, name, !persistent || ok)
    case UpdateCall(t, ok) => Update(s, t, !persistent || ok)
    case AssignCall(t, w, taskOk, assignOk) => Assign(s, t, w, !persistent || taskOk, !persistent || assignOk)
    case LogCall(ev, ok) => LogEvent(s, ev, !persistent || ok)
    case _ => s
  }

  /** Every record of the store once, in some order. */
  ghost predicate Enumerates(tasks: seq<Task>, db: map<Uuid, Task>) {
    exists keys: seq<Uuid> :: KeyedBy(tasks, keys, db)
  }

  ghost predicate KeyedBy(tasks: seq<Task>, keys: seq<Uuid>, db: map<Uuid, Task>) {
    && |keys| == |tasks| && NoDup(keys) && (forall k :: k in keys <==> k in db)
    && forall i | 0 <= i < |keys| :: keys[i] in db && tasks[i] == db[keys[i]]
  }

  /** What the call answers. */
  ghost predicate Answered(s: Storage, c: Call, persistent: bool, r: Response) {
    match c
    case RegisterCall(_, _, ok) => r == Wrote(persistent && !ok)
    case UpdateCall(t, ok) => r == Wrote(!Updatable(s, t) || (persistent && !ok))
    case AssignCall(_, _, taskOk, assignOk) => r == Wrote(persistent && !(taskOk && assignOk))
    case LogCall(_, ok) => r == Wrote(persistent && !ok)
    case TaskCall(id) => r == TaskReply(Lookup(s.tasks, id))
    case TasksCall => r.TasksReply? && Enumerates(r.tasks, s.tasks)
    case AssignedWorkerCall(id) => r == WorkerReply(Lookup(s.placement, id))
    case WorkerIdsCall => r == WorkerIdsReply(s.workers)
    case MetadataCall(w) => r == MetadataReply(if w in s.names then s.names[w] else "unknown", s.CountOf(w))
  }

  function PerformAll(s: Storage, calls: seq<Call>, persistent: bool): Storage {
    if calls == [] then s else Perform(PerformAll(s, calls[..|calls| - 1], persistent), calls[|calls| - 1], persistent)
  }

  /** Each call answers for the storage that the calls before it have left. */
  ghost predicate AllAnswer(s: Storage, calls: seq<Call>, persistent: bool, replies: seq<Response>) {
    && |replies| == |calls|
    && forall i | 0 <= i < |calls| :: Answered(PerformAll(s, calls[..i], persistent), calls[i], persistent, replies[i])
  }

  lemma NothingAsked(s: Storage, persistent: bool)
    ensures PerformAll(s, [], persistent) == s && AllAnswer(s, [], persistent, [])
  {
  }

  lemma OneMoreAnswers(s: Storage, calls: seq<Call>, i: nat, persistent: bool, replies: seq<Response>, r: Response)
    requires i < |calls| && AllAnswer(s, calls[..i], persistent, replies)
    requires Answered(PerformAll(s, calls[..i], persistent), calls[i], persistent, r)
    ensures AllAnswer(s, calls[..i + 1], persistent, replies + [r])
    ensures PerformAll(s, calls[..i + 1], persistent) ==
            Perform(PerformAll(s, calls[..i], persistent), calls[i], persistent)
  {
    hide Perform, Answered;
    var more := calls[..i + 1];
    assert more[..i] == calls[..i];
    assert PerformAll(s, more, persistent) == Perform(PerformAll(s, more[..i], persistent), more[i], persistent);
    hide PerformAll;
    forall j | 0 <= j <= i
      ensures Answered(PerformAll(s, more[..j], persistent), more[j], persistent, (replies + [r])[j])
    {
      if j < i {
        assert more[..j] == calls[..i][..j] && more[j] == calls[..i][j];
      }
    }
  }

  predicate Succeeds(c: Call) {
    match c
    case RegisterCall(_, _, ok) => ok
    case UpdateCall(_, ok) => ok
    case AssignCall(_, _, taskOk, assignOk) => taskOk && assignOk
    case LogCall(_, ok) => ok
    case _ => true
  }

  lemma {:induction false} SameOverBoth(s: Storage, calls: seq<Call>)
    requires forall i | 0 <= i < |calls| :: Succeeds(calls[i])
    ensures PerformAll(s, calls, true) == PerformAll(s, calls, false)
  {
    if calls != [] {
      SameOverBoth(s, calls[..|calls| - 1]);
      assert Succeeds(calls[|calls| - 1]);
    }
  }

  /** Shared pointers or copies: while writes succeed, every sequence of calls has the same results over both stores. */
  lemma StoreKindLeavesNoTrace(s: Storage, calls: seq<Call>, replies: seq<Response>)
    requires forall i | 0 <= i < |calls| :: Succeeds(calls[i])
    ensures PerformAll(s, calls, true) == PerformAll(s, calls, false)
    ensures AllAnswer(s, calls, true, replies) <==> AllAnswer(s, calls, false, replies)
  {
    hide Perform, Update, Updatable;
    SameOverBoth(s, calls);
    if |replies| == |calls| {
      forall i | 0 <= i < |calls|
        ensures Answered(PerformAll(s, calls[..i], true), calls[i], true, replies[i]) <==>
                Answered(PerformAll(s, calls[..i], false), calls[i], false, replies[i])
      {
        SameOverBoth(s, calls[..i]);
        assert Succeeds(calls[i]);
      }
    }
  }

  /** The name of the last registration of w that was stored. */
  function LastStoredName(calls: seq<Call>, persistent: bool, w: Uuid): Option<string> {
    if calls == [] then None
    else
      var last := calls[|calls| - 1];
      if last.RegisterCall? && last.worker == w && (!persistent || last.ok) then Some(last.name)
      else LastStoredName(calls[..|calls| - 1], persistent, w)
  }

  /** After any sequence of calls the name answered for a worker is that of its last stored registration. */
  lemma {:induction false} NameIsTheLastStored(s: Storage, calls: seq<Call>, persistent: bool, w: Uuid)
    ensures Lookup(PerformAll(s, calls, persistent).names, w) ==
            var last := LastStoredName(calls, persistent, w);
            if last.Some? then last else Lookup(s.names, w)
  {
    if calls != [] {
      NameIsTheLastStored(s, calls[..|calls| - 1], persistent, w);
      hide Update, Assign;
      var before, c := PerformAll(s, calls[..|calls| - 1], persistent), calls[|calls| - 1];
      match c {
        case UpdateCall(t, ok) => UpdateFrame(before, t, !persistent || ok);
        case AssignCall(t, to, taskOk, assignOk) =>
          AssignFrame(before, t, to, !persistent || taskOk, !persistent || assignOk);
        case _ =>
      }
    }
  }

  // ---------- what each operation leaves alone ----------

  lemma AssignFrame(s: Storage, t: Task, w: Uuid, taskOk: bool, assignOk: bool)
    ensures var r := Assign(s, t, w, taskOk, assignOk);
            && r.events == s.events && r.names == s.names && r.workers == s.workers
            && r.tasks == (if taskOk then s.tasks[t.id := t.(state := Scheduled)] else s.tasks)
            && r.placement == (if taskOk && assignOk then s.placement[t.id := w] else s.placement)
  {
  }

  lemma UpdateFrame(s: Storage, t: Task, ok: bool)
    ensures var r := Update(s, t, ok);
            && r.events == s.events && r.placement == s.placement && r.names == s.names
            && r.workers == s.workers && r.lists == s.lists && r.tasks.Keys == s.tasks.Keys
            && (forall id | id in s.tasks && id != t.id :: r.tasks[id] == s.tasks[id])
            && (t.id in s.tasks ==>
                r.tasks[t.id] == if ok && Updatable(s, t) then Merge(s.tasks[t.id], t) else s.tasks[t.id])
  {
  }

  /**
   * Exactly which reports are taken over: those of stored tasks, unless one ends a task that has no worker.
   * A refused report leaves the whole storage as it is.
   */
  lemma ReportIsTakenOver(s: Storage, t: Task)
    ensures var r := Update(s, t, true);
            var acceptable :=
              t.id in s.tasks && (t.id in s.placement || !IsTerminal(t.state) || s.tasks[t.id].state == t.state);
            && (acceptable ==>
                  t.id in r.tasks && AgreesWith(r.tasks[t.id], t) && SameIdentity(r.tasks[t.id], s.tasks[t.id]))
            && (!acceptable ==> r == s)
            && Update(s, t, false).tasks == s.tasks
  {
  }

  // ---------- the indexes against the stores ----------

  ghost predicate HasTask(s: Storage, w: Uuid) {
    exists id :: id in s.placement && s.placement[id] == w
  }

  /** The two list indexes are what a rebuild from the stores would give, up to order. */
  ghost predicate Agree(s: Storage) {
    && NoDup(s.workers)
    && (forall w :: w in s.workers <==> w in s.names || HasTask(s, w))
    && (forall w :: NoDup(s.ListOf(w)))
    && (forall w, id :: id in s.ListOf(w) <==> id in s.placement && s.placement[id] == w)
  }

  predicate WasActive(s: Storage, id: Uuid) {
    id in s.tasks && IsActive(s.tasks[id].state)
  }

  predicate Counts(s: Storage, id: Uuid, w: Uuid) {
    id in s.placement && s.placement[id] == w && WasActive(s, id)
  }

  ghost function ActiveIds(s: Storage, w: Uuid): set<Uuid> {
    set id | id in s.placement && Counts(s, id, w)
  }

  /** True number of active tasks of w, minus what the counter says. */
  ghost function Drift(s: Storage, w: Uuid): int {
    |ActiveIds(s, w)| - s.CountOf(w)
  }

  ghost predicate SameStores(s: Storage, t: Storage) {
    s.tasks == t.tasks && s.events == t.events && s.placement == t.placement && s.names == t.names
  }

  /** Every assigned task has a record: otherwise the rebuild reports an error. */
  ghost predicate Loadable(s: Storage) {
    s.placement.Keys <= s.tasks.Keys
  }

  /** The state a successful rebuild leaves, whatever order the store listed its entries in. */
  ghost predicate Rehydrated(s: Storage) {
    Agree(s) && Loadable(s) && forall w :: Drift(s, w) == 0
  }

  /**
   * Incremental equals rebuild: indexes that agree with the stores hold the same workers, and for each
   * worker the same tasks, as any rebuild from those stores; the counters differ by exactly the drift.
   */
  lemma AgreeIsRebuild(s: Storage, rebuilt: Storage)
    requires Agree(s) && SameStores(s, rebuilt) && Rehydrated(rebuilt)
    ensures multiset(s.workers) == multiset(rebuilt.workers)
    ensures forall w :: multiset(s.ListOf(w)) == multiset(rebuilt.ListOf(w))
    ensures forall w :: rebuilt.CountOf(w) == s.CountOf(w) + Drift(s, w)
  {
    assert forall w :: HasTask(s, w) <==> HasTask(rebuilt, w);
    SameElements(s.workers, rebuilt.workers);
    forall w
      ensures multiset(s.ListOf(w)) == multiset(rebuilt.ListOf(w))
      ensures rebuilt.CountOf(w) == s.CountOf(w) + Drift(s, w)
    {
      assert forall id :: id in s.ListOf(w) <==> id in s.placement && s.placement[id] == w;
      assert forall id :: id in rebuilt.ListOf(w) <==> id in s.placement && s.placement[id] == w;
      SameElements(s.ListOf(w), rebuilt.ListOf(w));
      assert ActiveIds(s, w) == ActiveIds(rebuilt, w);
      assert Drift(rebuilt, w) == 0;
    }
  }

  /** The elements of a set in some order. */
  ghost function Listing(ids: set<Uuid>): seq<Uuid> {
    if ids == {} then [] else var x :| x in ids; [x] + Listing(ids - {x})
  }

  lemma {:induction false} ListingLists(ids: set<Uuid>)
    ensures NoDup(Listing(ids)) && forall x :: x in Listing(ids) <==> x in ids
  {
    if ids != {} {
      var x := Listing(ids)[0];
      assert Listing(ids) == [x] + Listing(ids - {x});
      ListingLists(ids - {x});
    }
  }

  ghost function AssignedTo(placement: map<Uuid, Uuid>, w: Uuid): set<Uuid> {
    set id | id in placement && placement[id] == w
  }

  /** Indexes enumerated afresh from the stores. */
  ghost function Rebuilt(s: Storage): Storage {
    var known := s.names.Keys + s.placement.Values;
    s.(workers := Listing(known),
       lists := map w | w in known :: Listing(AssignedTo(s.placement, w)),
       counts := map w | w in known :: |ActiveIds(s, w)|)
  }

  /** What agreement says of one worker. */
  ghost predicate WorkerAgrees(s: Storage, w: Uuid) {
    && (w in s.workers <==> w in s.names || HasTask(s, w))
    && NoDup(s.ListOf(w))
    && (forall id :: id in s.ListOf(w) <==> id in s.placement && s.placement[id] == w)
  }

  lemma RebuiltWorker(s: Storage, w: Uuid)
    ensures WorkerAgrees(Rebuilt(s), w)
  {
    var r, known := Rebuilt(s), s.names.Keys + s.placement.Values;
    ListingLists(known);
    ListingLists(AssignedTo(s.placement, w));
    hide Listing;
    assert HasTask(r, w) <==> w in s.placement.Values;
    if w !in known {
      assert AssignedTo(s.placement, w) == {};
      assert r.ListOf(w) == [];
    }
  }

  lemma RebuiltCount(s: Storage, w: Uuid)
    ensures Drift(Rebuilt(s), w) == 0
  {
    hide Listing;
    assert ActiveIds(Rebuilt(s), w) == ActiveIds(s, w);
    if w !in s.names.Keys + s.placement.Values {
      assert ActiveIds(s, w) == {};
    }
  }

  /** Stores from which a rebuild succeeds have a rebuilt state. */
  lemma RebuildExists(s: Storage) returns (rebuilt: Storage)
    requires Loadable(s)
    ensures SameStores(s, rebuilt) && Rehydrated(rebuilt)
  {
    rebuilt := Rebuilt(s);
    ListingLists(s.names.Keys + s.placement.Values);
    assert NoDup(rebuilt.workers) && SameStores(s, rebuilt);
    hide Rebuilt, Drift;
    forall w
      ensures WorkerAgrees(rebuilt, w) && Drift(rebuilt, w) == 0
    {
      hide WorkerAgrees;
      RebuiltWorker(s, w);
      RebuiltCount(s, w);
    }
    WorkersAgree(rebuilt);
    hide Agree;
  }

  lemma WorkersAgree(s: Storage)
    requires NoDup(s.workers) && forall w :: WorkerAgrees(s, w)
    ensures Agree(s)
  {
    forall w
      ensures w in s.workers <==> w in s.names || HasTask(s, w)
      ensures NoDup(s.ListOf(w))
    {
      assert WorkerAgrees(s, w);
    }
    forall w, id
      ensures id in s.ListOf(w) <==> id in s.placement && s.placement[id] == w
    {
      assert WorkerAgrees(s, w);
    }
  }

  lemma SameElements(a: seq<Uuid>, b: seq<Uuid>)
    requires NoDup(a) && NoDup(b)
    requires forall x :: x in a <==> x in b
    ensures multiset(a) == multiset(b)
  {
    NoDupMultiset(a);
    NoDupMultiset(b);
    forall x
      ensures multiset(a)[x] == multiset(b)[x]
    {
      assert x in a <==> x in multiset(a);
      assert x in b <==> x in multiset(b);
    }
  }

  /** Registration keeps the indexes exactly when the worker is known by name or not known at all. */
  lemma RegisterKeepsAgree(s: Storage, w: Uuid, name: string)
    requires Agree(s)
    ensures Agree(Register(s, w, name, true)) <==> w in s.names || w !in s.workers
  {
    var r := Register(s, w, name, true);
    assert forall x :: r.ListOf(x) == s.ListOf(x);
    assert forall x :: HasTask(r, x) <==> HasTask(s, x);
    if w !in s.names {
      assert r.workers[|s.workers|] == w;
      if w in s.workers {
        var i :| 0 <= i < |s.workers| && s.workers[i] == w;
        assert r.workers[i] == w;
        assert !NoDup(r.workers);
      } else {
        NoDupSnoc(s.workers, w);
      }
    }
  }

  /** Assignment keeps the indexes exactly when the worker is known and the task is not moved. */
  lemma AssignKeepsAgree(s: Storage, t: Task, w: Uuid)
    requires Agree(s)
    ensures Agree(Assign(s, t, w, true, true)) <==>
            w in s.workers && (t.id in s.placement ==> s.placement[t.id] == w)
  {
    var r := Assign(s, t, w, true, true);
    assert t.id in r.placement && r.placement[t.id] == w;
    assert HasTask(r, w);
    if w in s.workers && (t.id in s.placement ==> s.placement[t.id] == w) {
      AssignStickyAgrees(s, t, w);
    } else if w in s.workers {
      var previous := s.placement[t.id];
      assert t.id in s.ListOf(previous) && r.ListOf(previous) == s.ListOf(previous);
      assert r.placement[t.id] != previous;
    }
  }

  lemma AssignStickyAgrees(s: Storage, t: Task, w: Uuid)
    requires Agree(s) && w in s.workers
    requires t.id in s.placement ==> s.placement[t.id] == w
    ensures Agree(Assign(s, t, w, true, true))
  {
    var r := Assign(s, t, w, true, true);
    forall x
      ensures x in r.workers <==> x in r.names || HasTask(r, x)
    {
      if HasTask(s, x) {
        var id :| id in s.placement && s.placement[id] == x;
        assert id in r.placement && r.placement[id] == x;
      }
      if HasTask(r, x) {
        var id :| id in r.placement && r.placement[id] == x;
        assert id == t.id || (id in s.placement && s.placement[id] == x);
      }
    }
    assert forall x | x != w :: r.ListOf(x) == s.ListOf(x);
    if t.id !in s.ListOf(w) {
      NoDupSnoc(s.ListOf(w), t.id);
      assert r.ListOf(w) == s.ListOf(w) + [t.id];
    }
  }

  lemma UpdateKeepsAgree(s: Storage, t: Task, ok: bool)
    requires Agree(s)
    ensures Agree(Update(s, t, ok))
  {
    var r := Update(s, t, ok);
    assert forall x :: r.ListOf(x) == s.ListOf(x);
    assert forall x :: HasTask(r, x) <==> HasTask(s, x);
  }

  // ---------- the drift law ----------

  /**
   * What one report adds to the drift of the task's worker.  Besides a task that comes back from a terminal
   * state (1) or flips between Completed and Failed (1), a lowering report whose write is lost counts 1,
   * and a report of Pending for an active task counts -1.
   */
  function UpdateMove(src: State, dest: State, ok: bool): int {
    if src == dest then 0
    else if IsTerminal(dest) then (if IsActive(src) && ok then 0 else 1)
    else if !ok then 0
    else (if IsActive(dest) && !IsActive(src) then 1 else 0) - (if IsActive(src) && !IsActive(dest) then 1 else 0)
  }

  function UpdateMoves(s: Storage, t: Task, ok: bool, w: Uuid): int {
    if t.id in s.tasks && t.id in s.placement && s.placement[t.id] == w
    then UpdateMove(s.tasks[t.id].state, t.state, ok) else 0
  }

  /**
   * What one assignment adds to the drift of x: 1 for an already assigned task that was not active, -1 for
   * the worker an active task is taken from.
   */
  function AssignMoves(s: Storage, t: Task, w: Uuid, taskOk: bool, assignOk: bool, x: Uuid): int {
    if !taskOk || t.id !in s.placement || s.placement[t.id] != x then 0
    else if !assignOk || w == x then (if WasActive(s, t.id) then 0 else 1)
    else (if WasActive(s, t.id) then -1 else 0)
  }

  /** Changing one task changes the active set of w by at most that task. */
  lemma ActiveAfterChange(s: Storage, r: Storage, id: Uuid, w: Uuid)
    requires forall x | x != id :: Counts(r, x, w) <==> Counts(s, x, w)
    ensures |ActiveIds(r, w)| == |ActiveIds(s, w)|
                                 + (if Counts(r, id, w) then 1 else 0) - (if Counts(s, id, w) then 1 else 0)
  {
    forall x
      ensures x in ActiveIds(s, w) <==> Counts(s, x, w)
      ensures x in ActiveIds(r, w) <==> Counts(r, x, w)
    {
    }
    SizeAfterChange(ActiveIds(s, w), ActiveIds(r, w), id);
  }

  lemma UpdateDriftLaw(s: Storage, t: Task, ok: bool, w: Uuid)
    ensures Drift(Update(s, t, ok), w) == Drift(s, w) + UpdateMoves(s, t, ok, w)
  {
    var r := Update(s, t, ok);
    if Updatable(s, t) && ok && t.id in s.placement && s.placement[t.id] == w {
      ActiveAfterChange(s, r, t.id, w);
    } else {
      assert ActiveIds(r, w) == ActiveIds(s, w);
    }
  }

  lemma AssignDriftLaw(s: Storage, t: Task, w: Uuid, taskOk: bool, assignOk: bool, x: Uuid)
    requires Agree(s)
    ensures Drift(Assign(s, t, w, taskOk, assignOk), x) == Drift(s, x) + AssignMoves(s, t, w, taskOk, assignOk, x)
  {
    var r := Assign(s, t, w, taskOk, assignOk);
    if taskOk {
      ActiveAfterChange(s, r, t.id, x);
      assert assignOk ==> (t.id in s.ListOf(w) <==> t.id in s.placement && s.placement[t.id] == w);
      assert assignOk && w == x && t.id !in s.ListOf(w) ==> r.CountOf(x) == s.CountOf(x) + 1;
      assert !(assignOk && w == x && t.id !in s.ListOf(w)) ==> r.CountOf(x) == s.CountOf(x);
    }
  }

  lemma LogKeepsDrift(s: Storage, ev: TaskEvent, ok: bool, x: Uuid)
    ensures Drift(LogEvent(s, ev, ok), x) == Drift(s, x)
  {
    assert ActiveIds(LogEvent(s, ev, ok), x) == ActiveIds(s, x);
  }

  lemma RegisterKeepsDrift(s: Storage, w: Uuid, name: string, ok: bool, x: Uuid)
    ensures Drift(Register(s, w, name, ok), x) == Drift(s, x)
  {
    assert ActiveIds(Register(s, w, name, ok), x) == ActiveIds(s, x);
  }

  // ---------- order of reports ----------

  /** The reports of one synchronisation, applied in the order they arrive; `ok` says which writes succeed. */
  function ApplyAll(s: Storage, reports: seq<Task>, ok: Uuid -> bool): Storage
    decreases |reports|
  {
    if reports == [] then s
    else ApplyAll(Update(s, reports[0], ok(reports[0].id)), reports[1..], ok)
  }

  ghost predicate DistinctIds(reports: seq<Task>) {
    forall i, j | 0 <= i < j < |reports| :: reports[i].id != reports[j].id
  }

  lemma UpdatesCommute(s: Storage, a: Task, b: Task, aOk: bool, bOk: bool)
    requires a.id != b.id
    ensures Update(Update(s, a, aOk), b, bOk) == Update(Update(s, b, bOk), a, aOk)
  {
    UpdateElsewhere(s, a, b, aOk);
    UpdateElsewhere(s, b, a, bOk);
    if Updatable(s, a) && Updatable(s, b) {
      CountsCommute(s, a, b, aOk, bOk);
      var sa, sb := Update(s, a, aOk), Update(s, b, bOk);
      assert TasksAfter(sa, b, bOk) == TasksAfter(sb, a, aOk);
    }
  }

  lemma CountsCommute(s: Storage, a: Task, b: Task, aOk: bool, bOk: bool)
    requires a.id != b.id && Updatable(s, a) && Updatable(s, b)
    requires Updatable(Update(s, a, aOk), b) && Updatable(Update(s, b, bOk), a)
    ensures CountsAfter(Update(s, a, aOk), b) == CountsAfter(Update(s, b, bOk), a)
  {
    UpdateElsewhere(s, a, b, aOk);
    UpdateElsewhere(s, b, a, bOk);
  }

  /** A report leaves everything another task's report looks at. */
  lemma UpdateElsewhere(s: Storage, a: Task, b: Task, ok: bool)
    requires a.id != b.id
    ensures Updatable(Update(s, a, ok), b) == Updatable(s, b)
    ensures b.id in s.tasks ==> Update(s, a, ok).tasks[b.id] == s.tasks[b.id]
    ensures Update(s, a, ok).placement == s.placement
  {
  }

  /** A report may be applied before all others whose ids differ from its own. */
  lemma {:induction false} ApplyFirst(s: Storage, reports: seq<Task>, i: nat, ok: Uuid -> bool)
    requires i < |reports| && DistinctIds(reports)
    ensures ApplyAll(s, reports, ok) == ApplyAll(s, [reports[i]] + Without(reports, i), ok)
    decreases |reports|
  {
    var x, rest := reports[i], Without(reports, i);
    assert ([x] + rest)[1..] == rest;
    if i == 0 {
      assert reports == [x] + rest;
    } else {
      var head, tail := reports[0], reports[1..];
      var rest' := Without(tail, i - 1);
      assert rest == [head] + rest';
      assert rest[1..] == rest';
      ApplyFirst(Update(s, head, ok(head.id)), tail, i - 1, ok);
      assert ([x] + rest')[1..] == rest';
      UpdatesCommute(s, head, x, ok(head.id), ok(x.id));
    }
  }

  /** Confluence: the order in which reports with distinct ids arrive does not matter, even when writes fail. */
  lemma {:induction false} SyncIsConfluent(s: Storage, reports: seq<Task>, arrival: seq<Task>, ok: Uuid -> bool)
    requires multiset(reports) == multiset(arrival) && DistinctIds(reports)
    ensures ApplyAll(s, reports, ok) == ApplyAll(s, arrival, ok)
    decreases |reports|
  {
    if reports == [] {
      assert |multiset(arrival)| == 0;
    } else {
      hide Update;
      var x := reports[0];
      var i := HeadInOther(reports, arrival);
      var rest := Without(arrival, i);
      assert DistinctIds(arrival) by {
        DistinctPermute(reports, arrival, (t: Task) => t.id);
      }
      ApplyFirst(s, arrival, i, ok);
      assert ([x] + rest)[1..] == rest;
      SyncIsConfluent(Update(s, x, ok(x.id)), reports[1..], rest, ok);
    }
  }

  /**
   * One report applied twice is the report applied once, exactly unless it lowered the counter and its write
   * was lost.
   */
  lemma UpdateIdempotent(s: Storage, t: Task, ok: bool)
    ensures Update(Update(s, t, ok), t, ok) == Update(s, t, ok) <==>
            ok || !Updatable(s, t) || !Lowers(s.tasks[t.id], t)
  {
    var once, twice := Update(s, t, ok), Update(Update(s, t, ok), t, ok);
    if Updatable(s, t) {
      if ok {
        assert twice.tasks == once.tasks;
      } else if Lowers(s.tasks[t.id], t) {
        var w := s.placement[t.id];
        assert twice.CountOf(w) == once.CountOf(w) - 1;
      }
    }
  }

  /** A storage a report has nothing left to change in. */
  predicate Absorbs(s: Storage, t: Task) {
    Update(s, t, true) == s
  }

  lemma AbsorbedStays(s: Storage, t: Task, u: Task)
    requires t.id != u.id && Absorbs(s, t)
    ensures Absorbs(Update(s, u, true), t)
  {
    UpdatesCommute(s, t, u, true, true);
  }

  lemma {:induction false} ApplyAllAbsorbs(s: Storage, reports: seq<Task>, t: Task)
    requires Absorbs(s, t) && forall i | 0 <= i < |reports| :: reports[i].id != t.id
    ensures Absorbs(ApplyAll(s, reports, _ => true), t)
    decreases |reports|
  {
    if reports != [] {
      AbsorbedStays(s, t, reports[0]);
      ApplyAllAbsorbs(Update(s, reports[0], true), reports[1..], t);
    }
  }

  lemma {:induction false} AllAbsorbed(s: Storage, reports: seq<Task>)
    requires DistinctIds(reports)
    ensures forall i | 0 <= i < |reports| :: Absorbs(ApplyAll(s, reports, _ => true), reports[i])
    decreases |reports|
  {
    if reports != [] {
      var s1 := Update(s, reports[0], true);
      UpdateIdempotent(s, reports[0], true);
      ApplyAllAbsorbs(s1, reports[1..], reports[0]);
      AllAbsorbed(s1, reports[1..]);
      forall i | 0 <= i < |reports|
        ensures Absorbs(ApplyAll(s, reports, _ => true), reports[i])
      {
        if i > 0 {
          assert reports[i] == reports[1..][i - 1];
        }
      }
    }
  }

  lemma {:induction false} AbsorbedReportsChangeNothing(s: Storage, reports: seq<Task>)
    requires forall i | 0 <= i < |reports| :: Absorbs(s, reports[i])
    ensures ApplyAll(s, reports, _ => true) == s
    decreases |reports|
  {
    if reports != [] {
      assert Absorbs(s, reports[0]);
      AbsorbedReportsChangeNothing(s, reports[1..]);
    }
  }

  /** Idempotence: the same reports, in any order, a second time change nothing. */
  lemma SyncIsIdempotent(s: Storage, reports: seq<Task>, again: seq<Task>)
    requires DistinctIds(reports) && multiset(reports) == multiset(again)
    ensures ApplyAll(ApplyAll(s, reports, _ => true), again, _ => true) == ApplyAll(s, reports, _ => true)
  {
    var s1 := ApplyAll(s, reports, _ => true);
    AllAbsorbed(s, reports);
    forall i | 0 <= i < |again|
      ensures Absorbs(s1, again[i])
    {
      SameMultisetMember(reports, again, again[i]);
      var k :| 0 <= k < |reports| && reports[k] == again[i];
    }
    AbsorbedReportsChangeNothing(s1, again);
  }

  /** The record agrees with the report on the fields a worker owns. */
  predicate AgreesWith(record: Task, report: Task) {
    && record.state == report.state && record.startTime == report.startTime && record.finishTime == report.finishTime
    && record.containerId == report.containerId && record.portBindings == report.portBindings
  }

  /** The fields no report touches. */
  predicate SameIdentity(a: Task, b: Task) {
    && a.id == b.id && a.name == b.name && a.image == b.image && a.cpu == b.cpu && a.memory == b.memory
       && a.disk == b.disk
    && a.exposedPorts == b.exposedPorts && a.restartPolicy == b.restartPolicy
  }

  /** What a synchronisation must achieve: reported tasks agree with their reports, nothing else moves. */
  ghost predicate Synced(before: Storage, after: Storage, reports: seq<Task>) {
    && before.events == after.events && before.placement == after.placement && before.names == after.names
    && before.workers == after.workers && before.lists == after.lists
    && before.tasks.Keys == after.tasks.Keys
    && (forall i | 0 <= i < |reports| ::
        reports[i].id in after.tasks && AgreesWith(after.tasks[reports[i].id], reports[i]))
    && (forall id | id in before.tasks :: SameIdentity(before.tasks[id], after.tasks[id]))
    && (forall id | id in before.tasks :: (forall i | 0 <= i < |reports| :: reports[i].id != id) ==>
        after.tasks[id] == before.tasks[id])
  }

  ghost predicate AllKnown(s: Storage, reports: seq<Task>) {
    forall i | 0 <= i < |reports| :: reports[i].id in s.tasks && reports[i].id in s.placement
  }

  ghost predicate OnlyTasksAndCounts(s: Storage, r: Storage) {
    && s.events == r.events && s.placement == r.placement && s.names == r.names
    && s.workers == r.workers && s.lists == r.lists && s.tasks.Keys == r.tasks.Keys
  }

  lemma {:induction false} SyncFrame(s: Storage, reports: seq<Task>, ok: Uuid -> bool)
    ensures OnlyTasksAndCounts(s, ApplyAll(s, reports, ok))
    decreases |reports|
  {
    if reports != [] {
      var s1 := Update(s, reports[0], ok(reports[0].id));
      assert s1.tasks.Keys == s.tasks.Keys;
      SyncFrame(s1, reports[1..], ok);
    }
  }

  lemma {:induction false} SyncLeavesOthers(s: Storage, reports: seq<Task>, id: Uuid)
    requires id in s.tasks && forall i | 0 <= i < |reports| :: reports[i].id != id
    ensures id in ApplyAll(s, reports, _ => true).tasks
    ensures ApplyAll(s, reports, _ => true).tasks[id] == s.tasks[id]
    decreases |reports|
  {
    if reports != [] {
      SyncLeavesOthers(Update(s, reports[0], true), reports[1..], id);
    }
  }

  lemma {:induction false} SyncMerges(s: Storage, reports: seq<Task>, i: nat)
    requires DistinctIds(reports) && AllKnown(s, reports) && i < |reports|
    ensures reports[i].id in ApplyAll(s, reports, _ => true).tasks
    ensures ApplyAll(s, reports, _ => true).tasks[reports[i].id] == Merge(s.tasks[reports[i].id], reports[i])
    decreases |reports|
  {
    var head, tail := reports[0], reports[1..];
    assert Updatable(s, head);
    var s1 := Update(s, head, true);
    if i == 0 {
      SyncLeavesOthers(s1, tail, head.id);
    } else {
      assert AllKnown(s1, tail) by {
        forall k | 0 <= k < |tail|
          ensures tail[k].id in s1.tasks && tail[k].id in s1.placement
        {
          assert tail[k] == reports[k + 1];
        }
      }
      SyncMerges(s1, tail, i - 1);
    }
  }

  /** When every reported task is stored and assigned, no report is refused and the storage ends in agreement. */
  lemma SyncAgrees(s: Storage, reports: seq<Task>)
    requires DistinctIds(reports) && AllKnown(s, reports)
    ensures Synced(s, ApplyAll(s, reports, _ => true), reports)
  {
    var r := ApplyAll(s, reports, _ => true);
    SyncFrame(s, reports, _ => true);
    forall i | 0 <= i < |reports|
      ensures reports[i].id in r.tasks && AgreesWith(r.tasks[reports[i].id], reports[i])
    {
      SyncMerges(s, reports, i);
    }
    forall id | id in s.tasks
      ensures SameIdentity(s.tasks[id], r.tasks[id])
      ensures (forall i | 0 <= i < |reports| :: reports[i].id != id) ==> r.tasks[id] == s.tasks[id]
    {
      if i :| 0 <= i < |reports| && reports[i].id == id {
        SyncMerges(s, reports, i);
      } else {
        SyncLeavesOthers(s, reports, id);
      }
    }
  }
}
