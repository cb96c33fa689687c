/**
 * The cluster of worker connections (internal/app/manager/cluster.go).  Which fetches succeed, what they
 * return and in which order they arrive is up to the network: parameters and arbitrary choices.
 */
module Cluster {
  import opened Seqs
  import opened Tasks
  import opened StateModel
  import opened MappingStorages
  import opened Schedulers

  /** A request put on a worker's connection. */
  datatype Request =
    | StartRequest(worker: Uuid, event: TaskEvent)
    | StopRequest(worker: Uuid, id: Uuid)

  /** What a worker reports about its machine. */
  datatype Stats = Stats(cores: Positive, loadAvg: real, memory: Positive, memoryUsedPercent: real, disk: int,
      diskUsedPercent: real)

  datatype NodeEntry = Appeared(worker: Uuid) | Disappeared(worker: Uuid)

  // ---------- polling ----------

  function NodeOf(s: Storage, w: Uuid, stats: Stats): Node {
    Node(if w in s.names then s.names[w] else "unknown", w, stats.cores, stats.loadAvg, stats.memory,
         stats.memoryUsedPercent, stats.disk, stats.diskUsedPercent, s.CountOf(w))
  }

  /** The nodes of the workers that have a connection and answer, in the order of the worker list. */
  function Polled(s: Storage, workers: seq<Uuid>, clients: set<Uuid>, stats: map<Uuid, Stats>): seq<Node> {
    if workers == [] then []
    else
      var w := workers[|workers| - 1];
      Polled(s, workers[..|workers| - 1], clients, stats)
      + if w in clients && w in stats then [NodeOf(s, w, stats[w])] else []
  }

  predicate Answering(workers: seq<Uuid>, clients: set<Uuid>, stats: map<Uuid, Stats>, w: Uuid) {
    w in workers && w in clients && w in stats
  }

  /** The node of a worker: its name and counter as the manager has them, all else as the worker answered. */
  predicate Shows(n: Node, s: Storage, w: Uuid, answer: Stats) {
    && n.workerUuid == w && n.name == (if w in s.names then s.names[w] else "unknown")
    && n.taskCount == (if w in s.counts then s.counts[w] else 0)
    && n.cores == answer.cores && n.cpuAverageLoad == answer.loadAvg
    && n.memory == answer.memory && n.memoryAllocatedPercent == answer.memoryUsedPercent
    && n.disk == answer.disk && n.diskAllocatedPercent == answer.diskUsedPercent
  }

  ghost predicate PolledFrom(n: Node, s: Storage, workers: seq<Uuid>, clients: set<Uuid>, stats: map<Uuid, Stats>) {
    Answering(workers, clients, stats, n.workerUuid) && Shows(n, s, n.workerUuid, stats[n.workerUuid])
  }

  /** A poll looks at the names and the counters only. */
  lemma {:induction false} PollIgnoresEvents(s: Storage, r: Storage, workers: seq<Uuid>, clients: set<Uuid>,
      stats: map<Uuid, Stats>)
    requires s.names == r.names && s.counts == r.counts
    ensures Polled(s, workers, clients, stats) == Polled(r, workers, clients, stats)
  {
    if workers != [] {
      PollIgnoresEvents(s, r, workers[..|workers| - 1], clients, stats);
    }
  }

  /** The poll holds exactly the workers with a connection that answered. */
  lemma {:induction false} PolledMembers(s: Storage, workers: seq<Uuid>, clients: set<Uuid>, stats: map<Uuid, Stats>,
      n: Node)
    ensures n in Polled(s, workers, clients, stats) <==> PolledFrom(n, s, workers, clients, stats)
  {
    if workers != [] {
      var front, w := workers[..|workers| - 1], workers[|workers| - 1];
      assert workers == front + [w];
      PolledMembers(s, front, clients, stats, n);
    }
  }

  /** Workers listed once give nodes with distinct ids. */
  lemma {:induction false} PolledDistinct(s: Storage, workers: seq<Uuid>, clients: set<Uuid>, stats: map<Uuid, Stats>)
    requires NoDup(workers)
    ensures DistinctNodes(Polled(s, workers, clients, stats))
  {
    if workers != [] {
      var front, w := workers[..|workers| - 1], workers[|workers| - 1];
      PolledDistinct(s, front, clients, stats);
      var nodes := Polled(s, front, clients, stats);
      forall i | 0 <= i < |nodes|
        ensures nodes[i].workerUuid != w
      {
        PolledMembers(s, front, clients, stats, nodes[i]);
        assert nodes[i] in nodes;
        assert w !in front;
      }
    }
  }

  // ---------- the scheduler's choice, over the answers themselves ----------

  /** The free part of a worker's disk, by its own answer. */
  function FreeDisk(x: Stats): real {
    (1.0 - 0.01 * x.diskUsedPercent) * x.disk as real
  }

  /** The answer leaves room for the task: on the free part of its disk, rounded towards zero. */
  predicate Fits(t: Task, x: Stats) {
    t.disk as real <= FreeDisk(x) || (FreeDisk(x) < 0.0 && t.disk as real < FreeDisk(x) + 1.0)
  }

  /** How much a worker with this answer would become more expensive. */
  function Growth(pow: real -> real, t: Task, x: Stats): real {
    var memory, load := x.memoryUsedPercent / 100.0, x.loadAvg / x.cores as real;
    pow(memory + t.memory as real / x.memory as real) - pow(memory) + (pow(load + t.cpu / x.cores as real) - pow(load))
  }

  /** A node is filtered by the answer behind it. */
  lemma FilteredByAnswer(t: Task, n: Node, s: Storage, w: Uuid, x: Stats)
    requires Shows(n, s, w, x)
    ensures HasDisk(t, n) <==> Fits(t, x)
  {
    SameFreeDisk(n, s, w, x);
    FilterAgainstDocument(t, n);
    assert DocumentedHasDisk(t, n) <==> t.disk as real <= DiskAvailable(n);
    hide HasDisk, DiskAvailable, DocumentedHasDisk, FreeDisk;
  }

  lemma SameFreeDisk(n: Node, s: Storage, w: Uuid, x: Stats)
    requires Shows(n, s, w, x)
    ensures DiskAvailable(n) == FreeDisk(x)
  {
  }

  /** And scored by it. */
  lemma ScoredByAnswer(pow: real -> real, t: Task, n: Node, s: Storage, w: Uuid, x: Stats)
    requires Shows(n, s, w, x)
    ensures Cost(pow, t, n) == Growth(pow, t, x)
  {
  }

  /**
   * The best choice over a poll: none exactly when no worker that answered has the disk, otherwise one that
   * answered, has it, and grows the least of all that have.
   */
  lemma ChoiceOverAnswers(pow: real -> real, t: Task, s: Storage, clients: set<Uuid>, stats: map<Uuid, Stats>,
      choice: Option<Uuid>)
    requires NoDup(s.workers) && BestChoice(pow, t, Polled(s, s.workers, clients, stats), choice)
    ensures choice.None? <==> forall v | Answering(s.workers, clients, stats, v) :: !Fits(t, stats[v])
    ensures choice.Some? ==>
              var w := choice.value;
              && Answering(s.workers, clients, stats, w) && Fits(t, stats[w])
              && forall v | Answering(s.workers, clients, stats, v) && Fits(t, stats[v]) ::
                   Growth(pow, t, stats[w]) <= Growth(pow, t, stats[v])
  {
    var polled := Polled(s, s.workers, clients, stats);
    PolledDistinct(s, s.workers, clients, stats);
    hide Polled, Fits, Growth, HasDisk, Cost, NoDup, DistinctNodes;
    forall v | Answering(s.workers, clients, stats, v)
      ensures var n := NodeOf(s, v, stats[v]);
              n in polled && (HasDisk(t, n) <==> Fits(t, stats[v])) && Cost(pow, t, n) == Growth(pow, t, stats[v])
    {
      PolledMembers(s, s.workers, clients, stats, NodeOf(s, v, stats[v]));
      FilteredByAnswer(t, NodeOf(s, v, stats[v]), s, v, stats[v]);
      ScoredByAnswer(pow, t, NodeOf(s, v, stats[v]), s, v, stats[v]);
    }
    if choice.Some? {
      var n :| Cheapest(pow, t, polled, n) && n.workerUuid == choice.value;
      PolledMembers(s, s.workers, clients, stats, n);
      FilteredByAnswer(t, n, s, n.workerUuid, stats[n.workerUuid]);
      ScoredByAnswer(pow, t, n, s, n.workerUuid, stats[n.workerUuid]);
    }
  }

  lemma ArrivalsDistinct(s: Storage, workers: seq<Uuid>, clients: set<Uuid>, stats: map<Uuid, Stats>, order: seq<Node>)
    requires multiset(order) == multiset(Polled(s, workers, clients, stats))
    ensures NoDup(workers) ==> DistinctNodes(order)
  {
    if NoDup(workers) {
      PolledDistinct(s, workers, clients, stats);
      DistinctPermute(Polled(s, workers, clients, stats), order, (n: Node) => n.workerUuid);
    }
  }

  function NodeIds(nodes: seq<Node>): set<Uuid> {
    set n | n in nodes :: n.workerUuid
  }

  // ---------- the node log ----------

  function EntriesOf(log: seq<NodeEntry>, w: Uuid): seq<NodeEntry> {
    Filter(log, (e: NodeEntry) => e.worker == w)
  }

  /** Appeared, Disappeared, Appeared, ... */
  ghost predicate Alternates(entries: seq<NodeEntry>) {
    forall i | 0 <= i < |entries| :: entries[i].Appeared? <==> i % 2 == 0
  }

  /** Every worker's entries alternate, and it is up exactly when its last entry says it appeared. */
  ghost predicate LogTells(log: seq<NodeEntry>, up: set<Uuid>) {
    forall w :: Alternates(EntriesOf(log, w)) && (w in up <==> LastAppeared(EntriesOf(log, w)))
  }

  predicate LastAppeared(entries: seq<NodeEntry>) {
    entries != [] && entries[|entries| - 1].Appeared?
  }

  lemma LogSnoc(log: seq<NodeEntry>, up: set<Uuid>, e: NodeEntry)
    requires LogTells(log, up) && (e.Appeared? <==> e.worker !in up)
    ensures LogTells(log + [e], if e.Appeared? then up + {e.worker} else up - {e.worker})
  {
    forall w
      ensures var es := EntriesOf(log + [e], w);
              Alternates(es) && (w in (if e.Appeared? then up + {e.worker} else up - {e.worker}) <==> LastAppeared(es))
    {
      FilterSnoc(log, e, (x: NodeEntry) => x.worker == w);
      var es := EntriesOf(log, w);
      assert Alternates(es) && (w in up <==> LastAppeared(es));
      AlternationParity(es);
    }
  }

  lemma AlternationParity(es: seq<NodeEntry>)
    requires Alternates(es)
    ensures LastAppeared(es) <==> |es| % 2 == 1
  {
    if es != [] {
      assert es[|es| - 1].Appeared? <==> (|es| - 1) % 2 == 0;
    }
  }

  /** Adds one entry for every node that is gone, then one for every node that is new, each in an arbitrary order. */
  method LogDifference(log: seq<NodeEntry>, oldIds: set<Uuid>, newIds: set<Uuid>) returns (after: seq<NodeEntry>)
    requires LogTells(log, oldIds)
    ensures LogTells(after, newIds) && log <= after
    ensures |after| == |log| + |oldIds - newIds| + |newIds - oldIds|
  {
    after := LogGone(log, oldIds, oldIds - newIds);
    after := LogCame(after, oldIds - (oldIds - newIds), newIds - oldIds);
    assert oldIds - (oldIds - newIds) + (newIds - oldIds) == newIds;
  }

  method LogGone(log: seq<NodeEntry>, up: set<Uuid>, gone: set<Uuid>) returns (after: seq<NodeEntry>)
    requires LogTells(log, up) && gone <= up
    ensures LogTells(after, up - gone) && log <= after && |after| == |log| + |gone|
  {
    hide LogTells;
    after := log;
    var left, now := gone, up;
    while left != {}
      invariant left <= gone && now == up - (gone - left)
      invariant LogTells(after, now) && log <= after && |after| + |left| == |log| + |gone|
      decreases |left|
    {
      var w :| w in left;
      LogSnoc(after, now, Disappeared(w));
      after, left, now := after + [Disappeared(w)], left - {w}, now - {w};
    }
    assert gone - {} == gone;
  }

  method LogCame(log: seq<NodeEntry>, up: set<Uuid>, came: set<Uuid>) returns (after: seq<NodeEntry>)
    requires LogTells(log, up) && came !! up
    ensures LogTells(after, up + came) && log <= after && |after| == |log| + |came|
  {
    hide LogTells;
    after := log;
    var left, now := came, up;
    while left != {}
      invariant left <= came && now == up + (came - left)
      invariant LogTells(after, now) && log <= after && |after| + |left| == |log| + |came|
      decreases |left|
    {
      var w :| w in left;
      LogSnoc(after, now, Appeared(w));
      after, left, now := after + [Appeared(w)], left - {w}, now + {w};
    }
    assert came - {} == came;
  }

  /** The order in which values put on a channel come out of it: any order. */
  method Arrive<T>(channel: seq<T>) returns (order: seq<T>)
    ensures multiset(order) == multiset(channel)
  {
    order := [];
    var left := channel;
    while left != []
      invariant multiset(order) + multiset(left) == multiset(channel)
      decreases |left|
    {
      var i :| 0 <= i < |left|;
      WithoutMultiset(left, i);
      order, left := order + [left[i]], Without(left, i);
    }
  }

  class HttpClientCluster {
    var clients: set<Uuid>
    var workerNodes: seq<Node>
    // What the outside sees: the entries of the node log and the requests issued.
    var log: seq<NodeEntry>
    var sent: set<Request>

    /** The log tells, worker by worker, which nodes are up. */
    ghost predicate Valid()
      reads this
    {
      LogTells(log, NodeIds(workerNodes))
    }

    constructor ()
      ensures Valid() && clients == {} && workerNodes == [] && log == [] && sent == {}
    {
      clients, workerNodes, log, sent := {}, [], [], {};
    }

    method AddClient(w: Uuid)
      modifies this`clients
      ensures clients == old(clients) + {w}
    {
      clients := clients + {w};
    }

    /** A request goes out only over a known connection; `replyOk` is what comes back. */
    method SendTask(w: Uuid, ev: TaskEvent, replyOk: bool) returns (err: bool)
      modifies this`sent
      ensures sent == if w in clients then old(sent) + {StartRequest(w, ev)} else old(sent)
      ensures err == !(w in clients && replyOk)
    {
      if w !in clients {
        return true;
      }
      sent := sent + {StartRequest(w, ev)};
      err := !replyOk;
    }

    method StopTask(w: Uuid, id: Uuid, replyOk: bool) returns (err: bool)
      modifies this`sent
      ensures sent == if w in clients then old(sent) + {StopRequest(w, id)} else old(sent)
      ensures err == !(w in clients && replyOk)
    {
      if w !in clients {
        return true;
      }
      sent := sent + {StopRequest(w, id)};
      err := !replyOk;
    }

    /** Replaces the node list by a fresh poll, whatever order the answers arrive in, and logs the difference. */
    method UpdateWorkerNodes(state: MappingStorage, stats: map<Uuid, Stats>)
      requires Valid() && state.Valid()
      modifies this`workerNodes, this`log
      ensures Valid()
      ensures multiset(workerNodes) == multiset(Polled(state.Model(), state.workers, clients, stats))
      ensures NoDup(state.workers) ==> DistinctNodes(workerNodes)
      ensures old(log) <= log
      ensures var before, after := old(NodeIds(workerNodes)), NodeIds(workerNodes);
              |log| == |old(log)| + |before - after| + |after - before|
    {
      hide LogTells, NoDup, DistinctNodes, NodeIds, Polled;
      ghost var s := state.Model();
      var workers := state.GetWorkerIds();
      var channel := Fetch(state, workers, stats);
      var currNodes := Arrive(channel);
      ArrivalsDistinct(s, workers, clients, stats, currNodes);
      log := LogDifference(log, NodeIds(workerNodes), NodeIds(currNodes));
      workerNodes := currNodes;
      assert state.Model() == s;
    }

    /** One fetch per worker with a connection; those that fail send nothing. */
    method Fetch(state: MappingStorage, workers: seq<Uuid>, stats: map<Uuid, Stats>) returns (channel: seq<Node>)
      requires state.Valid()
      ensures channel == Polled(state.Model(), workers, clients, stats)
    {
      channel := [];
      for i := 0 to |workers|
        invariant channel == Polled(state.Model(), workers[..i], clients, stats)
      {
        var w := workers[i];
        assert workers[..i + 1][..i] == workers[..i];
        if w in clients && w in stats {
          var name, count := state.GetWorkerMetadata(w);
          var s := stats[w];
          channel := channel + [Node(name, w, s.cores, s.loadAvg, s.memory, s.memoryUsedPercent, s.disk,
                                     s.diskUsedPercent, count)];
        }
      }
      assert workers[..|workers|] == workers;
    }

    method GetNodes() returns (nodes: seq<Node>)
      ensures nodes == workerNodes
    {
      nodes := workerNodes;
    }

    /**
     * Applies the task lists of all workers that answer, list by list in the order they arrive.  When no task
     * is reported twice the arrival order leaves no trace in the storage.
     */
    method SyncTasks(state: MappingStorage, reports: map<Uuid, seq<Task>>, diskOk: Uuid -> bool)
      returns (ghost arrival: seq<Task>)
      requires state.Valid()
      modifies state, state.taskDb, state.taskDb.cells.Values
      ensures state.Valid()
      ensures multiset(arrival) == multiset(Reported(old(state.workers), clients, reports))
      ensures state.Model() == ApplyAll(old(state.Model()), arrival, Writes(state.taskDb.persistent, diskOk))
      ensures DistinctIds(Reported(old(state.workers), clients, reports)) ==>
                state.Model() == ApplyAll(old(state.Model()), Reported(old(state.workers), clients, reports),
                                          Writes(state.taskDb.persistent, diskOk))
      ensures fresh(state.taskDb.cells.Values - old(state.taskDb.cells.Values))
    {
      var workers := state.GetWorkerIds();
      var channel := FetchTasks(workers, reports);
      var order := Arrive(channel);
      FlattenPermutes(order, channel);
      ghost var writes := Writes(state.taskDb.persistent, diskOk);
      ghost var s0 := state.Model();
      arrival := Flatten(order);
      ApplyLists(state, order, diskOk);
      if DistinctIds(Reported(workers, clients, reports)) {
        SyncIsConfluent(s0, Reported(workers, clients, reports), arrival, writes);
      }
    }

    method FetchTasks(workers: seq<Uuid>, reports: map<Uuid, seq<Task>>) returns (channel: seq<seq<Task>>)
      ensures Flatten(channel) == Reported(workers, clients, reports)
    {
      channel := [];
      for i := 0 to |workers|
        invariant Flatten(channel) == Reported(workers[..i], clients, reports)
      {
        assert workers[..i + 1][..i] == workers[..i];
        if workers[i] in clients && workers[i] in reports {
          assert (channel + [reports[workers[i]]])[..|channel|] == channel;
          channel := channel + [reports[workers[i]]];
        }
      }
      assert workers[..|workers|] == workers;
    }

    method ApplyLists(state: MappingStorage, order: seq<seq<Task>>, diskOk: Uuid -> bool)
      requires state.Valid()
      modifies state, state.taskDb, state.taskDb.cells.Values
      ensures state.Valid()
      ensures state.Model() == ApplyAll(old(state.Model()), Flatten(order), Writes(state.taskDb.persistent, diskOk))
      ensures fresh(state.taskDb.cells.Values - old(state.taskDb.cells.Values))
    {
      ghost var writes := Writes(state.taskDb.persistent, diskOk);
      ghost var s0 := state.Model();
      for i := 0 to |order|
        invariant state.Valid()
        invariant state.Model() == ApplyAll(s0, Flatten(order[..i]), writes)
        invariant fresh(state.taskDb.cells.Values - old(state.taskDb.cells.Values))
      {
        ApplyList(state, order[i], diskOk);
        assert order[..i + 1][..i] == order[..i];
        ApplyAppend(s0, Flatten(order[..i]), order[i], writes);
      }
      assert order[..|order|] == order;
    }

    /** One worker's list; a refused report is logged and skipped. */
    method ApplyList(state: MappingStorage, tasks: seq<Task>, diskOk: Uuid -> bool)
      requires state.Valid()
      modifies state, state.taskDb, state.taskDb.cells.Values
      ensures state.Valid()
      ensures state.Model() == ApplyAll(old(state.Model()), tasks, Writes(state.taskDb.persistent, diskOk))
      ensures fresh(state.taskDb.cells.Values - old(state.taskDb.cells.Values))
    {
      ghost var writes := Writes(state.taskDb.persistent, diskOk);
      ghost var s0 := state.Model();
      for i := 0 to |tasks|
        invariant state.Valid()
        invariant state.Model() == ApplyAll(s0, tasks[..i], writes)
        invariant fresh(state.taskDb.cells.Values - old(state.taskDb.cells.Values))
      {
        var err := state.UpdateTask(tasks[i], diskOk(tasks[i].id));
        assert tasks[..i + 1] == tasks[..i] + [tasks[i]];
        ApplyAppend(s0, tasks[..i], [tasks[i]], writes);
        ApplyOne(ApplyAll(s0, tasks[..i], writes), tasks[i], writes);
      }
      assert tasks[..|tasks|] == tasks;
    }
  }

  function Writes(persistent: bool, diskOk: Uuid -> bool): Uuid -> bool {
    id => !persistent || diskOk(id)
  }

  /** The task lists of the workers that have a connection and answer, end to end. */
  function Reported(workers: seq<Uuid>, clients: set<Uuid>, reports: map<Uuid, seq<Task>>): seq<Task> {
    if workers == [] then []
    else
      var w := workers[|workers| - 1];
      Reported(workers[..|workers| - 1], clients, reports) + if w in clients && w in reports then reports[w] else []
  }

  ghost function Flatten(lists: seq<seq<Task>>): seq<Task> {
    if lists == [] then [] else Flatten(lists[..|lists| - 1]) + lists[|lists| - 1]
  }

  lemma {:induction false} FlattenWithout(lists: seq<seq<Task>>, i: nat)
    requires i < |lists|
    ensures multiset(Flatten(lists)) == multiset(lists[i]) + multiset(Flatten(Without(lists, i)))
  {
    var front, last := lists[..|lists| - 1], lists[|lists| - 1];
    if i == |lists| - 1 {
      assert Without(lists, i) == front;
    } else {
      FlattenWithout(front, i);
      assert Without(lists, i)[..|lists| - 2] == Without(front, i);
      assert Flatten(Without(lists, i)) == Flatten(Without(front, i)) + last;
    }
  }

  lemma {:induction false} FlattenPermutes(a: seq<seq<Task>>, b: seq<seq<Task>>)
    requires multiset(a) == multiset(b)
    ensures multiset(Flatten(a)) == multiset(Flatten(b))
    decreases |a|
  {
    if a == [] {
      assert |multiset(b)| == 0;
    } else {
      var i := HeadInOther(a, b);
      assert Without(a, 0) == a[1..];
      FlattenWithout(a, 0);
      FlattenWithout(b, i);
      FlattenPermutes(a[1..], Without(b, i));
    }
  }

  lemma {:induction false} ApplyAppend(s: Storage, a: seq<Task>, b: seq<Task>, ok: Uuid -> bool)
    ensures ApplyAll(s, a + b, ok) == ApplyAll(ApplyAll(s, a, ok), b, ok)
    decreases |a|
  {
    if a == [] {
      assert a + b == b;
    } else {
      assert (a + b)[0] == a[0] && (a + b)[1..] == a[1..] + b;
      ApplyAppend(Update(s, a[0], ok(a[0].id)), a[1..], b, ok);
    }
  }

  lemma ApplyOne(s: Storage, t: Task, ok: Uuid -> bool)
    ensures ApplyAll(s, [t], ok) == Update(s, t, ok(t.id))
  {
    assert [t][1..] == [];
  }
}
