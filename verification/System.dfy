/**
 * The whole system: one manager, any number of workers, the network between them.  Its steps are the
 * operations of the component models, taken one at a time in any interleaving; requests and reports may be
 * lost, delayed or repeated.  A worker may lose any write but the one that records a call to Docker.
 */
module System {
  import opened Tasks
  import opened StateModel
  import opened Cluster
  import opened ManagerModel
  import opened WorkerModel

  datatype World = World(
    mgr: Mgr,
    left: nat,                       // calls left in the current round of the sending loop
    machines: map<Uuid, Machine>,    // every worker process there is, by id
    reports: set<Task>,              // task records read from workers and not yet forgotten
    moves: map<Uuid, int>,           // history: drift moves per worker since the last rebuild
    accepted: seq<TaskEvent>,        // history: events accepted since the last restart
    taken: seq<TaskEvent>)           // history: events taken from the queue since the last restart

  datatype Action =
    | Submit(event: TaskEvent)
    | RegisterWorker(worker: Uuid, name: string, ok: bool)
    | Connect(worker: Uuid)
    | StartRound
    | Take(logOk: bool)
    | IssueRequest(choice: Option<Uuid>, taskOk: bool, assignOk: bool)
    | ReceiveReply(ok: bool)
    | GiveUp(ok: bool)
    | Deliver(request: Request)
    | RunTask(worker: Uuid, now: Time, docker: Answers, puts: Puts)
    | CheckHealth(worker: Uuid, inspect: Uuid -> Inspection, persistent: bool, durable: Uuid -> bool)
    | RestartWorker(worker: Uuid)
    | Fetch(worker: Uuid)
    | Apply(report: Task, ok: bool)
    | RestartManager(midAssign: bool, rebuilt: Storage)

  // ---------- steps ----------

  function MovesOf(moves: map<Uuid, int>, w: Uuid): int {
    if w in moves then moves[w] else 0
  }

  /** The history variable after a report. */
  function CountUpdate(moves: map<Uuid, int>, s: Storage, t: Task, ok: bool): map<Uuid, int> {
    if t.id in s.placement
    then var w := s.placement[t.id]; moves[w := MovesOf(moves, w) + UpdateMoves(s, t, ok, w)]
    else moves
  }

  /** The history variable after an assignment. */
  function CountAssign(moves: map<Uuid, int>, s: Storage, t: Task, w: Uuid, taskOk: bool,
      assignOk: bool): map<Uuid, int> {
    moves[w := MovesOf(moves, w) + AssignMoves(s, t, w, taskOk, assignOk, w)]
  }

  /** What a crash leaves in the stores: with `midAssign` it strikes between the two Puts of an assignment. */
  function Surviving(m: Mgr, midAssign: bool): Storage
    requires midAssign ==> m.sender.Working?
  {
    if midAssign
    then var t := m.sender.event.task; m.st.(tasks := m.st.tasks[t.id := t.(state := Scheduled)])
    else m.st
  }

  ghost predicate Enabled(s: World, a: Action) {
    match a
    case Submit(_) => true
    case RegisterWorker(w, _, _) => w in s.machines
    case Connect(w) => w in s.machines && w in s.mgr.st.names
    case StartRound => s.mgr.sender.Idle? && s.left == 0
    case Take(_) => s.mgr.sender.Idle? && s.left > 0
    case IssueRequest(choice, _, _) =>
      s.mgr.sender.Working? && (choice.Some? ==> choice.value in s.mgr.st.workers && choice.value in s.mgr.clients)
    case ReceiveReply(_) => s.mgr.sender.Awaiting?
    case GiveUp(_) => s.mgr.sender.Failing?
    case Deliver(r) => r in s.mgr.sent && r.worker in s.machines
    case RunTask(w, now, docker, puts) => w in s.machines && !LosesRecord(s.machines[w], Run(now, docker, puts))
    case CheckHealth(w, _, _, _) => w in s.machines
    case RestartWorker(w) => w in s.machines
    case Fetch(w) => w in s.machines && w in s.mgr.clients
    case Apply(t, _) => t in s.reports
    case RestartManager(midAssign, rebuilt) =>
      && (midAssign ==> s.mgr.sender.Working? && !IsStop(s.mgr.sender.event))
      && SameStores(Surviving(s.mgr, midAssign), rebuilt) && Rehydrated(rebuilt)
  }

  /** A task record taken by a machine. */
  function Received(m: Machine, r: Request): Machine {
    match r
    case StartRequest(_, ev) => Enqueue(m, ev.task)
    case StopRequest(_, id) => RequestStop(m, id)
  }

  function MovesAfterIssue(s: World, choice: Option<Uuid>, taskOk: bool, assignOk: bool): map<Uuid, int>
    requires s.mgr.sender.Working?
  {
    var ev := s.mgr.sender.event;
    var target := Target(s.mgr.st, ev.task.id, choice);
    if IsStop(ev) || target.None? then s.moves
    else CountAssign(s.moves, s.mgr.st, ev.task, target.value, taskOk, assignOk)
  }

  ghost function Next(s: World, a: Action): World
    requires Enabled(s, a)
  {
    match a
    case Submit(ev) => s.(mgr := s.mgr.(pending := s.mgr.pending + [ev]), accepted := s.accepted + [ev])
    case RegisterWorker(w, name, ok) => s.(mgr := s.mgr.(st := Register(s.mgr.st, w, name, ok)))
    case Connect(w) => s.(mgr := s.mgr.(clients := s.mgr.clients + {w}))
    case StartRound => s.(left := |s.mgr.pending|)
    case Take(logOk) =>
      if s.mgr.pending == [] then s
      else s.(mgr := Begin(s.mgr, logOk), left := s.left - 1, taken := s.taken + [s.mgr.pending[0]])
    case IssueRequest(choice, taskOk, assignOk) =>
      s.(mgr := Issue(s.mgr, choice, taskOk, assignOk), moves := MovesAfterIssue(s, choice, taskOk, assignOk))
    case ReceiveReply(ok) => s.(mgr := Reply(s.mgr, ok))
    case GiveUp(ok) =>
      s.(mgr := MarkFailed(s.mgr, ok),
         moves := CountUpdate(s.moves, s.mgr.st, s.mgr.sender.original.(state := Failed), ok))
    case Deliver(r) => s.(machines := s.machines[r.worker := Received(s.machines[r.worker], r)])
    case RunTask(w, now, docker, puts) => s.(machines := s.machines[w := RunHead(s.machines[w], now, docker, puts)])
    case CheckHealth(w, inspect, persistent, durable) =>
      s.(machines := s.machines[w := HealthCheck(s.machines[w], inspect, persistent, durable)])
    case RestartWorker(w) => s.(machines := s.machines[w := Restart(s.machines[w])])
    case Fetch(w) => s.(reports := s.reports + s.machines[w].db.Values)
    case Apply(t, ok) => s.(mgr := s.mgr.(st := Update(s.mgr.st, t, ok)),
                            moves := CountUpdate(s.moves, s.mgr.st, t, ok))
    case RestartManager(_, rebuilt) =>
      World(Mgr(rebuilt, [], Idle, {}, s.mgr.sent), 0, s.machines, s.reports, map[], [], [])
  }

  /** Nothing has happened yet; there may be any number of workers. */
  ghost predicate Init(s: World) {
    && s.mgr == Mgr(Storage(map[], map[], map[], map[], [], map[], map[]), [], Idle, {}, {})
    && s.left == 0 && s.reports == {} && s.moves == map[] && s.accepted == [] && s.taken == []
    && forall w | w in s.machines :: s.machines[w] == FRESH
  }

  /** A run: the worlds it passes through and the actions between them. */
  ghost predicate IsRun(worlds: seq<World>, actions: seq<Action>) {
    && |worlds| == |actions| + 1 && Init(worlds[0])
    && forall i | 0 <= i < |actions| :: Enabled(worlds[i], actions[i]) && worlds[i + 1] == Next(worlds[i], actions[i])
  }

  // ---------- the invariant ----------

  predicate Placed(placement: map<Uuid, Uuid>, id: Uuid, w: Uuid) {
    id in placement && placement[id] == w
  }

  ghost predicate Extends(p: map<Uuid, Uuid>, q: map<Uuid, Uuid>) {
    forall id | id in p :: Placed(q, id, p[id])
  }

  /**
   * The indexes agree with the stores, assigned tasks are stored, assigned workers are registered, nothing is
   * Pending.
   */
  ghost predicate StorageInv(s: Storage) {
    && Agree(s) && Loadable(s)
    && (forall id | id in s.placement :: s.placement[id] in s.names)
    && (forall id | id in s.tasks :: s.tasks[id].state != Pending)
  }

  ghost predicate DriftInv(s: Storage, moves: map<Uuid, int>) {
    forall w :: Drift(s, w) == MovesOf(moves, w) && MovesOf(moves, w) >= 0
  }

  /** A request is for the worker its task is assigned to, and a start carries the Scheduled copy. */
  ghost predicate RequestInv(placement: map<Uuid, Uuid>, r: Request) {
    match r
    case StartRequest(w, ev) => ev.task.state == Scheduled && Placed(placement, ev.task.id, w)
    case StopRequest(w, id) => Placed(placement, id, w)
  }

  /** A worker is sound and everything in its queue and records is assigned to it. */
  ghost predicate MachineInv(placement: map<Uuid, Uuid>, w: Uuid, m: Machine) {
    && Sound(m)
    && (forall id | id in m.db :: Placed(placement, id, w))
    && (forall i | 0 <= i < |m.queue| :: Placed(placement, m.queue[i].id, w))
  }

  ghost predicate ReportInv(placement: map<Uuid, Uuid>, t: Task) {
    t.id in placement && t.state != Pending && t.state != Scheduled
  }

  ghost predicate NetInv(s: World) {
    && (forall r | r in s.mgr.sent :: RequestInv(s.mgr.st.placement, r))
    && (forall w | w in s.machines :: MachineInv(s.mgr.st.placement, w, s.machines[w]))
    && (forall t | t in s.reports :: ReportInv(s.mgr.st.placement, t))
  }

  /** Events are neither lost nor duplicated nor reordered, and the round never outruns the queue. */
  ghost predicate QueueInv(s: World) {
    s.accepted == s.taken + s.mgr.pending && s.left <= |s.mgr.pending|
  }

  ghost predicate Inv(s: World) {
    StorageInv(s.mgr.st) && DriftInv(s.mgr.st, s.moves) && NetInv(s) && QueueInv(s)
  }

  // ---------- storage steps ----------

  lemma UpdateMovesForward(src: State, dest: State, ok: bool)
    requires src != Pending && dest != Pending
    ensures 0 <= UpdateMove(src, dest, ok) <= 1
  {
  }

  lemma UpdateStep(s: Storage, moves: map<Uuid, int>, t: Task, ok: bool)
    requires StorageInv(s) && DriftInv(s, moves) && t.state != Pending
    ensures StorageInv(Update(s, t, ok)) && DriftInv(Update(s, t, ok), CountUpdate(moves, s, t, ok))
    ensures Update(s, t, ok).placement == s.placement
  {
    UpdateKeepsAgree(s, t, ok);
    UpdateFrame(s, t, ok);
    forall w
      ensures Drift(Update(s, t, ok), w) == MovesOf(CountUpdate(moves, s, t, ok), w) >= 0
    {
      UpdateDriftLaw(s, t, ok, w);
      if t.id in s.tasks {
        UpdateMovesForward(s.tasks[t.id].state, t.state, ok);
      }
    }
    hide Agree, Drift, Update;
  }

  lemma AssignStep(s: Storage, moves: map<Uuid, int>, t: Task, w: Uuid, taskOk: bool, assignOk: bool)
    requires StorageInv(s) && DriftInv(s, moves)
    requires w in s.workers && (t.id in s.placement ==> s.placement[t.id] == w)
    ensures var r := Assign(s, t, w, taskOk, assignOk);
            StorageInv(r) && DriftInv(r, CountAssign(moves, s, t, w, taskOk, assignOk))
              && Extends(s.placement, r.placement)
    ensures taskOk && assignOk ==> Placed(Assign(s, t, w, taskOk, assignOk).placement, t.id, w)
  {
    hide DriftInv, Assign, HasTask, CountAssign;
    AssignFrame(s, t, w, taskOk, assignOk);
    KnownIsNamed(s, w);
    AssignAgreesStep(s, t, w, taskOk, assignOk);
    AssignKeepsDriftInv(s, moves, t, w, taskOk, assignOk);
    hide Agree;
  }

  lemma KnownIsNamed(s: Storage, w: Uuid)
    requires StorageInv(s) && w in s.workers
    ensures w in s.names
  {
    assert w in s.names || HasTask(s, w);
  }

  lemma AssignKeepsDriftInv(s: Storage, moves: map<Uuid, int>, t: Task, w: Uuid, taskOk: bool, assignOk: bool)
    requires Agree(s) && DriftInv(s, moves) && (t.id in s.placement ==> s.placement[t.id] == w)
    ensures DriftInv(Assign(s, t, w, taskOk, assignOk), CountAssign(moves, s, t, w, taskOk, assignOk))
  {
    forall x
      ensures Drift(Assign(s, t, w, taskOk, assignOk), x) ==
              MovesOf(CountAssign(moves, s, t, w, taskOk, assignOk), x) >= 0
    {
      hide Agree;
      AssignDriftLaw(s, t, w, taskOk, assignOk, x);
      hide Drift, Assign;
    }
  }

  lemma AssignAgreesStep(s: Storage, t: Task, w: Uuid, taskOk: bool, assignOk: bool)
    requires Agree(s) && w in s.workers && (t.id in s.placement ==> s.placement[t.id] == w)
    ensures Agree(Assign(s, t, w, taskOk, assignOk))
  {
    if taskOk && assignOk {
      AssignStickyAgrees(s, t, w);
    } else {
      SameIndexesAgree(s, Assign(s, t, w, taskOk, assignOk));
    }
  }

  /** Agreement looks only at the assignments, the names and the two list indexes. */
  lemma SameIndexesAgree(s: Storage, r: Storage)
    requires Agree(s) && r.placement == s.placement && r.names == s.names && r.workers == s.workers
             && r.lists == s.lists
    ensures Agree(r)
  {
    assert forall x :: HasTask(r, x) <==> HasTask(s, x);
    assert forall x :: r.ListOf(x) == s.ListOf(x);
  }

  lemma RegisterStep(s: Storage, moves: map<Uuid, int>, w: Uuid, name: string, ok: bool)
    requires StorageInv(s) && DriftInv(s, moves)
    ensures StorageInv(Register(s, w, name, ok)) && DriftInv(Register(s, w, name, ok), moves)
    ensures Register(s, w, name, ok).placement == s.placement
  {
    var r := Register(s, w, name, ok);
    if ok {
      assert w !in s.names ==> w !in s.workers by {
        assert w in s.workers <==> w in s.names || HasTask(s, w);
      }
      RegisterKeepsAgree(s, w, name);
    }
    forall x
      ensures Drift(r, x) == MovesOf(moves, x) >= 0
    {
      RegisterKeepsDrift(s, w, name, ok, x);
    }
  }

  lemma LogStep(s: Storage, moves: map<Uuid, int>, ev: TaskEvent, ok: bool)
    requires StorageInv(s) && DriftInv(s, moves)
    ensures StorageInv(LogEvent(s, ev, ok)) && DriftInv(LogEvent(s, ev, ok), moves)
    ensures LogEvent(s, ev, ok).placement == s.placement
  {
    SameIndexesAgree(s, LogEvent(s, ev, ok));
    forall x
      ensures Drift(LogEvent(s, ev, ok), x) == MovesOf(moves, x) >= 0
    {
      LogKeepsDrift(s, ev, ok, x);
    }
  }

  // ---------- framing ----------

  /** Growing the assignments breaks nothing that relies on them. */
  lemma GrowthKeepsNet(s: World, r: World)
    requires NetInv(s) && Extends(s.mgr.st.placement, r.mgr.st.placement)
    requires r.machines == s.machines && r.reports == s.reports && r.mgr.sent == s.mgr.sent
    ensures NetInv(r)
  {
    var p, q := s.mgr.st.placement, r.mgr.st.placement;
    forall q' | q' in r.mgr.sent
      ensures RequestInv(q, q')
    {
      assert RequestInv(p, q');
    }
    forall w | w in r.machines
      ensures MachineInv(q, w, r.machines[w])
    {
      assert MachineInv(p, w, s.machines[w]);
    }
    forall t | t in r.reports
      ensures ReportInv(q, t)
    {
      assert ReportInv(p, t);
    }
  }

  lemma MachineStep(s: World, w: Uuid, m: Machine)
    requires NetInv(s) && w in s.machines && MachineInv(s.mgr.st.placement, w, m)
    ensures NetInv(s.(machines := s.machines[w := m]))
  {
  }

  // ---------- the steps keep the invariant ----------

  lemma IssueKeepsInv(s: World, choice: Option<Uuid>, taskOk: bool, assignOk: bool)
    requires Inv(s) && Enabled(s, IssueRequest(choice, taskOk, assignOk))
    ensures Inv(Next(s, IssueRequest(choice, taskOk, assignOk)))
    ensures Extends(s.mgr.st.placement, Next(s, IssueRequest(choice, taskOk, assignOk)).mgr.st.placement)
  {
    hide MachineInv, ReportInv, RequestInv, Drift, Agree, Assign, CountAssign;
    var m, ev := s.mgr, s.mgr.sender.event;
    var r := Next(s, IssueRequest(choice, taskOk, assignOk));
    var target := Target(m.st, ev.task.id, choice);
    if !IsStop(ev) && target.Some? {
      if ev.task.id in m.st.placement {
        AssignedIsKnown(m.st, ev.task.id);
      }
      AssignStep(m.st, s.moves, ev.task, target.value, taskOk, assignOk);
      IssueStartNet(s, r, target.value, taskOk, assignOk);
    } else {
      IssueStopNet(s, r);
    }
    assert QueueInv(r) by {
      IssueSettles(m, choice, taskOk, assignOk);
    }
  }

  lemma AssignedIsKnown(s: Storage, id: Uuid)
    requires Agree(s) && id in s.placement
    ensures s.placement[id] in s.workers
  {
    assert HasTask(s, s.placement[id]);
  }

  lemma IssueStartNet(s: World, r: World, w: Uuid, taskOk: bool, assignOk: bool)
    requires NetInv(s) && s.mgr.sender.Working?
    requires var t := s.mgr.sender.event.task;
             && r.mgr.st == Assign(s.mgr.st, t, w, taskOk, assignOk)
             && Extends(s.mgr.st.placement, r.mgr.st.placement)
             && (taskOk && assignOk ==> Placed(r.mgr.st.placement, t.id, w))
             && (r.mgr.sent == s.mgr.sent
                 || (taskOk && assignOk
                     && r.mgr.sent == s.mgr.sent
                        + {StartRequest(w, s.mgr.sender.event.(task := t.(state := Scheduled)))}))
    requires r.machines == s.machines && r.reports == s.reports
    ensures NetInv(r)
  {
    hide Assign, MachineInv, ReportInv;
    GrowthKeepsNet(s, r.(mgr := r.mgr.(sent := s.mgr.sent)));
  }

  lemma IssueStopNet(s: World, r: World)
    requires NetInv(s) && r.mgr.st == s.mgr.st && r.machines == s.machines && r.reports == s.reports
    requires r.mgr.sent == s.mgr.sent
             || exists w, id :: Placed(s.mgr.st.placement, id, w) && r.mgr.sent == s.mgr.sent + {StopRequest(w, id)}
    ensures NetInv(r)
  {
    hide MachineInv, ReportInv;
  }

  lemma DeliverKeepsNet(s: World, q: Request)
    requires NetInv(s) && q in s.mgr.sent && q.worker in s.machines
    ensures NetInv(s.(machines := s.machines[q.worker := Received(s.machines[q.worker], q)]))
  {
    var p, m := s.mgr.st.placement, s.machines[q.worker];
    assert RequestInv(p, q) && MachineInv(p, q.worker, m);
    match q
    case StartRequest(w, ev) =>
      EnqueueKeepsSound(m, ev.task);
    case StopRequest(w, id) =>
      if id in m.db {
        EnqueueKeepsSound(m, m.db[id].(state := Completed));
      }
    MachineStep(s, q.worker, Received(m, q));
  }

  lemma RunTaskKeepsNet(s: World, w: Uuid, now: Time, docker: Answers, puts: Puts)
    requires NetInv(s) && Enabled(s, RunTask(w, now, docker, puts))
    ensures NetInv(s.(machines := s.machines[w := RunHead(s.machines[w], now, docker, puts)]))
  {
    var m := s.machines[w];
    assert MachineInv(s.mgr.st.placement, w, m);
    if m.queue != [] {
      TransitionKeepsSound(m, now, docker, puts);
      RunHeadFrame(m, now, docker, puts);
    }
    hide Sound;
    MachineStep(s, w, RunHead(m, now, docker, puts));
  }

  lemma RunHeadFrame(m: Machine, now: Time, docker: Answers, puts: Puts)
    requires m.queue != []
    ensures var r := RunHead(m, now, docker, puts);
            r.queue == m.queue[1..] && m.db.Keys <= r.db.Keys <= m.db.Keys + {m.queue[0].id}
  {
  }

  lemma FetchKeepsNet(s: World, w: Uuid)
    requires NetInv(s) && w in s.machines
    ensures NetInv(s.(reports := s.reports + s.machines[w].db.Values))
  {
    var p, m := s.mgr.st.placement, s.machines[w];
    assert MachineInv(p, w, m);
    forall t | t in m.db.Values
      ensures ReportInv(p, t)
    {
      var id :| id in m.db && m.db[id] == t;
      assert RecordMatchesCalls(m, id);
    }
  }

  lemma WorkerStepsKeepInv(s: World, a: Action)
    requires Inv(s) && Enabled(s, a)
    requires a.Deliver? || a.RunTask? || a.CheckHealth? || a.RestartWorker? || a.Fetch?
    ensures Inv(Next(s, a)) && Next(s, a).mgr == s.mgr
  {
    hide StorageInv, DriftInv, Sound;
    var p := s.mgr.st.placement;
    match a {
      case Deliver(q) => DeliverKeepsNet(s, q);
      case RunTask(w, now, docker, puts) => RunTaskKeepsNet(s, w, now, docker, puts);
      case CheckHealth(w, inspect, persistent, durable) =>
        assert MachineInv(p, w, s.machines[w]);
        CheckKeepsSound(s.machines[w], inspect, persistent, durable);
        MachineStep(s, w, HealthCheck(s.machines[w], inspect, persistent, durable));
      case RestartWorker(w) =>
        assert MachineInv(p, w, s.machines[w]);
        RestartKeepsSound(s.machines[w]);
        MachineStep(s, w, Restart(s.machines[w]));
      case Fetch(w) => FetchKeepsNet(s, w);
    }
  }

  /** A restarted manager starts from rebuilt indexes with exact counters. */
  lemma RestartKeepsInv(s: World, midAssign: bool, rebuilt: Storage)
    requires Inv(s) && Enabled(s, RestartManager(midAssign, rebuilt))
    ensures Inv(Next(s, RestartManager(midAssign, rebuilt)))
  {
    var r := Next(s, RestartManager(midAssign, rebuilt));
    assert rebuilt.placement == s.mgr.st.placement;
    GrowthKeepsNet(s, r);
  }

  lemma ManagerStepsKeepInv(s: World, a: Action)
    requires Inv(s) && Enabled(s, a)
    requires a.Submit? || a.RegisterWorker? || a.Connect? || a.StartRound? || a.Take? || a.ReceiveReply? || a.GiveUp?
             || a.Apply?
    ensures Inv(Next(s, a)) && Next(s, a).mgr.st.placement == s.mgr.st.placement
  {
    hide DriftInv, MachineInv, Update, Register, LogEvent, CountUpdate;
    var r := Next(s, a);
    match a {
      case RegisterWorker(w, name, ok) => RegisterStep(s.mgr.st, s.moves, w, name, ok);
      case Take(logOk) =>
        if s.mgr.pending != [] {
          LogStep(s.mgr.st, s.moves, s.mgr.pending[0], logOk);
          assert s.mgr.pending == [s.mgr.pending[0]] + s.mgr.pending[1..];
        }
      case GiveUp(ok) => UpdateStep(s.mgr.st, s.moves, s.mgr.sender.original.(state := Failed), ok);
      case Apply(t, ok) =>
        assert ReportInv(s.mgr.st.placement, t);
        UpdateStep(s.mgr.st, s.moves, t, ok);
      case _ =>
    }
    hide StorageInv;
    GrowthKeepsNet(s, r);
  }

  lemma StepKeepsInv(s: World, a: Action)
    requires Inv(s) && Enabled(s, a)
    ensures Inv(Next(s, a)) && Extends(s.mgr.st.placement, Next(s, a).mgr.st.placement)
  {
    hide Inv, Next, Enabled;
    match a {
      case IssueRequest(choice, taskOk, assignOk) => IssueKeepsInv(s, choice, taskOk, assignOk);
      case RestartManager(midAssign, rebuilt) =>
        RestartKeepsInv(s, midAssign, rebuilt);
        RestartKeepsPlacement(s, midAssign, rebuilt);
      case Deliver(_) => WorkerStepsKeepInv(s, a);
      case RunTask(_, _, _, _) => WorkerStepsKeepInv(s, a);
      case CheckHealth(_, _, _, _) => WorkerStepsKeepInv(s, a);
      case RestartWorker(_) => WorkerStepsKeepInv(s, a);
      case Fetch(_) => WorkerStepsKeepInv(s, a);
      case _ => ManagerStepsKeepInv(s, a);
    }
  }

  lemma RestartKeepsPlacement(s: World, midAssign: bool, rebuilt: Storage)
    requires Enabled(s, RestartManager(midAssign, rebuilt))
    ensures Next(s, RestartManager(midAssign, rebuilt)).mgr.st.placement == s.mgr.st.placement
  {
  }

  lemma InitInv(s: World)
    requires Init(s)
    ensures Inv(s)
  {
    var st := s.mgr.st;
    forall w
      ensures Drift(st, w) == 0
    {
      assert ActiveIds(st, w) == {};
    }
    forall w | w in s.machines
      ensures MachineInv(st.placement, w, s.machines[w])
    {
      assert Sound(FRESH);
    }
  }

  /** Every world of every run satisfies the invariant. */
  lemma {:induction false} RunsKeepInv(worlds: seq<World>, actions: seq<Action>, i: nat)
    requires IsRun(worlds, actions) && i < |worlds|
    ensures Inv(worlds[i])
  {
    if i == 0 {
      InitInv(worlds[0]);
    } else {
      RunsKeepInv(worlds, actions, i - 1);
      StepKeepsInv(worlds[i - 1], actions[i - 1]);
    }
  }
}
