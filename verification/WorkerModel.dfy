/**
 * The value of a worker (internal/app/worker/worker.go, handler.go): its queue of desired task states, its
 * task records, and the calls it has made to Docker with the answers it got.  Every Put may fail: its outcome
 * is an argument, `true` when the write reached the store.
 */
module WorkerModel {
  import opened Seqs
  import opened Tasks

  type ContainerId = c: string | c != "" witness "c"

  /** Docker's answer to a start: the container it started, or an error. */
  datatype StartAnswer = Given(container: ContainerId) | StartError

  /** The container id a start leaves in the record: empty when Docker gave none. */
  function ContainerOf(a: StartAnswer): string {
    if a.Given? then a.container else ""
  }

  /** Calls to Docker, when they were made and what was answered: a start, a stop of the recorded container. */
  datatype DockerCall =
    | StartCall(id: Uuid, answer: StartAnswer, at: Time)
    | StopCall(id: Uuid, container: string, stopped: bool, at: Time)

  datatype Machine = Machine(queue: seq<Task>, db: map<Uuid, Task>, calls: seq<DockerCall>)

  /** What Docker answers to whichever call one queue entry leads to. */
  datatype Answers = Answers(start: StartAnswer, stopped: bool)

  /** The outcomes of the two Puts one queue entry may lead to: of a new record, and after the call to Docker. */
  datatype Puts = Puts(first: bool, last: bool)

  const ALL_WRITTEN: Puts := Puts(true, true)

  /** What Docker says about a container; `Unseen` when it has none by that id, or could not be asked. */
  datatype Inspection = Unseen | Exited(ports: PortMap) | Up(ports: PortMap)

  // ---------- the operations ----------

  function Enqueue(m: Machine, t: Task): Machine {
    m.(queue := m.queue + [t])
  }

  /** A stop request queues a copy of the stored record as it is now, with the desired state Completed. */
  function RequestStop(m: Machine, id: Uuid): Machine {
    if id in m.db then Enqueue(m, m.db[id].(state := Completed)) else m
  }

  /** A task without a record is compared with itself. */
  function StateBefore(m: Machine, q: Task): State {
    if q.id in m.db then m.db[q.id].state else q.state
  }

  function Remember(m: Machine, t: Task, durable: bool): Machine {
    if durable then m.(db := m.db[t.id := t]) else m
  }

  /** The container is recorded and the state set to Running even when Docker reports an error. */
  function Start(m: Machine, t: Task, now: Time, answer: StartAnswer, durable: bool): Machine {
    Remember(m, t.(startTime := now, containerId := ContainerOf(answer), state := Running), durable)
    .(calls := m.calls + [StartCall(t.id, answer, now)])
  }

  /** The whole record is replaced by the queued copy; Completed is recorded even when Docker reports an error. */
  function Stop(m: Machine, t: Task, now: Time, stopped: bool, durable: bool): Machine {
    Remember(m, t.(finishTime := now, state := Completed), durable)
    .(calls := m.calls + [StopCall(t.id, t.containerId, stopped, now)])
  }

  /** The entry is accepted and leads to a call. */
  predicate CallsDocker(m: Machine, q: Task) {
    ValidStateTransition(StateBefore(m, q), q.state) && (q.state == Scheduled || q.state == Completed)
  }

  function Transition(m: Machine, q: Task, now: Time, docker: Answers, puts: Puts): Machine {
    var m1 := if q.id in m.db then m else Remember(m, q, puts.first);
    if !ValidStateTransition(StateBefore(m, q), q.state) then m1
    else
      match q.state
      case Scheduled => Start(m1, q, now, docker.start, puts.last)
      case Completed => Stop(m1, q, now, docker.stopped, puts.last)
      case _ => m1
  }

  function RunHead(m: Machine, now: Time, docker: Answers, puts: Puts): Machine {
    if m.queue == [] then m
    else Transition(m.(queue := m.queue[1..]), m.queue[0], now, docker, puts)
  }

  /** A record after a health check.  Only the loss of the container is written back to the store. */
  function Checked(t: Task, r: Inspection, persistent: bool, durable: bool): Task {
    if t.state != Running then t
    else
      match r
      case Unseen => if persistent && !durable then t else t.(state := Failed)
      case Exited(ports) => if persistent then t else t.(state := Failed, portBindings := ports)
      case Up(ports) => if persistent then t else t.(portBindings := ports)
  }

  function HealthCheck(m: Machine, inspect: Uuid -> Inspection, persistent: bool, durable: Uuid -> bool): Machine {
    m.(db := map id | id in m.db :: Checked(m.db[id], inspect(id), persistent, durable(id)))
  }

  /** A new process: the queue is gone. */
  function Restart(m: Machine): Machine {
    m.(queue := [])
  }

  /** A check may record a failure, or the ports, of a running task; it leaves all else alone. */
  lemma CheckDetects(t: Task, r: Inspection, persistent: bool, durable: bool)
    ensures t.state != Running ==> Checked(t, r, persistent, durable) == t
    ensures t.state == Running ==>
              var c := Checked(t, r, persistent, durable);
              && (c.state == Failed <==> FindsFailure(r, persistent, durable))
              && (c.state != Failed ==> c.state == Running)
              && c.portBindings == (if persistent || r.Unseen? then t.portBindings else r.ports)
              && c.(state := t.state, portBindings := t.portBindings) == t
  {
  }

  /** Over the persistent store only an inspection that shows no container counts, and only if its write succeeds. */
  predicate FindsFailure(r: Inspection, persistent: bool, durable: bool) {
    (r.Unseen? && (durable || !persistent)) || (r.Exited? && !persistent)
  }

  // ---------- runs of one worker ----------

  /** What may happen to a worker. */
  datatype Act =
    | Body(task: Task)
    | StopRequested(id: Uuid)
    | Run(now: Time, docker: Answers, puts: Puts)
    | Check(inspect: Uuid -> Inspection, durable: Uuid -> bool)
    | Restarted

  function Do(m: Machine, a: Act, persistent: bool): Machine {
    match a
    case Body(t) => Enqueue(m, t)
    case StopRequested(id) => RequestStop(m, id)
    case Run(now, docker, puts) => RunHead(m, now, docker, puts)
    case Check(inspect, durable) => HealthCheck(m, inspect, persistent, durable)
    case Restarted => Restart(m)
  }

  function RunOf(m: Machine, acts: seq<Act>, persistent: bool): Machine
    decreases |acts|
  {
    if acts == [] then m else RunOf(Do(m, acts[0], persistent), acts[1..], persistent)
  }

  const FRESH: Machine := Machine([], map[], [])

  function CallsFor(calls: seq<DockerCall>, id: Uuid): seq<DockerCall> {
    Filter(calls, (c: DockerCall) => c.id == id)
  }

  /** Nothing, a start, or a start and then a stop of the container that start gave. */
  ghost predicate WellFormedCalls(calls: seq<DockerCall>) {
    forall id :: IsLife(CallsFor(calls, id))
  }

  predicate IsLife(life: seq<DockerCall>) {
    || life == []
    || (|life| == 1 && life[0].StartCall?)
    || (|life| == 2 && life[0].StartCall? && life[1].StopCall? && life[1].container == ContainerOf(life[0].answer))
  }

  /** The first call is a start at the time, and with the container id, that the record shows. */
  predicate StartedAs(life: seq<DockerCall>, t: Task) {
    life != [] && life[0].StartCall? && ContainerOf(life[0].answer) == t.containerId && life[0].at == t.startTime
  }

  /** That start, and then a stop of the container at the finish time the record shows. */
  predicate StoppedAs(life: seq<DockerCall>, t: Task) {
    && |life| == 2 && StartedAs(life, t)
    && life[1].StopCall? && life[1].container == t.containerId && life[1].at == t.finishTime
  }

  /** Start bodies a manager may send without breaking the worker's guarantees. */
  predicate SafeBody(s: State) {
    s == Scheduled || s == Failed
  }

  ghost predicate RecordMatchesCalls(m: Machine, id: Uuid) {
    var life := CallsFor(m.calls, id);
    if id !in m.db then life == []
    else
      match m.db[id].state
      case Running => |life| == 1 && StartedAs(life, m.db[id])
      case Completed => StoppedAs(life, m.db[id])
      case Failed => life == [] || (|life| == 1 && StartedAs(life, m.db[id]))
      case _ => false
  }

  ghost predicate SoundEntry(m: Machine, q: Task) {
    || SafeBody(q.state)
    || (q.state == Completed && q.id in m.db
        && (m.db[q.id].state == Running ==>
              q.containerId == m.db[q.id].containerId && q.startTime == m.db[q.id].startTime))
  }

  /** What every run keeps. */
  ghost predicate Sound(m: Machine) {
    && (forall id | id in m.db :: m.db[id].id == id)
    && (forall id :: RecordMatchesCalls(m, id))
    && (forall i | 0 <= i < |m.queue| :: SoundEntry(m, m.queue[i]))
  }

  lemma CallSnoc(calls: seq<DockerCall>, c: DockerCall, id: Uuid)
    ensures CallsFor(calls + [c], id) == CallsFor(calls, id) + if c.id == id then [c] else []
  {
    FilterSnoc(calls, c, (x: DockerCall) => x.id == id);
  }

  /** Queue entries stay sound while no running container is replaced. */
  lemma EntriesStaySound(m: Machine, r: Machine)
    requires forall i | 0 <= i < |m.queue| :: SoundEntry(m, m.queue[i])
    requires forall i | 0 <= i < |r.queue| :: r.queue[i] in m.queue
    requires forall id | id in m.db ::
               id in r.db && (r.db[id].state == Running ==>
                              && m.db[id].state == Running && r.db[id].containerId == m.db[id].containerId
                              && r.db[id].startTime == m.db[id].startTime)
    ensures forall i | 0 <= i < |r.queue| :: SoundEntry(r, r.queue[i])
  {
    forall i | 0 <= i < |r.queue|
      ensures SoundEntry(r, r.queue[i])
    {
      assert r.queue[i] in m.queue;
      var k :| 0 <= k < |m.queue| && m.queue[k] == r.queue[i];
      assert SoundEntry(m, m.queue[k]);
    }
  }

  /** The step makes a call to Docker and loses the Put that records it. */
  predicate LosesRecord(m: Machine, a: Act) {
    a.Run? && m.queue != [] && CallsDocker(m, m.queue[0]) && !a.puts.last
  }

  lemma TransitionKeepsSound(m: Machine, now: Time, docker: Answers, puts: Puts)
    requires Sound(m) && m.queue != [] && !LosesRecord(m, Run(now, docker, puts))
    ensures Sound(RunHead(m, now, docker, puts))
  {
    var r := RunHead(m, now, docker, puts);
    TransitionKeepsIds(m, now, docker, puts);
    TransitionKeepsEntries(m, now, docker, puts);
    hide RunHead, RecordMatchesCalls, LosesRecord;
    forall id
      ensures RecordMatchesCalls(r, id)
    {
      if id == m.queue[0].id {
        HeadMatchesCalls(m, now, docker, puts);
      } else {
        OthersMatchCalls(m, now, docker, puts, id);
      }
    }
  }

  lemma TransitionKeepsIds(m: Machine, now: Time, docker: Answers, puts: Puts)
    requires Sound(m) && m.queue != []
    ensures var r := RunHead(m, now, docker, puts);
            forall id | id in r.db :: r.db[id].id == id
  {
    hide ValidStateTransition, RecordMatchesCalls, SoundEntry;
  }

  /** The task at the head: its call, if there is one, is appended and recorded. */
  lemma HeadMatchesCalls(m: Machine, now: Time, docker: Answers, puts: Puts)
    requires Sound(m) && m.queue != [] && !LosesRecord(m, Run(now, docker, puts))
    ensures RecordMatchesCalls(RunHead(m, now, docker, puts), m.queue[0].id)
  {
    hide ValidStateTransition, CallsFor;
    var q := m.queue[0];
    assert SoundEntry(m, q);
    assert RecordMatchesCalls(m, q.id);
    TransitionsAreTheDiagramWithTwoLoops(StateBefore(m, q), q.state);
    CallSnoc(m.calls, StartCall(q.id, docker.start, now), q.id);
    CallSnoc(m.calls, StopCall(q.id, q.containerId, docker.stopped, now), q.id);
  }

  /** A task that is not at the head keeps its record and its calls. */
  lemma OthersMatchCalls(m: Machine, now: Time, docker: Answers, puts: Puts, id: Uuid)
    requires Sound(m) && m.queue != [] && id != m.queue[0].id
    ensures RecordMatchesCalls(RunHead(m, now, docker, puts), id)
  {
    hide RunHead, CallsFor, SoundEntry, Recorded;
    var q := m.queue[0];
    assert RecordMatchesCalls(m, id);
    HeadIsRun(m, now, docker, puts);
    assert m.calls + [] == m.calls && Lookup(RunHead(m, now, docker, puts).db, id) == Lookup(m.db, id);
    CallSnoc(m.calls, StartCall(q.id, docker.start, now), id);
    CallSnoc(m.calls, StopCall(q.id, q.containerId, docker.stopped, now), id);
  }

  lemma TransitionKeepsEntries(m: Machine, now: Time, docker: Answers, puts: Puts)
    requires Sound(m) && m.queue != []
    ensures var r := RunHead(m, now, docker, puts);
            forall i | 0 <= i < |r.queue| :: SoundEntry(r, r.queue[i])
  {
    hide ValidStateTransition, CallsFor, SoundEntry;
    var q := m.queue[0];
    assert RecordMatchesCalls(m, q.id);
    TransitionsAreTheDiagramWithTwoLoops(StateBefore(m, q), q.state);
    EntriesStaySound(m, RunHead(m, now, docker, puts));
  }

  lemma CheckKeepsSound(m: Machine, inspect: Uuid -> Inspection, persistent: bool, durable: Uuid -> bool)
    requires Sound(m)
    ensures Sound(HealthCheck(m, inspect, persistent, durable))
  {
    var r := HealthCheck(m, inspect, persistent, durable);
    forall id
      ensures RecordMatchesCalls(r, id)
    {
      assert RecordMatchesCalls(m, id);
    }
    EntriesStaySound(m, r);
  }

  lemma EnqueueKeepsSound(m: Machine, t: Task)
    requires Sound(m) && SoundEntry(m, t)
    ensures Sound(Enqueue(m, t))
  {
    var r := Enqueue(m, t);
    forall id
      ensures RecordMatchesCalls(r, id)
    {
      assert RecordMatchesCalls(m, id);
    }
    forall i | 0 <= i < |r.queue|
      ensures SoundEntry(r, r.queue[i])
    {
      assert i < |m.queue| ==> SoundEntry(m, m.queue[i]);
    }
  }

  lemma RestartKeepsSound(m: Machine)
    requires Sound(m)
    ensures Sound(Restart(m))
  {
    forall id
      ensures RecordMatchesCalls(Restart(m), id)
    {
      assert RecordMatchesCalls(m, id);
    }
  }

  lemma ActKeepsSound(m: Machine, a: Act, persistent: bool)
    requires Sound(m) && (a.Body? ==> SafeBody(a.task.state)) && !LosesRecord(m, a)
    ensures Sound(Do(m, a, persistent))
  {
    match a
    case Body(t) => EnqueueKeepsSound(m, t);
    case StopRequested(id) =>
      if id in m.db {
        EnqueueKeepsSound(m, m.db[id].(state := Completed));
      }
    case Run(now, docker, puts) =>
      if m.queue != [] {
        TransitionKeepsSound(m, now, docker, puts);
      }
    case Check(inspect, durable) => CheckKeepsSound(m, inspect, persistent, durable);
    case Restarted => RestartKeepsSound(m);
  }

  ghost predicate SafeBodies(acts: seq<Act>) {
    forall i | 0 <= i < |acts| :: acts[i].Body? ==> SafeBody(acts[i].task.state)
  }

  /** No step of the run loses the record of a call to Docker; any other Put may be lost. */
  predicate KeepsRecords(m: Machine, acts: seq<Act>, persistent: bool)
    decreases |acts|
  {
    acts == [] || (!LosesRecord(m, acts[0]) && KeepsRecords(Do(m, acts[0], persistent), acts[1..], persistent))
  }

  lemma {:induction false} RunKeepsSound(m: Machine, acts: seq<Act>, persistent: bool)
    requires Sound(m) && SafeBodies(acts) && KeepsRecords(m, acts, persistent)
    ensures Sound(RunOf(m, acts, persistent))
    decreases |acts|
  {
    if acts != [] {
      ActKeepsSound(m, acts[0], persistent);
      RunKeepsSound(Do(m, acts[0], persistent), acts[1..], persistent);
    }
  }

  lemma SoundIsWellFormed(m: Machine)
    requires Sound(m)
    ensures WellFormedCalls(m.calls)
  {
    forall id
      ensures IsLife(CallsFor(m.calls, id))
    {
      assert RecordMatchesCalls(m, id);
    }
  }

  // ---------- exactly which start bodies are safe ----------

  ghost predicate BodiesAre(acts: seq<Act>, s: State) {
    forall i | 0 <= i < |acts| :: acts[i].Body? ==> acts[i].task.state == Scheduled || acts[i].task.state == s
  }

  /**
   * Every run whose start bodies are Scheduled or in state s, and that keeps its records, makes only
   * well-formed calls.
   */
  ghost predicate TraceSafe(s: State) {
    forall acts, persistent | BodiesAre(acts, s) && KeepsRecords(FRESH, acts, persistent) ::
      WellFormedCalls(RunOf(FRESH, acts, persistent).calls)
  }

  /** Docker trace safety, with its exact condition on the start bodies the worker accepts. */
  lemma DockerTraceSafety(s: State, t: Task)
    ensures TraceSafe(s) <==> SafeBody(s)
  {
    if SafeBody(s) {
      forall acts, persistent | BodiesAre(acts, s) && KeepsRecords(FRESH, acts, persistent)
        ensures WellFormedCalls(RunOf(FRESH, acts, persistent).calls)
      {
        assert Sound(FRESH);
        RunKeepsSound(FRESH, acts, persistent);
        SoundIsWellFormed(RunOf(FRESH, acts, persistent));
      }
    } else {
      var acts := match s
        case Running => RunningBody(t)
        case Completed => CompletedBody(t)
        case _ => PendingBody(t);
      match s {
        case Running => RunningBodyBreaks(t);
        case Completed => CompletedBodyBreaks(t);
        case Pending => PendingBodyBreaks(t);
      }
      WrittenRunsKeepRecords(FRESH, acts, true);
      assert BodiesAre(acts, s) && !WellFormedCalls(RunOf(FRESH, acts, true).calls);
    }
  }

  lemma {:induction false} WrittenRunsKeepRecords(m: Machine, acts: seq<Act>, persistent: bool)
    requires forall i | 0 <= i < |acts| :: acts[i].Run? ==> acts[i].puts.last
    ensures KeepsRecords(m, acts, persistent)
    decreases |acts|
  {
    if acts != [] {
      WrittenRunsKeepRecords(Do(m, acts[0], persistent), acts[1..], persistent);
    }
  }

  /** An undisturbed step: Docker gives the container "c" or stops what it is asked to. */
  const SMOOTH: Act := Run(0, Answers(Given("c"), true), ALL_WRITTEN)

  function RunningBody(t: Task): seq<Act> {
    [Body(t.(state := Running)), SMOOTH, StopRequested(t.id), SMOOTH]
  }

  function CompletedBody(t: Task): seq<Act> {
    [Body(t.(state := Scheduled)), Body(t.(state := Completed, containerId := "other")), SMOOTH, SMOOTH]
  }

  function PendingBody(t: Task): seq<Act> {
    [Body(t.(state := Pending, containerId := "other")), SMOOTH, Body(t.(state := Scheduled)), StopRequested(t.id),
     SMOOTH, SMOOTH]
  }

  function RunSmoothly(m: Machine): Machine {
    Do(m, SMOOTH, true)
  }

  /** A stop without a start. */
  lemma RunningBodyBreaks(t: Task)
    ensures !WellFormedCalls(RunOf(FRESH, RunningBody(t), true).calls)
  {
    var q := t.(state := Running);
    var m1 := Enqueue(FRESH, q);
    var m2 := RunSmoothly(m1);
    assert m1.queue == [q] && m1.queue[1..] == [];
    assert m2 == Machine([], map[t.id := q], []);
    var stop := q.(state := Completed);
    var m3 := RequestStop(m2, t.id);
    assert m3 == Machine([stop], map[t.id := q], []);
    var m4 := RunSmoothly(m3);
    assert m4.calls == [StopCall(t.id, q.containerId, true, 0)];
    Unroll4(RunningBody(t));
    OneCall(m4.calls[0]);
    assert !IsLife(CallsFor(m4.calls, t.id));
  }

  /** A stop of a container no start gave. */
  lemma CompletedBodyBreaks(t: Task)
    ensures !WellFormedCalls(RunOf(FRESH, CompletedBody(t), true).calls)
  {
    var q, c := t.(state := Scheduled), t.(state := Completed, containerId := "other");
    var m2 := Enqueue(Enqueue(FRESH, q), c);
    assert m2.queue == [q, c] && m2.queue[1..] == [c];
    StartThenOtherStop(m2, q, c);
    Unroll4(CompletedBody(t));
  }

  /** A start that gives "c" is followed by a stop of "other". */
  lemma StartThenOtherStop(m: Machine, q: Task, c: Task)
    requires m.queue == [q, c] && q.id == c.id && m.calls == []
    requires q.state == Scheduled && c.state == Completed && c.containerId == "other"
    requires m.db == map[] || (q.id in m.db && m.db[q.id].state == Pending)
    ensures !WellFormedCalls(RunSmoothly(RunSmoothly(m)).calls)
  {
    assert m.queue[1..] == [c] && [c][1..] == [];
    var running := q.(startTime := 0, containerId := "c", state := Running);
    var m1 := RunSmoothly(m);
    assert m1 == Machine([c], m.db[q.id := running], [StartCall(q.id, Given("c"), 0)]);
    var m2 := RunSmoothly(m1);
    assert m2.calls == [StartCall(q.id, Given("c"), 0), StopCall(q.id, "other", true, 0)];
    TwoCalls(m2.calls[0], m2.calls[1]);
    assert "c" != "other";
    assert !IsLife(CallsFor(m2.calls, q.id));
  }

  /** A stop that carries the container id recorded before the start. */
  lemma PendingBodyBreaks(t: Task)
    ensures !WellFormedCalls(RunOf(FRESH, PendingBody(t), true).calls)
  {
    var acts := PendingBody(t);
    var m4 := PendingBodyQueued(t);
    RunTwo(m4, acts[4..], true);
    assert acts[4..][2..] == [];
    StartThenOtherStop(m4, t.(state := Scheduled), t.(state := Completed, containerId := "other"));
  }

  /** The record is Pending, a start is queued, and the stop copied the Pending record. */
  lemma PendingBodyQueued(t: Task) returns (m: Machine)
    ensures var p := t.(state := Pending, containerId := "other");
            m == Machine([t.(state := Scheduled), p.(state := Completed)], map[t.id := p], [])
    ensures RunOf(FRESH, PendingBody(t), true) == RunOf(m, PendingBody(t)[4..], true)
  {
    var acts := PendingBody(t);
    var p := t.(state := Pending, containerId := "other");
    var m2 := RunSmoothly(Enqueue(FRESH, p));
    assert Enqueue(FRESH, p).queue == [p] && [p][1..] == [];
    assert m2 == Machine([], map[t.id := p], []);
    m := RequestStop(Enqueue(m2, t.(state := Scheduled)), t.id);
    hide RunHead, RequestStop, Enqueue;
    RunTwo(FRESH, acts, true);
    RunTwo(m2, acts[2..], true);
    assert acts[2..][2..] == acts[4..];
  }

  lemma RunOne(m: Machine, acts: seq<Act>, persistent: bool)
    requires |acts| >= 1
    ensures RunOf(m, acts, persistent) == RunOf(Do(m, acts[0], persistent), acts[1..], persistent)
  {
  }

  lemma RunTwo(m: Machine, acts: seq<Act>, persistent: bool)
    requires |acts| >= 2
    ensures RunOf(m, acts, persistent) ==
            RunOf(Do(Do(m, acts[0], persistent), acts[1], persistent), acts[2..], persistent)
  {
    assert acts[1..][0] == acts[1] && acts[1..][1..] == acts[2..];
  }

  lemma Unroll4(acts: seq<Act>)
    requires |acts| == 4
    ensures RunOf(FRESH, acts, true) ==
            Do(Do(Do(Do(FRESH, acts[0], true), acts[1], true), acts[2], true), acts[3], true)
  {
    hide Do;
    RunTwo(FRESH, acts, true);
    RunTwo(Do(Do(FRESH, acts[0], true), acts[1], true), acts[2..], true);
    assert acts[2..][2..] == [];
  }

  lemma OneCall(a: DockerCall)
    ensures CallsFor([a], a.id) == [a]
  {
    CallSnoc([], a, a.id);
    assert [] + [a] == [a];
  }

  lemma TwoCalls(a: DockerCall, b: DockerCall)
    requires a.id == b.id
    ensures CallsFor([a, b], a.id) == [a, b]
  {
    assert [a, b] == [a] + [b];
    OneCall(a);
    CallSnoc([a], b, a.id);
  }

  // ---------- exactly which lost writes are harmful ----------

  /** However the worker goes on, with safe bodies and without losing a record, its calls stay well-formed. */
  ghost predicate SafeForever(m: Machine, persistent: bool) {
    forall acts | SafeBodies(acts) && KeepsRecords(m, acts, persistent) ::
      WellFormedCalls(RunOf(m, acts, persistent).calls)
  }

  /** Every machine the run passes through is safe forever. */
  ghost predicate StaysSafe(m: Machine, acts: seq<Act>, persistent: bool)
    decreases |acts|
  {
    SafeForever(m, persistent) && (acts == [] || StaysSafe(Do(m, acts[0], persistent), acts[1..], persistent))
  }

  /**
   * A run stays safe exactly when it loses no Put that follows a call to Docker.  Losing the Put of a new
   * record, or one of a health check, does no harm.
   */
  lemma {:induction false} SafeIffRecordsKept(m: Machine, acts: seq<Act>, persistent: bool)
    requires Sound(m) && SafeBodies(acts)
    ensures StaysSafe(m, acts, persistent) <==> KeepsRecords(m, acts, persistent)
    decreases |acts|
  {
    SoundIsSafeForever(m, persistent);
    if acts != [] {
      var r := Do(m, acts[0], persistent);
      if LosesRecord(m, acts[0]) {
        LostRecordBreaks(m, acts[0], persistent);
      } else {
        ActKeepsSound(m, acts[0], persistent);
        SafeIffRecordsKept(r, acts[1..], persistent);
      }
    }
  }

  lemma SoundIsSafeForever(m: Machine, persistent: bool)
    requires Sound(m)
    ensures SafeForever(m, persistent)
  {
    forall acts | SafeBodies(acts) && KeepsRecords(m, acts, persistent)
      ensures WellFormedCalls(RunOf(m, acts, persistent).calls)
    {
      RunKeepsSound(m, acts, persistent);
      SoundIsWellFormed(RunOf(m, acts, persistent));
    }
  }

  /** After a lost record the worker can be brought to repeat the call. */
  lemma LostRecordBreaks(m: Machine, a: Act, persistent: bool)
    requires Sound(m) && LosesRecord(m, a)
    ensures !SafeForever(Do(m, a, persistent), persistent)
  {
    var q, r := m.queue[0], Do(m, a, persistent);
    var request := if q.state == Scheduled then Body(q) else StopRequested(q.id);
    var again := [Restarted, request, SMOOTH];
    if q.state == Scheduled {
      LostRecordStartsTwice(m, a.now, a.docker, a.puts);
    } else {
      LostRecordStopsTwice(m, a.now, a.docker, a.puts);
    }
    Unroll3(r, again, persistent);
    WrittenRunsKeepRecords(r, again, persistent);
  }

  lemma Unroll3(m: Machine, acts: seq<Act>, persistent: bool)
    requires |acts| == 3
    ensures RunOf(m, acts, persistent) == Do(Do(Do(m, acts[0], persistent), acts[1], persistent), acts[2], persistent)
  {
    hide Do;
    RunTwo(m, acts, persistent);
    assert acts[2..][1..] == [];
    RunOne(Do(Do(m, acts[0], persistent), acts[1], persistent), acts[2..], persistent);
  }

  /** A start whose record is lost is started again by the next request for the same task. */
  lemma LostRecordStartsTwice(m: Machine, now: Time, docker: Answers, puts: Puts)
    requires Sound(m) && LosesRecord(m, Run(now, docker, puts)) && m.queue[0].state == Scheduled
    ensures var q, r := m.queue[0], RunHead(m, now, docker, puts);
            var again := RunSmoothly(Enqueue(Restart(r), q));
            && again.calls == m.calls + [StartCall(q.id, docker.start, now)] + [StartCall(q.id, Given("c"), 0)]
            && !WellFormedCalls(again.calls)
  {
    var q, r := m.queue[0], RunHead(m, now, docker, puts);
    assert RecordMatchesCalls(m, q.id);
    TransitionsAreTheDiagramWithTwoLoops(StateBefore(m, q), q.state);
    TransitionsAreTheDiagramWithTwoLoops(Scheduled, Scheduled);
    assert r.calls == m.calls + [StartCall(q.id, docker.start, now)];
    var queued := Enqueue(Restart(r), q);
    assert queued.queue == [q] && StateBefore(queued, q) == Scheduled;
    CallSnoc(m.calls, StartCall(q.id, docker.start, now), q.id);
    CallSnoc(r.calls, StartCall(q.id, Given("c"), 0), q.id);
    assert !IsLife(CallsFor(RunSmoothly(queued).calls, q.id));
  }

  /** A stop whose record is lost is made again by the next stop request. */
  lemma LostRecordStopsTwice(m: Machine, now: Time, docker: Answers, puts: Puts)
    requires Sound(m) && LosesRecord(m, Run(now, docker, puts)) && m.queue[0].state == Completed
    ensures var q, r := m.queue[0], RunHead(m, now, docker, puts);
            var again := RunSmoothly(RequestStop(Restart(r), q.id));
            && again.calls == m.calls + [StopCall(q.id, q.containerId, docker.stopped, now)]
               + [StopCall(q.id, q.containerId, true, 0)]
            && !WellFormedCalls(again.calls)
  {
    var q, r := m.queue[0], RunHead(m, now, docker, puts);
    assert SoundEntry(m, q);
    assert RecordMatchesCalls(m, q.id);
    TransitionsAreTheDiagramWithTwoLoops(StateBefore(m, q), q.state);
    TransitionsAreTheDiagramWithTwoLoops(Running, Completed);
    assert r.db == m.db && r.calls == m.calls + [StopCall(q.id, q.containerId, docker.stopped, now)];
    var queued := RequestStop(Restart(r), q.id);
    assert queued.queue == [m.db[q.id].(state := Completed)];
    CallSnoc(m.calls, StopCall(q.id, q.containerId, docker.stopped, now), q.id);
    CallSnoc(r.calls, StopCall(q.id, q.containerId, true, 0), q.id);
    assert !IsLife(CallsFor(RunSmoothly(queued).calls, q.id));
  }

  /**
   * A worker that comes back under another name opens an empty store.  Its next start of a task breaks the
   * guarantees exactly when it had made a call for that task under its old name.
   */
  lemma ForgottenRecordsStartTwice(m: Machine, q: Task)
    requires Sound(m) && q.state == Scheduled
    ensures var renamed := Restart(m).(db := map[]);
            WellFormedCalls(RunSmoothly(Enqueue(renamed, q)).calls) <==> CallsFor(m.calls, q.id) == []
  {
    var queued := Enqueue(Restart(m).(db := map[]), q);
    assert queued.queue == [q] && StateBefore(queued, q) == Scheduled;
    TransitionsAreTheDiagramWithTwoLoops(Scheduled, Scheduled);
    var again := m.calls + [StartCall(q.id, Given("c"), 0)];
    assert RunSmoothly(queued).calls == again;
    hide RunHead;
    SoundIsWellFormed(m);
    forall id
      ensures CallsFor(again, id) == CallsFor(m.calls, id) + if id == q.id then [again[|m.calls|]] else []
      ensures IsLife(CallsFor(again, id)) <==> id != q.id || CallsFor(m.calls, id) == []
    {
      CallSnoc(m.calls, StartCall(q.id, Given("c"), 0), id);
      assert IsLife(CallsFor(m.calls, id));
    }
  }

  // ---------- an undisturbed life ----------

  /** Start, run, stop request, run: what is recorded, and what Docker is asked, whatever Docker answers. */
  lemma StartThenStop(m: Machine, t: Task, started: Time, a: Answers, stopped: Time, b: Answers)
    requires m.queue == [] && t.id !in m.db && t.state == Scheduled
    ensures var acts := [Body(t), Run(started, a, ALL_WRITTEN), StopRequested(t.id), Run(stopped, b, ALL_WRITTEN)];
            var c, r := ContainerOf(a.start), RunOf(m, acts, true);
            && r.queue == []
            && r.db == m.db[t.id :=
                            t.(state := Completed, startTime := started, containerId := c, finishTime := stopped)]
            && r.calls == m.calls + [StartCall(t.id, a.start, started), StopCall(t.id, c, b.stopped, stopped)]
  {
    var acts := [Body(t), Run(started, a, ALL_WRITTEN), StopRequested(t.id), Run(stopped, b, ALL_WRITTEN)];
    var running := t.(startTime := started, containerId := ContainerOf(a.start), state := Running);
    StartRun(m, t, started, a);
    var m2 := RunHead(Enqueue(m, t), started, a, ALL_WRITTEN);
    StopRun(m2, running, stopped, b);
    hide RunHead, Enqueue, RequestStop;
    RunTwo(m, acts, true);
    RunTwo(m2, acts[2..], true);
    assert acts[2..][2..] == [];
  }

  /** An idle worker is given a task and runs it. */
  lemma StartRun(m: Machine, t: Task, now: Time, docker: Answers)
    requires m.queue == [] && t.id !in m.db && t.state == Scheduled
    ensures var running := t.(startTime := now, containerId := ContainerOf(docker.start), state := Running);
            RunHead(Enqueue(m, t), now, docker, ALL_WRITTEN) ==
            Machine([], m.db[t.id := running], m.calls + [StartCall(t.id, docker.start, now)])
  {
    TransitionsAreTheDiagramWithTwoLoops(Scheduled, Scheduled);
    assert Enqueue(m, t).queue == [t] && [t][1..] == [];
  }

  /** An idle worker is asked to stop a running task. */
  lemma StopRun(m: Machine, running: Task, now: Time, docker: Answers)
    requires m.queue == [] && running.id in m.db && m.db[running.id] == running && running.state == Running
    ensures RunHead(RequestStop(m, running.id), now, docker, ALL_WRITTEN) ==
            Machine([], m.db[running.id := running.(state := Completed, finishTime := now)],
                    m.calls + [StopCall(running.id, running.containerId, docker.stopped, now)])
  {
    TransitionsAreTheDiagramWithTwoLoops(Running, Completed);
    var q := running.(state := Completed);
    assert RequestStop(m, running.id).queue == [q] && [q][1..] == [];
  }

  // ---------- what one step does, from the states alone ----------

  /** An entry that asks for a start, of a task that has not got further than Scheduled. */
  predicate AsksStart(m: Machine, q: Task) {
    q.state == Scheduled && (q.id in m.db ==> m.db[q.id].state == Pending || m.db[q.id].state == Scheduled)
  }

  /** An entry that asks for the stop of a running task. */
  predicate AsksStop(m: Machine, q: Task) {
    q.state == Completed && q.id in m.db && m.db[q.id].state == Running
  }

  /** The record an entry leads to. */
  function Recorded(m: Machine, q: Task, now: Time, docker: Answers, puts: Puts): Option<Task> {
    if puts.last && AsksStart(m, q)
    then Some(q.(state := Running, startTime := now, containerId := ContainerOf(docker.start)))
    else if puts.last && AsksStop(m, q) then Some(q.(finishTime := now))
    else if q.id in m.db then Some(m.db[q.id])
    else if puts.first then Some(q)
    else None
  }

  /** Which call the head of any queue leads to, what is recorded of it, and that nothing else changes. */
  lemma HeadIsRun(m: Machine, now: Time, docker: Answers, puts: Puts)
    requires m.queue != []
    ensures var q, r := m.queue[0], RunHead(m, now, docker, puts);
            && m.queue == [q] + r.queue
            && r.calls == m.calls + (if AsksStart(m, q) then [StartCall(q.id, docker.start, now)]
                                     else if AsksStop(m, q) then [StopCall(q.id, q.containerId, docker.stopped, now)]
                                     else [])
            && Lookup(r.db, q.id) == Recorded(m, q, now, docker, puts)
            && forall id | id != q.id :: Lookup(r.db, id) == Lookup(m.db, id)
  {
    hide ValidStateTransition;
    TransitionsAreTheDiagramWithTwoLoops(StateBefore(m, m.queue[0]), m.queue[0].state);
  }

  /** On any machine a stored record changes only in a step that calls Docker for it, or in a check of its container. */
  lemma RecordsNeedACause(m: Machine, a: Act, persistent: bool, id: Uuid)
    requires id in m.db && !(a.Check? && m.db[id].state == Running)
    requires forall c | c in Do(m, a, persistent).calls[|m.calls|..] :: c.id != id
    ensures Lookup(Do(m, a, persistent).db, id) == Some(m.db[id])
  {
  }

  /** A check looks at every record, and changes nothing but records. */
  lemma EveryRecordIsChecked(m: Machine, inspect: Uuid -> Inspection, persistent: bool, durable: Uuid -> bool, id: Uuid)
    requires id in m.db
    ensures var t, r := m.db[id], HealthCheck(m, inspect, persistent, durable);
            && r.queue == m.queue && r.calls == m.calls && r.db.Keys == m.db.Keys
            && (t.state != Running ==> r.db[id] == t)
            && (t.state == Running ==>
                  r.db[id] ==
                  t.(state := if FindsFailure(inspect(id), persistent, durable(id)) then Failed else Running,
                     portBindings := if persistent || inspect(id).Unseen? then t.portBindings else inspect(id).ports))
  {
    CheckDetects(m.db[id], inspect(id), persistent, durable(id));
  }

  // ---------- no accepted request is lost ----------

  /** What an act asks the worker to do: a body as it is, a stop as the Completed copy of the record at that moment. */
  function Asked(m: Machine, a: Act): seq<Task> {
    match a
    case Body(t) => [t]
    case StopRequested(id) => if id in m.db then [m.db[id].(state := Completed)] else []
    case _ => []
  }

  function AskedSince(m: Machine, acts: seq<Act>, persistent: bool, k: nat): seq<Task>
    requires k <= |acts|
  {
    if k == 0 then m.queue
    else if acts[k - 1].Restarted? then []
    else AskedSince(m, acts, persistent, k - 1) + Asked(RunOf(m, acts[..k - 1], persistent), acts[k - 1])
  }

  /** The heads taken from the queue. */
  function RunSince(m: Machine, acts: seq<Act>, persistent: bool, k: nat): seq<Task>
    requires k <= |acts|
  {
    if k == 0 || acts[k - 1].Restarted? then []
    else
      var before := RunOf(m, acts[..k - 1], persistent);
      RunSince(m, acts, persistent, k - 1) + if acts[k - 1].Run? && before.queue != [] then [before.queue[0]] else []
  }

  lemma {:induction false} RunOfSnoc(m: Machine, acts: seq<Act>, a: Act, persistent: bool)
    ensures RunOf(m, acts + [a], persistent) == Do(RunOf(m, acts, persistent), a, persistent)
    decreases |acts|
  {
    hide Do;
    if acts == [] {
      assert ([] + [a])[1..] == [];
    } else {
      assert (acts + [a])[0] == acts[0] && (acts + [a])[1..] == acts[1..] + [a];
      RunOfSnoc(Do(m, acts[0], persistent), acts[1..], a, persistent);
    }
  }

  lemma StepConservesQueue(m: Machine, a: Act, persistent: bool)
    ensures var r := Do(m, a, persistent);
            if a.Restarted? then r.queue == []
            else if a.Run? && m.queue != [] then m.queue == [m.queue[0]] + r.queue
            else r.queue == m.queue + Asked(m, a)
  {
    hide ValidStateTransition;
  }

  /** Conservation: what was asked since the last restart is what was run followed by the queue, in order. */
  lemma {:induction false} RequestsAreConserved(m: Machine, acts: seq<Act>, persistent: bool, k: nat)
    requires k <= |acts|
    ensures AskedSince(m, acts, persistent, k) ==
            RunSince(m, acts, persistent, k) + RunOf(m, acts[..k], persistent).queue
  {
    hide Do;
    if k > 0 {
      var before, a := RunOf(m, acts[..k - 1], persistent), acts[k - 1];
      RequestsAreConserved(m, acts, persistent, k - 1);
      assert acts[..k] == acts[..k - 1] + [a];
      RunOfSnoc(m, acts[..k - 1], a, persistent);
      StepConservesQueue(before, a, persistent);
    }
  }

  // ---------- where failures come from ----------

  /** A health check that finds the running task failed, or the first record of an entry that says so itself. */
  predicate Fails(m: Machine, a: Act, persistent: bool, id: Uuid) {
    match a
    case Check(inspect, durable) =>
      id in m.db && m.db[id].state == Running && FindsFailure(inspect(id), persistent, durable(id))
    case Run(_, _, puts) =>
      id !in m.db && puts.first && m.queue != [] && m.queue[0].id == id && m.queue[0].state == Failed
    case _ => false
  }

  predicate IsFailed(m: Machine, id: Uuid) {
    id in m.db && m.db[id].state == Failed
  }

  /** On any machine a record is Failed after a step exactly when it was before, or the step is one of these two. */
  lemma StepFails(m: Machine, a: Act, persistent: bool, id: Uuid)
    ensures IsFailed(Do(m, a, persistent), id) <==> IsFailed(m, id) || Fails(m, a, persistent, id)
  {
    hide ValidStateTransition;
    if a.Run? && m.queue != [] {
      TransitionsAreTheDiagramWithTwoLoops(StateBefore(m, m.queue[0]), m.queue[0].state);
    }
  }

  /** Over every run of any worker, each record that has become Failed did so in one of these two steps. */
  lemma {:induction false} FailuresHaveACause(m: Machine, acts: seq<Act>, persistent: bool, id: Uuid) returns (k: nat)
    requires IsFailed(RunOf(m, acts, persistent), id) && !IsFailed(m, id)
    ensures k < |acts| && Fails(RunOf(m, acts[..k], persistent), acts[k], persistent, id)
    decreases |acts|
  {
    hide Do, Fails;
    var r := Do(m, acts[0], persistent);
    StepFails(m, acts[0], persistent, id);
    if IsFailed(r, id) {
      k := 0;
    } else {
      k := FailuresHaveACause(r, acts[1..], persistent, id);
      assert acts[..k + 1][1..] == acts[1..][..k];
      k := k + 1;
    }
  }

  // ---------- what holds of any machine ----------

  /** Records never disappear, never move back in rank, and a terminal record never changes again. */
  lemma RecordsOnlyAdvance(m: Machine, a: Act, persistent: bool, id: Uuid)
    requires id in m.db
    ensures id in Do(m, a, persistent).db
    ensures Rank(m.db[id].state) <= Rank(Do(m, a, persistent).db[id].state)
    ensures IsTerminal(m.db[id].state) ==> Do(m, a, persistent).db[id] == m.db[id]
  {
    if a.Run? && m.queue != [] {
      TransitionsAreTheDiagramWithTwoLoops(StateBefore(m, m.queue[0]), m.queue[0].state);
    }
  }

  lemma {:induction false} RunsOnlyAdvance(m: Machine, acts: seq<Act>, persistent: bool, id: Uuid)
    requires id in m.db
    ensures id in RunOf(m, acts, persistent).db
    ensures Rank(m.db[id].state) <= Rank(RunOf(m, acts, persistent).db[id].state)
    ensures IsTerminal(m.db[id].state) ==> RunOf(m, acts, persistent).db[id] == m.db[id]
    decreases |acts|
  {
    if acts != [] {
      RecordsOnlyAdvance(m, acts[0], persistent, id);
      RunsOnlyAdvance(Do(m, acts[0], persistent), acts[1..], persistent, id);
    }
  }

  /** Calls with at most two per id number at most twice the ids. */
  lemma {:induction false} CallsBounded(calls: seq<DockerCall>, ids: set<Uuid>)
    requires forall i | 0 <= i < |calls| :: calls[i].id in ids
    requires forall id | id in ids :: |CallsFor(calls, id)| <= 2
    ensures |calls| <= 2 * |ids|
    decreases |ids|
  {
    if ids == {} {
      assert calls == [];
    } else {
      var id :| id in ids;
      var others := Filter(calls, (c: DockerCall) => c.id != id);
      var rest := ids - {id};
      SplitSize(calls, id);
      forall i | 0 <= i < |others|
        ensures others[i].id in rest
      {
        FilterMember(calls, (c: DockerCall) => c.id != id, others[i]);
      }
      forall x | x in rest
        ensures |CallsFor(others, x)| <= 2
      {
        OthersKeep(calls, id, x);
      }
      CallsBounded(others, rest);
    }
  }

  lemma {:induction false} SplitSize(calls: seq<DockerCall>, id: Uuid)
    ensures |calls| == |CallsFor(calls, id)| + |Filter(calls, (c: DockerCall) => c.id != id)|
  {
    if calls != [] {
      SplitSize(calls[1..], id);
    }
  }

  lemma {:induction false} OthersKeep(calls: seq<DockerCall>, id: Uuid, x: Uuid)
    requires x != id
    ensures CallsFor(Filter(calls, (c: DockerCall) => c.id != id), x) == CallsFor(calls, x)
  {
    if calls != [] {
      OthersKeep(calls[1..], id, x);
      var others := Filter(calls[1..], (c: DockerCall) => c.id != id);
      if calls[0].id != id {
        assert ([calls[0]] + others)[1..] == others;
      }
    }
  }

  /** A sound worker with n task records has made at most 2n Docker calls. */
  lemma AtMostTwoCallsPerRecord(m: Machine)
    requires Sound(m)
    ensures |m.calls| <= 2 * |m.db|
  {
    forall i | 0 <= i < |m.calls|
      ensures m.calls[i].id in m.db.Keys
    {
      var id := m.calls[i].id;
      assert RecordMatchesCalls(m, id);
      var a := FilterIndex(m.calls, (c: DockerCall) => c.id == id, i);
    }
    forall id | id in m.db.Keys
      ensures |CallsFor(m.calls, id)| <= 2
    {
      assert RecordMatchesCalls(m, id);
    }
    CallsBounded(m.calls, m.db.Keys);
    assert |m.db.Keys| == |m.db|;
  }

  lemma NoTwoStarts(life: seq<DockerCall>)
    requires IsLife(life)
    ensures forall a, b | 0 <= a < b < |life| :: !(life[a].StartCall? && life[b].StartCall?)
  {
  }

  /** In a well-formed log no task is started twice. */
  lemma OneStartPerTask(calls: seq<DockerCall>, i: nat, j: nat)
    requires WellFormedCalls(calls) && i < j < |calls| && calls[i].StartCall? && calls[j].StartCall?
    ensures calls[i].id != calls[j].id
  {
    var id := calls[i].id;
    if calls[j].id == id {
      NoTwoStarts(CallsFor(calls, id));
      FilterKeepsPairs(calls, (c: DockerCall) => c.id == id, i, j);
    }
  }
}
