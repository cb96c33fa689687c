/**
 * What the manager says about a task, and what Docker reported of its container.  Running and Completed are
 * recorded whatever Docker answers, so they tell what was asked; what Docker reported is a second question.
 */
module Truth {
  import opened Seqs
  import opened Tasks
  import opened StateModel
  import opened ManagerModel
  import opened WorkerModel
  import opened System
  import opened Guarantees

  /**
   * A record that says its task runs, or is completed: the worker it is assigned to has asked Docker to start the
   * task at the start time shown and was left with the id shown, and for Completed has also asked Docker to stop
   * that container at the finish time shown.
   */
  ghost predicate Backed(machines: map<Uuid, Machine>, placement: map<Uuid, Uuid>, id: Uuid, t: Task) {
    t.state == Running || t.state == Completed ==>
      && id in placement && placement[id] in machines
      && var life := CallsFor(machines[placement[id]].calls, id);
         if t.state == Running then StartedAs(life, t) else StoppedAs(life, t)
  }

  ghost predicate Claim(s: World, t: Task, id: Uuid) {
    Backed(s.machines, s.mgr.st.placement, id, t)
  }

  /** The fields a claim is about. */
  predicate SameClaim(a: Task, b: Task) {
    a.state == b.state && a.containerId == b.containerId && a.startTime == b.startTime && a.finishTime == b.finishTime
  }

  /** Every stored record and every report on its way makes only claims that are backed. */
  ghost predicate Truthful(s: World) {
    && (forall id | id in s.mgr.st.tasks :: Claim(s, s.mgr.st.tasks[id], id))
    && (forall t | t in s.reports :: Claim(s, t, t.id))
  }

  // ---------- claims stay backed ----------

  /** No worker disappears and no worker's calls are ever taken back. */
  ghost predicate CallsGrow(before: map<Uuid, Machine>, after: map<Uuid, Machine>) {
    forall w | w in before :: w in after && before[w].calls <= after[w].calls
  }

  lemma {:induction false} PrefixLife(a: seq<DockerCall>, b: seq<DockerCall>, id: Uuid)
    requires a <= b
    ensures CallsFor(a, id) <= CallsFor(b, id)
  {
    assert b == a + b[|a|..];
    FilterAppend(a, b[|a|..], (c: DockerCall) => c.id == id);
  }

  lemma BackedStays(s: World, r: World, id: Uuid, t: Task)
    requires Backed(s.machines, s.mgr.st.placement, id, t)
    requires CallsGrow(s.machines, r.machines) && Extends(s.mgr.st.placement, r.mgr.st.placement)
    requires forall w | w in r.machines :: WellFormedCalls(r.machines[w].calls)
    ensures Backed(r.machines, r.mgr.st.placement, id, t)
  {
    if t.state == Running || t.state == Completed {
      var w := s.mgr.st.placement[id];
      assert Placed(r.mgr.st.placement, id, w);
      PrefixLife(s.machines[w].calls, r.machines[w].calls, id);
      assert IsLife(CallsFor(r.machines[w].calls, id));
    }
  }

  lemma ClaimsStay(s: World, r: World)
    requires Truthful(s) && Inv(r)
    requires CallsGrow(s.machines, r.machines) && Extends(s.mgr.st.placement, r.mgr.st.placement)
    ensures forall id | id in s.mgr.st.tasks :: Claim(r, s.mgr.st.tasks[id], id)
    ensures forall t | t in s.reports :: Claim(r, t, t.id)
  {
    forall w | w in r.machines
      ensures WellFormedCalls(r.machines[w].calls)
    {
      assert MachineInv(r.mgr.st.placement, w, r.machines[w]);
      SoundIsWellFormed(r.machines[w]);
    }
    hide Inv, CallsGrow, Extends, WellFormedCalls, Backed;
    forall id | id in s.mgr.st.tasks
      ensures Claim(r, s.mgr.st.tasks[id], id)
    {
      assert Claim(s, s.mgr.st.tasks[id], id);
      BackedStays(s, r, id, s.mgr.st.tasks[id]);
    }
    forall t | t in s.reports
      ensures Claim(r, t, t.id)
    {
      assert Claim(s, t, t.id);
      BackedStays(s, r, t.id, t);
    }
  }

  // ---------- new claims are backed ----------

  /** A worker's own record is backed by its calls. */
  lemma RecordsAreBacked(s: World, w: Uuid, t: Task)
    requires Inv(s) && w in s.machines && t in s.machines[w].db.Values
    ensures Claim(s, t, t.id)
  {
    var m := s.machines[w];
    assert MachineInv(s.mgr.st.placement, w, m);
    var id :| id in m.db && m.db[id] == t;
    assert RecordMatchesCalls(m, id);
  }

  /** Where the records of a step come from: kept, set to Scheduled or Failed, or taken over from a report. */
  ghost predicate TasksFrom(before: map<Uuid, Task>, after: map<Uuid, Task>, reports: set<Task>) {
    forall id | id in after ::
      || (id in before && SameClaim(after[id], before[id]))
      || after[id].state == Scheduled || after[id].state == Failed
      || exists t :: t in reports && t.id == id && SameClaim(after[id], t)
  }

  lemma ReportedTasks(s: Storage, t: Task, ok: bool, reports: set<Task>)
    requires t in reports || t.state == Failed
    ensures TasksFrom(s.tasks, Update(s, t, ok).tasks, reports)
  {
    UpdateFrame(s, t, ok);
  }

  lemma IssuedTasks(m: Mgr, choice: Option<Uuid>, taskOk: bool, assignOk: bool, reports: set<Task>)
    requires m.sender.Working?
    ensures TasksFrom(m.st.tasks, Issue(m, choice, taskOk, assignOk).st.tasks, reports)
  {
    hide Assign;
    var t := m.sender.event.task;
    var target := Target(m.st, t.id, choice);
    if target.Some? {
      AssignFrame(m.st, t, target.value, taskOk, assignOk);
    }
  }

  lemma ManagerTasks(s: World, a: Action)
    requires Enabled(s, a)
    ensures TasksFrom(s.mgr.st.tasks, Next(s, a).mgr.st.tasks, s.reports)
  {
    hide Issue, Update, CountUpdate, MovesAfterIssue, Rehydrated;
    match a {
      case IssueRequest(choice, taskOk, assignOk) =>
        IssuedTasks(s.mgr, choice, taskOk, assignOk, s.reports);
        hide TasksFrom;
      case GiveUp(ok) =>
        ReportedTasks(s.mgr.st, s.mgr.sender.original.(state := Failed), ok, s.reports);
        hide TasksFrom;
      case Apply(t, ok) =>
        ReportedTasks(s.mgr.st, t, ok, s.reports);
        hide TasksFrom;
      case _ =>
    }
  }

  lemma StepGrowsCalls(s: World, a: Action)
    requires Enabled(s, a)
    ensures CallsGrow(s.machines, Next(s, a).machines)
    ensures Next(s, a).reports == if a.Fetch? then s.reports + s.machines[a.worker].db.Values else s.reports
  {
    hide Issue, MarkFailed, Begin, Reply, Update, CountUpdate, MovesAfterIssue, Register, LosesRecord, Rehydrated;
    if a.RunTask? {
      RunGrowsCalls(s.machines[a.worker], a.now, a.docker, a.puts);
    }
    hide RunHead;
  }

  lemma RunGrowsCalls(m: Machine, now: Time, docker: Answers, puts: Puts)
    ensures m.calls <= RunHead(m, now, docker, puts).calls
  {
  }

  lemma StepKeepsTruth(s: World, a: Action)
    requires Inv(s) && Truthful(s) && Enabled(s, a)
    ensures Truthful(Next(s, a))
  {
    var r := Next(s, a);
    StepKeepsInv(s, a);
    StepGrowsCalls(s, a);
    ManagerTasks(s, a);
    ClaimsStay(s, r);
    if a.Fetch? {
      FetchStep(s, a.worker);
    }
    hide Inv, Next, Enabled, CallsGrow, Extends;
    ClaimsCarry(s, r);
  }

  /** Kept claims carry over to the records they came from. */
  lemma ClaimsCarry(s: World, r: World)
    requires TasksFrom(s.mgr.st.tasks, r.mgr.st.tasks, s.reports)
    requires forall id | id in s.mgr.st.tasks :: Claim(r, s.mgr.st.tasks[id], id)
    requires forall t | t in s.reports :: Claim(r, t, t.id)
    requires forall t | t in r.reports :: Claim(r, t, t.id)
    ensures Truthful(r)
  {
    forall id | id in r.mgr.st.tasks
      ensures Claim(r, r.mgr.st.tasks[id], id)
    {
      var record := r.mgr.st.tasks[id];
      if t :| t in s.reports && t.id == id && SameClaim(record, t) {
        assert Claim(r, t, t.id);
      } else if id in s.mgr.st.tasks {
        assert Claim(r, s.mgr.st.tasks[id], id);
      }
    }
  }

  lemma FetchStep(s: World, w: Uuid)
    requires Inv(s) && Enabled(s, Fetch(w))
    ensures forall t | t in s.machines[w].db.Values :: Claim(Next(s, Fetch(w)), t, t.id)
  {
    forall t | t in s.machines[w].db.Values
      ensures Claim(Next(s, Fetch(w)), t, t.id)
    {
      RecordsAreBacked(s, w, t);
    }
  }

  lemma {:induction false} RunsKeepTruth(worlds: seq<World>, actions: seq<Action>, i: nat)
    requires IsRun(worlds, actions) && i < |worlds|
    ensures Truthful(worlds[i])
  {
    if i > 0 {
      RunsKeepTruth(worlds, actions, i - 1);
      RunsKeepInv(worlds, actions, i - 1);
      hide Inv, Next, Enabled, Truthful;
      StepKeepsTruth(worlds[i - 1], actions[i - 1]);
    }
  }

  // ---------- what Docker reported ----------

  /** Docker reported to some worker that it started this container for the task. */
  ghost predicate ReportedStarted(s: World, id: Uuid, c: ContainerId) {
    exists w, at :: w in s.machines && StartCall(id, Given(c), at) in s.machines[w].calls
  }

  /** Docker reported to some worker that it stopped this container for the task. */
  ghost predicate ReportedStopped(s: World, id: Uuid, c: ContainerId) {
    exists w, at :: w in s.machines && StopCall(id, c, true, at) in s.machines[w].calls
  }

  ghost predicate HasHome(s: World, id: Uuid) {
    id in s.mgr.st.placement && s.mgr.st.placement[id] in s.machines
  }

  /** The calls made for a task by the worker it is assigned to. */
  ghost function LifeOf(s: World, id: Uuid): seq<DockerCall>
    requires HasHome(s, id)
  {
    CallsFor(s.machines[s.mgr.st.placement[id]].calls, id)
  }

  /** No other worker has made a call for the task. */
  lemma AllCallsAreAtHome(s: World, id: Uuid, w: Uuid, call: DockerCall)
    requires Inv(s) && HasHome(s, id) && w in s.machines && call in s.machines[w].calls && call.id == id
    ensures w == s.mgr.st.placement[id] && call in LifeOf(s, id)
  {
    FilterMember(s.machines[w].calls, (c: DockerCall) => c.id == id, call);
    var j :| 0 <= j < |s.machines[w].calls| && s.machines[w].calls[j] == call;
    CalledTaskIsHome(s.mgr.st.placement, w, s.machines[w], j);
  }

  lemma LifeIsLife(s: World, id: Uuid)
    requires Inv(s) && HasHome(s, id)
    ensures IsLife(LifeOf(s, id))
    ensures forall call :: call in LifeOf(s, id) <==> call in s.machines[s.mgr.st.placement[id]].calls && call.id == id
  {
    var m := s.machines[s.mgr.st.placement[id]];
    assert MachineInv(s.mgr.st.placement, s.mgr.st.placement[id], m);
    SoundIsWellFormed(m);
    forall call
      ensures call in LifeOf(s, id) <==> call in m.calls && call.id == id
    {
      FilterMember(m.calls, (c: DockerCall) => c.id == id, call);
    }
  }

  /** What Docker reported of the containers of a task can be read off the calls of its own worker. */
  lemma LifeTellsWhatHappened(s: World, id: Uuid, c: ContainerId)
    requires Inv(s) && HasHome(s, id)
    ensures var life := LifeOf(s, id);
            && (ReportedStarted(s, id, c) <==> life != [] && life[0].StartCall? && life[0].answer == Given(c))
            && (ReportedStopped(s, id, c) <==>
                  |life| == 2 && life[1].StopCall? && life[1].container == c && life[1].stopped)
  {
    LifeTellsStart(s, id, c);
    LifeTellsStop(s, id, c);
  }

  lemma LifeTellsStart(s: World, id: Uuid, c: ContainerId)
    requires Inv(s) && HasHome(s, id)
    ensures var life := LifeOf(s, id);
            ReportedStarted(s, id, c) <==> life != [] && life[0].StartCall? && life[0].answer == Given(c)
  {
    var life := LifeOf(s, id);
    LifeIsLife(s, id);
    if w, at :| w in s.machines && StartCall(id, Given(c), at) in s.machines[w].calls {
      AllCallsAreAtHome(s, id, w, StartCall(id, Given(c), at));
    }
    hide Inv, LifeOf;
    assert life != [] ==> life[0] in life;
  }

  lemma LifeTellsStop(s: World, id: Uuid, c: ContainerId)
    requires Inv(s) && HasHome(s, id)
    ensures var life := LifeOf(s, id);
            ReportedStopped(s, id, c) <==> |life| == 2 && life[1].StopCall? && life[1].container == c && life[1].stopped
  {
    var life := LifeOf(s, id);
    LifeIsLife(s, id);
    if w, at :| w in s.machines && StopCall(id, c, true, at) in s.machines[w].calls {
      AllCallsAreAtHome(s, id, w, StopCall(id, c, true, at));
    }
    hide Inv, LifeOf;
    assert |life| == 2 ==> life[1] in life;
  }

  // ---------- every call has its step ----------

  /** The step in which worker w took an entry for the task from its queue and made this call, with Docker's answer. */
  ghost predicate MadeIn(s: World, a: Action, w: Uuid, call: DockerCall) {
    && a.RunTask? && a.worker == w && w in s.machines && s.machines[w].queue != []
    && var q := s.machines[w].queue[0];
       && q.id == call.id
       && match call
          case StartCall(_, answer, at) => q.state == Scheduled && answer == a.docker.start && at == a.now
          case StopCall(_, c, stopped, at) =>
            q.state == Completed && c == q.containerId && stopped == a.docker.stopped && at == a.now
  }

  lemma StepMakesCall(s: World, a: Action, w: Uuid)
    requires Enabled(s, a) && w in Next(s, a).machines
    ensures w in s.machines
    ensures var before, after := s.machines[w].calls, Next(s, a).machines[w].calls;
            after == before || (after == before + [after[|before|]] && MadeIn(s, a, w, after[|before|]))
  {
    hide Issue, MarkFailed, Begin, Reply, Update, CountUpdate, MovesAfterIssue, Register, LosesRecord;
  }

  /** Every call in a worker's log was made in one step of the run, with the answer Docker gave in that step. */
  lemma {:induction false} CallsComeFromSteps(worlds: seq<World>, actions: seq<Action>, i: nat, w: Uuid,
      call: DockerCall)
    returns (j: nat)
    requires IsRun(worlds, actions) && i < |worlds| && w in worlds[i].machines && call in worlds[i].machines[w].calls
    ensures j < i && MadeIn(worlds[j], actions[j], w, call)
  {
    hide Next, Enabled, MadeIn;
    if i == 0 {
      assert false;
    }
    StepMakesCall(worlds[i - 1], actions[i - 1], w);
    if call in worlds[i - 1].machines[w].calls {
      j := CallsComeFromSteps(worlds, actions, i - 1, w, call);
    } else {
      j := i - 1;
    }
  }

  // ---------- what the manager shows ----------

  ghost predicate ShownAs(s: World, id: Uuid, state: State) {
    id in s.mgr.st.tasks && s.mgr.st.tasks[id].state == state
  }

  lemma ShownIsBacked(worlds: seq<World>, actions: seq<Action>, i: nat, id: Uuid)
    requires IsRun(worlds, actions) && i < |worlds|
    requires ShownAs(worlds[i], id, Running) || ShownAs(worlds[i], id, Completed)
    ensures Inv(worlds[i]) && HasHome(worlds[i], id)
    ensures var t := worlds[i].mgr.st.tasks[id];
            && StartedAs(LifeOf(worlds[i], id), t)
            && (ShownAs(worlds[i], id, Completed) ==> StoppedAs(LifeOf(worlds[i], id), t))
  {
    RunsKeepTruth(worlds, actions, i);
    RunsKeepInv(worlds, actions, i);
    hide Inv;
    assert Claim(worlds[i], worlds[i].mgr.st.tasks[id], id);
  }

  /**
   * In every reachable world a task shown as Running or Completed is on a worker that asked Docker to start it,
   * in a step of the run, at the start time shown.  The id shown is that of the one container Docker reported to
   * have started for it, anywhere; it is empty exactly when there is none.
   */
  lemma ShownTasksWereStarted(worlds: seq<World>, actions: seq<Action>, i: nat, id: Uuid) returns (j: nat)
    requires IsRun(worlds, actions) && i < |worlds|
    requires ShownAs(worlds[i], id, Running) || ShownAs(worlds[i], id, Completed)
    ensures var s, t := worlds[i], worlds[i].mgr.st.tasks[id];
            && HasHome(s, id) && j < i && actions[j].RunTask?
            && MadeIn(worlds[j], actions[j], s.mgr.st.placement[id],
                      StartCall(id, actions[j].docker.start, actions[j].now))
            && ContainerOf(actions[j].docker.start) == t.containerId && actions[j].now == t.startTime
            && (forall c: ContainerId :: ReportedStarted(s, id, c) <==> c == t.containerId)
            && (t.containerId == "" <==> actions[j].docker.start == StartError)
  {
    var s := worlds[i];
    ShownIsBacked(worlds, actions, i, id);
    var call := LifeOf(s, id)[0];
    assert call in LifeOf(s, id);
    LifeIsLife(s, id);
    j := CallsComeFromSteps(worlds, actions, i, s.mgr.st.placement[id], call);
    hide Inv;
    forall c: ContainerId
      ensures ReportedStarted(s, id, c) <==> c == s.mgr.st.tasks[id].containerId
    {
      LifeTellsWhatHappened(s, id, c);
    }
  }

  /**
   * For a task shown as Completed, Docker was asked to stop the container with the id shown, at the finish time
   * shown.  A container was
   * reported stopped exactly when Docker said so in that step; the record is the same if it did not.
   */
  lemma CompletedTasksWereStopped(worlds: seq<World>, actions: seq<Action>, i: nat, id: Uuid) returns (j: nat)
    requires IsRun(worlds, actions) && i < |worlds| && ShownAs(worlds[i], id, Completed)
    ensures var s, t := worlds[i], worlds[i].mgr.st.tasks[id];
            && HasHome(s, id) && j < i && actions[j].RunTask?
            && MadeIn(worlds[j], actions[j], s.mgr.st.placement[id],
                      StopCall(id, t.containerId, actions[j].docker.stopped, actions[j].now))
            && actions[j].now == t.finishTime
            && (forall c: ContainerId :: ReportedStopped(s, id, c) <==> c == t.containerId && actions[j].docker.stopped)
  {
    var s := worlds[i];
    ShownIsBacked(worlds, actions, i, id);
    var call := LifeOf(s, id)[1];
    assert call in LifeOf(s, id);
    LifeIsLife(s, id);
    j := CallsComeFromSteps(worlds, actions, i, s.mgr.st.placement[id], call);
    hide Inv;
    forall c: ContainerId
      ensures ReportedStopped(s, id, c) <==> c == s.mgr.st.tasks[id].containerId && actions[j].docker.stopped
    {
      LifeTellsWhatHappened(s, id, c);
    }
  }

  // ---------- what Failed means ----------

  /** Everything in a queue asks for a start or a stop. */
  ghost predicate QueuesAsk(s: World) {
    forall w, k | w in s.machines && 0 <= k < |s.machines[w].queue| ::
      s.machines[w].queue[k].state == Scheduled || s.machines[w].queue[k].state == Completed
  }

  lemma StepKeepsQueues(s: World, a: Action)
    requires Inv(s) && QueuesAsk(s) && Enabled(s, a)
    ensures QueuesAsk(Next(s, a))
  {
    hide Issue, MarkFailed, Begin, ManagerModel.Reply, Update, CountUpdate, MovesAfterIssue, Register, LosesRecord,
         Rehydrated, StorageInv, DriftInv, QueueInv, MachineInv, ReportInv;
    if a.RunTask? && s.machines[a.worker].queue != [] {
      RunHeadFrame(s.machines[a.worker], a.now, a.docker, a.puts);
    }
    hide RunHead;
    if a.Deliver? {
      assert RequestInv(s.mgr.st.placement, a.request);
    }
  }

  lemma {:induction false} RunsKeepQueues(worlds: seq<World>, actions: seq<Action>, i: nat)
    requires IsRun(worlds, actions) && i < |worlds|
    ensures QueuesAsk(worlds[i])
  {
    if i > 0 {
      RunsKeepQueues(worlds, actions, i - 1);
      RunsKeepInv(worlds, actions, i - 1);
      hide Inv, Next, Enabled, QueuesAsk;
      StepKeepsQueues(worlds[i - 1], actions[i - 1]);
    }
  }

  /** A health check of worker w that finds the task's running container failed. */
  ghost predicate FoundFailed(s: World, a: Action, w: Uuid, id: Uuid) {
    && a.CheckHealth? && a.worker == w && w in s.machines
    && Fails(s.machines[w], Check(a.inspect, a.durable), a.persistent, id)
  }

  lemma StepFailsRecord(s: World, a: Action, w: Uuid, id: Uuid)
    requires QueuesAsk(s) && Enabled(s, a) && w in Next(s, a).machines && IsFailed(Next(s, a).machines[w], id)
    ensures w in s.machines && (IsFailed(s.machines[w], id) || FoundFailed(s, a, w, id))
  {
    hide Issue, MarkFailed, Begin, ManagerModel.Reply, Update, CountUpdate, MovesAfterIssue, Register, LosesRecord,
         Rehydrated, RunHead, HealthCheck;
    if a.RunTask? {
      StepFails(s.machines[a.worker], Run(a.now, a.docker, a.puts), true, id);
    } else if a.CheckHealth? {
      StepFails(s.machines[a.worker], Check(a.inspect, a.durable), a.persistent, id);
    }
  }

  /** Every Failed record of a worker was found so by one of its health checks. */
  lemma {:induction false} FailedRecordsWereFound(worlds: seq<World>, actions: seq<Action>, i: nat, w: Uuid, id: Uuid)
    returns (j: nat)
    requires IsRun(worlds, actions) && i < |worlds| && w in worlds[i].machines && IsFailed(worlds[i].machines[w], id)
    ensures j < i && FoundFailed(worlds[j], actions[j], w, id)
  {
    hide Next, Enabled, FoundFailed, QueuesAsk;
    if i == 0 {
      assert false;
    }
    RunsKeepQueues(worlds, actions, i - 1);
    StepFailsRecord(worlds[i - 1], actions[i - 1], w, id);
    if IsFailed(worlds[i - 1].machines[w], id) {
      j := FailedRecordsWereFound(worlds, actions, i - 1, w, id);
    } else {
      j := i - 1;
    }
  }

  /** So was every report of Failed, however late it is applied. */
  lemma {:induction false} FailedReportsWereFound(worlds: seq<World>, actions: seq<Action>, i: nat, t: Task)
    returns (j: nat, w: Uuid)
    requires IsRun(worlds, actions) && i < |worlds| && t in worlds[i].reports && t.state == Failed
    ensures j < i && FoundFailed(worlds[j], actions[j], w, t.id)
  {
    hide Next, Enabled, FoundFailed;
    if i == 0 {
      assert false;
    }
    StepGrowsCalls(worlds[i - 1], actions[i - 1]);
    if t in worlds[i - 1].reports {
      j, w := FailedReportsWereFound(worlds, actions, i - 1, t);
    } else {
      w := actions[i - 1].worker;
      FetchedIsFailed(worlds, actions, i - 1, w, t);
      j := FailedRecordsWereFound(worlds, actions, i - 1, w, t.id);
    }
  }

  lemma FetchedIsFailed(worlds: seq<World>, actions: seq<Action>, i: nat, w: Uuid, t: Task)
    requires IsRun(worlds, actions) && i < |actions| && actions[i] == Fetch(w)
    requires w in worlds[i].machines ==> t in worlds[i].machines[w].db.Values
    requires t.state == Failed
    ensures w in worlds[i].machines && IsFailed(worlds[i].machines[w], t.id)
  {
    assert Enabled(worlds[i], actions[i]);
    RunsKeepInv(worlds, actions, i);
    hide Next, StorageInv, DriftInv, QueueInv;
    assert MachineInv(worlds[i].mgr.st.placement, w, worlds[i].machines[w]);
    var id :| id in worlds[i].machines[w].db && worlds[i].machines[w].db[id] == t;
  }

  /** The sending loop gives up on the task and the deferred write reaches the store. */
  ghost predicate GaveUp(s: World, a: Action, id: Uuid) {
    a.GiveUp? && a.ok && s.mgr.sender.Failing? && s.mgr.sender.original.id == id
  }

  lemma StepFailsTask(s: World, a: Action, id: Uuid)
    requires Enabled(s, a) && ShownAs(Next(s, a), id, Failed) && !ShownAs(s, id, Failed)
    ensures GaveUp(s, a, id) || (a.Apply? && a.report.id == id && a.report.state == Failed)
  {
    hide Issue, Update, CountUpdate, MovesAfterIssue, Rehydrated, Register;
    match a {
      case IssueRequest(choice, taskOk, assignOk) => IssueFailsNothing(s.mgr, choice, taskOk, assignOk, id);
      case GiveUp(ok) => UpdateFrame(s.mgr.st, s.mgr.sender.original.(state := Failed), ok);
      case Apply(t, ok) => UpdateFrame(s.mgr.st, t, ok);
      case RegisterWorker(w, name, ok) => RegisterFrame(s.mgr.st, w, name, ok);
      case _ =>
    }
  }

  lemma RegisterFrame(s: Storage, w: Uuid, name: string, ok: bool)
    ensures Register(s, w, name, ok).tasks == s.tasks
  {
  }

  lemma IssueFailsNothing(m: Mgr, choice: Option<Uuid>, taskOk: bool, assignOk: bool, id: Uuid)
    requires m.sender.Working?
    ensures var r := Issue(m, choice, taskOk, assignOk).st;
            id in r.tasks && r.tasks[id].state == Failed ==> id in m.st.tasks && m.st.tasks[id].state == Failed
  {
    hide Assign;
    var t := m.sender.event.task;
    var target := Target(m.st, t.id, choice);
    if target.Some? {
      AssignFrame(m.st, t, target.value, taskOk, assignOk);
    }
  }

  /**
   * Over every run a task shown as Failed is one the sending loop gave up on, or one whose own worker found its
   * running container failed.  The former says nothing about its container.
   */
  lemma {:induction false} FailedTasksHaveACause(worlds: seq<World>, actions: seq<Action>, i: nat, id: Uuid)
    returns (j: nat, w: Uuid)
    requires IsRun(worlds, actions) && i < |worlds| && ShownAs(worlds[i], id, Failed)
    ensures j < i
    ensures || GaveUp(worlds[j], actions[j], id)
            || (Placed(worlds[i].mgr.st.placement, id, w) && FoundFailed(worlds[j], actions[j], w, id))
  {
    hide Next, Enabled, FoundFailed, GaveUp;
    if i == 0 {
      assert false;
    }
    if ShownAs(worlds[i - 1], id, Failed) {
      j, w := FailedTasksHaveACause(worlds, actions, i - 1, id);
      AssignmentsArePermanent(worlds, actions, i - 1, i);
    } else {
      StepFailsTask(worlds[i - 1], actions[i - 1], id);
      j := i - 1;
      w := *;
      if !GaveUp(worlds[i - 1], actions[i - 1], id) {
        j, w := FailedReportsWereFound(worlds, actions, i - 1, AppliedReport(worlds, actions, i - 1));
        FoundAtHome(worlds, actions, j, i, w, id);
      }
    }
  }

  ghost function AppliedReport(worlds: seq<World>, actions: seq<Action>, i: nat): (t: Task)
    requires IsRun(worlds, actions) && i < |actions| && actions[i].Apply?
    ensures t == actions[i].report && t in worlds[i].reports
  {
    assert Enabled(worlds[i], actions[i]);
    actions[i].report
  }

  lemma FoundAtHome(worlds: seq<World>, actions: seq<Action>, j: nat, i: nat, w: Uuid, id: Uuid)
    requires IsRun(worlds, actions) && j <= i < |worlds| && j < |actions| && FoundFailed(worlds[j], actions[j], w, id)
    ensures Placed(worlds[i].mgr.st.placement, id, w)
  {
    hide IsRun;
    RunsKeepInv(worlds, actions, j);
    assert MachineInv(worlds[j].mgr.st.placement, w, worlds[j].machines[w]);
    AssignmentsArePermanent(worlds, actions, j, i);
  }

  // ---------- failures are final ----------

  lemma {:induction false} CallsGrowAlong(worlds: seq<World>, actions: seq<Action>, i: nat, j: nat)
    requires IsRun(worlds, actions) && i <= j < |worlds|
    ensures CallsGrow(worlds[i].machines, worlds[j].machines)
  {
    hide Next, Enabled;
    if i < j {
      CallsGrowAlong(worlds, actions, i, j - 1);
      StepGrowsCalls(worlds[j - 1], actions[j - 1]);
    }
  }

  /**
   * Once a task is shown as Running or Completed, no later step of the run starts a container for it, also when
   * the start had failed; and once it is shown as Completed none stops it, also when the stop had failed.
   */
  lemma OutcomesAreFinal(worlds: seq<World>, actions: seq<Action>, i: nat, j: nat, id: Uuid, c: ContainerId)
    requires IsRun(worlds, actions) && i <= j < |worlds|
    requires ShownAs(worlds[i], id, Running) || ShownAs(worlds[i], id, Completed)
    ensures ReportedStarted(worlds[j], id, c) <==> ReportedStarted(worlds[i], id, c)
    ensures ShownAs(worlds[i], id, Completed) ==>
            (ReportedStopped(worlds[j], id, c) <==> ReportedStopped(worlds[i], id, c))
  {
    var s, r := worlds[i], worlds[j];
    ShownIsBacked(worlds, actions, i, id);
    RunsKeepInv(worlds, actions, j);
    hide Inv;
    AssignmentsArePermanent(worlds, actions, i, j);
    CallsGrowAlong(worlds, actions, i, j);
    var w := s.mgr.st.placement[id];
    assert Placed(r.mgr.st.placement, id, w);
    PrefixLife(s.machines[w].calls, r.machines[w].calls, id);
    LifeIsLife(r, id);
    LifeTellsWhatHappened(s, id, c);
    LifeTellsWhatHappened(r, id, c);
  }
}
