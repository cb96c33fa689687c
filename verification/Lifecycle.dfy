/**
 * Worlds that can be reached from the initial one: a whole life of a task, whatever Docker answers; a Completed
 * task that never ran or still runs, and a Failed one that runs; a counter that has drifted; an orphan.
 */
module Lifecycle {
  import opened Tasks
  import opened StateModel
  import opened Cluster
  import opened ManagerModel
  import opened WorkerModel
  import opened System
  import opened Guarantees
  import opened Truth

  /** A manager with nothing to do and one connected worker that has nothing to do. */
  ghost predicate Quiet(s: World, w: Uuid) {
    && s.mgr.sender.Idle? && s.left == 0 && s.mgr.pending == []
    && w in s.mgr.clients && w in s.mgr.st.workers
    && w in s.machines && s.machines[w].queue == []
  }

  /** Registration and connection. */
  lemma Join(s: World, w: Uuid, name: string) returns (r: World)
    requires Init(s) && w in s.machines
    ensures Leads(s, [RegisterWorker(w, name, true), Connect(w)], r) && Quiet(r, w)
    ensures r.mgr.st.tasks == map[] && r.mgr.st.placement == map[] && r.mgr.st.counts == map[]
            && r.machines == s.machines
  {
    var actions := [RegisterWorker(w, name, true), Connect(w)];
    var s1 := Next(s, actions[0]);
    r := Next(s1, actions[1]);
    assert actions[1..] == [actions[1]] && actions[1..][1..] == [];
    assert Leads(s1, actions[1..], r);
  }

  function SendActions(ev: TaskEvent, w: Uuid): seq<Action> {
    [Submit(ev), StartRound, Take(true)] + [IssueRequest(Some(w), true, true), ReceiveReply(true)]
  }

  predicate CanSend(st: Storage, w: Uuid, ev: TaskEvent) {
    Placed(st.placement, ev.task.id, w) || (!IsStop(ev) && ev.task.id !in st.placement)
  }

  /** What a sent event leaves in the storage. */
  function Sent(st: Storage, w: Uuid, ev: TaskEvent): Storage {
    var logged := LogEvent(st, ev, true);
    if IsStop(ev) then logged else Assign(logged, ev.task, w, true, true)
  }

  function RequestFor(w: Uuid, ev: TaskEvent): Request {
    if IsStop(ev) then StopRequest(w, ev.task.id) else StartRequest(w, ev.(task := ev.task.(state := Scheduled)))
  }

  /** An event is submitted and its request goes out. */
  lemma Send(s: World, w: Uuid, ev: TaskEvent) returns (r: World)
    requires Quiet(s, w) && CanSend(s.mgr.st, w, ev)
    ensures Leads(s, SendActions(ev, w), r) && Quiet(r, w) && r.machines == s.machines
    ensures r.mgr.st == Sent(s.mgr.st, w, ev) && RequestFor(w, ev) in r.mgr.sent
  {
    var s3 := TakeOne(s, w, ev);
    var s4 := IssueOne(s3, w, ev);
    r := Next(s4, ReceiveReply(true));
    var issue, reply := IssueRequest(Some(w), true, true), ReceiveReply(true);
    SentFrame(s.mgr.st, w, ev);
    hide Issue, Next, Sent;
    assert Leads(s4, [reply], r) by {
      assert [reply][1..] == [];
    }
    assert Leads(s3, [issue, reply], r) by {
      assert [issue, reply][1..] == [reply];
    }
    hide Leads;
    LeadsJoin(s, [Submit(ev), StartRound, Take(true)], s3, [issue, reply], r);
  }

  lemma SentFrame(st: Storage, w: Uuid, ev: TaskEvent)
    ensures Sent(st, w, ev).workers == st.workers
    ensures IsStop(ev) ==> Sent(st, w, ev).tasks == st.tasks && Sent(st, w, ev).placement == st.placement
    ensures !IsStop(ev) ==>
              var t, r := ev.task.(state := Scheduled), Sent(st, w, ev);
              r.tasks == st.tasks[t.id := t] && r.placement == st.placement[t.id := w]
  {
    AssignFrame(LogEvent(st, ev, true), ev.task, w, true, true);
  }

  lemma TakeOne(s: World, w: Uuid, ev: TaskEvent) returns (r: World)
    requires Quiet(s, w)
    ensures Leads(s, [Submit(ev), StartRound, Take(true)], r)
    ensures r == s.(mgr := s.mgr.(sender := Working(ev), st := LogEvent(s.mgr.st, ev, true)), accepted := r.accepted,
                    taken := r.taken)
  {
    var actions := [Submit(ev), StartRound, Take(true)];
    var s1 := Next(s, Submit(ev));
    var s2 := Next(s1, StartRound);
    assert s2.mgr.pending == [ev] && s2.left == 1 && [ev][1..] == [];
    r := Next(s2, Take(true));
    assert Enabled(s1, StartRound) && Enabled(s2, Take(true));
    hide Enabled, Next, LogEvent;
    assert actions[1..][1..] == actions[2..] && actions[2..][1..] == [];
    assert Leads(s2, actions[2..], r);
    assert Leads(s1, actions[1..], r);
  }

  lemma IssueOne(s: World, w: Uuid, ev: TaskEvent) returns (r: World)
    requires s.mgr.sender == Working(ev) && w in s.mgr.clients && w in s.mgr.st.workers
    requires CanSend(s.mgr.st, w, ev)
    ensures Enabled(s, IssueRequest(Some(w), true, true)) && r == Next(s, IssueRequest(Some(w), true, true))
    ensures r.mgr.sender.Awaiting? && r.mgr.sender.original == ev.task
    ensures r.mgr.pending == s.mgr.pending && r.left == s.left && r.machines == s.machines
    ensures r.mgr.clients == s.mgr.clients && RequestFor(w, ev) in r.mgr.sent
    ensures r.mgr.st == if IsStop(ev) then s.mgr.st else Assign(s.mgr.st, ev.task, w, true, true)
  {
    hide Assign;
    r := Next(s, IssueRequest(Some(w), true, true));
  }

  /** The request is delivered, the worker runs it, its records are fetched and the task's record is applied. */
  lemma Work(s: World, w: Uuid, q: Request, now: Time, docker: Answers, report: Task) returns (r: World)
    requires Quiet(s, w) && q in s.mgr.sent && q.worker == w
    requires var m := RunHead(Received(s.machines[w], q), now, docker, ALL_WRITTEN);
             m.queue == [] && report.id in m.db && m.db[report.id] == report
    ensures Leads(s, WorkActions(w, q, now, docker, report), r) && Quiet(r, w)
    ensures r.machines == s.machines[w := RunHead(Received(s.machines[w], q), now, docker, ALL_WRITTEN)]
    ensures r.mgr == s.mgr.(st := Update(s.mgr.st, report, true))
  {
    UpdateFrame(s.mgr.st, report, true);
    hide RunHead, Received, Update, Next, Enabled, Leads;
    var s2 := DeliverAndRun(s, w, q, now, docker);
    r := FetchAndApply(s2, w, report);
    LeadsJoin(s, [Deliver(q), RunTask(w, now, docker, ALL_WRITTEN)], s2, [Fetch(w), Apply(report, true)], r);
  }

  function WorkActions(w: Uuid, q: Request, now: Time, docker: Answers, report: Task): seq<Action> {
    [Deliver(q), RunTask(w, now, docker, ALL_WRITTEN)] + [Fetch(w), Apply(report, true)]
  }

  lemma DeliverAndRun(s: World, w: Uuid, q: Request, now: Time, docker: Answers) returns (r: World)
    requires w in s.machines && q in s.mgr.sent && q.worker == w
    ensures Leads(s, [Deliver(q), RunTask(w, now, docker, ALL_WRITTEN)], r)
    ensures r == s.(machines := s.machines[w := RunHead(Received(s.machines[w], q), now, docker, ALL_WRITTEN)])
  {
    hide RunHead, Received;
    var actions := [Deliver(q), RunTask(w, now, docker, ALL_WRITTEN)];
    var s1 := Next(s, actions[0]);
    r := Next(s1, actions[1]);
    assert actions[1..] == [actions[1]] && actions[1..][1..] == [];
    assert Leads(s1, actions[1..], r);
  }

  lemma FetchAndApply(s: World, w: Uuid, report: Task) returns (r: World)
    requires w in s.machines && w in s.mgr.clients && report.id in s.machines[w].db
             && s.machines[w].db[report.id] == report
    ensures Leads(s, [Fetch(w), Apply(report, true)], r)
    ensures r.mgr == s.mgr.(st := Update(s.mgr.st, report, true)) && r.machines == s.machines && r.left == s.left
  {
    hide Update;
    var actions := [Fetch(w), Apply(report, true)];
    var s1 := Next(s, actions[0]);
    assert report in s1.reports;
    r := Next(s1, actions[1]);
    assert actions[1..] == [actions[1]] && actions[1..][1..] == [];
    assert Leads(s1, actions[1..], r);
  }

  // ---------- a life ----------

  /** One task, one start event and one stop event for it, and what Docker answers at which time. */
  datatype Life = Life(worker: Uuid, name: string, start: TaskEvent, stop: TaskEvent, answers: Answers, t0: Time,
      t1: Time)
  {
    predicate Sensible() {
      !IsStop(start) && IsStop(stop) && stop.task.id == start.task.id
    }

    function Id(): Uuid {
      start.task.id
    }

    /** The record as the worker reports it while the task runs. */
    function RunningRecord(): Task {
      start.task.(state := Running, containerId := ContainerOf(answers.start), startTime := t0)
    }

    function CompletedRecord(): Task {
      RunningRecord().(state := Completed, finishTime := t1)
    }

    function Started(): DockerCall {
      StartCall(Id(), answers.start, t0)
    }

    function Stopped(): DockerCall {
      StopCall(Id(), ContainerOf(answers.start), answers.stopped, t1)
    }
  }

  lemma {:induction false} LeadsKeepsInv(s: World, actions: seq<Action>, r: World)
    requires Inv(s) && Leads(s, actions, r)
    ensures Inv(r)
    decreases |actions|
  {
    hide Inv, Enabled, Next;
    if actions != [] {
      StepKeepsInv(s, actions[0]);
      LeadsKeepsInv(Next(s, actions[0]), actions[1..], r);
    }
  }

  lemma SentDrift(s: World, w: Uuid, ev: TaskEvent)
    requires Inv(s)
    ensures var st := s.mgr.st;
            Drift(Sent(st, w, ev), w) ==
              Drift(st, w) + if IsStop(ev) then 0 else AssignMoves(st, ev.task, w, true, true, w)
  {
    var logged := LogEvent(s.mgr.st, ev, true);
    SameIndexesAgree(s.mgr.st, logged);
    LogKeepsDrift(s.mgr.st, ev, true, w);
    hide Agree, Drift, Assign, LogEvent;
    if !IsStop(ev) {
      AssignDriftLaw(logged, ev.task, w, true, true, w);
    }
  }

  function PhaseActions(w: Uuid, ev: TaskEvent, now: Time, docker: Answers, record: Task): seq<Action> {
    SendActions(ev, w) + WorkActions(w, RequestFor(w, ev), now, docker, record)
  }

  /** An event is sent, the worker acts on it and reports the record it is left with. */
  lemma Phase(s: World, w: Uuid, ev: TaskEvent, now: Time, docker: Answers, record: Task, after: Machine)
    returns (r: World)
    requires Inv(s) && Quiet(s, w) && CanSend(s.mgr.st, w, ev)
    requires RunHead(Received(s.machines[w], RequestFor(w, ev)), now, docker, ALL_WRITTEN) == after
    requires after.queue == [] && record.id in after.db && after.db[record.id] == record
    ensures Leads(s, PhaseActions(w, ev, now, docker, record), r) && Quiet(r, w)
    ensures r.machines == s.machines[w := after]
    ensures r.mgr.st == Update(Sent(s.mgr.st, w, ev), record, true)
  {
    hide Inv, RunHead, Received, Update, Sent, Leads;
    var s1 := Send(s, w, ev);
    var q := RequestFor(w, ev);
    r := Work(s1, w, q, now, docker, record);
    LeadsJoin(s, SendActions(ev, w), s1, WorkActions(w, q, now, docker, record), r);
  }

  /** What the report of one phase leaves in the storage. */
  lemma PhaseStorage(s: World, w: Uuid, ev: TaskEvent, record: Task)
    requires Inv(s) && CanSend(s.mgr.st, w, ev) && record.id == ev.task.id
    requires if IsStop(ev) then s.mgr.st.tasks.Keys == {record.id} else s.mgr.st.tasks.Keys <= {record.id}
    requires record == Merge(if IsStop(ev) then s.mgr.st.tasks[record.id] else ev.task, record)
    requires ev.task.id in s.mgr.st.placement || !IsTerminal(record.state)
    ensures var st := Update(Sent(s.mgr.st, w, ev), record, true);
            && st.tasks == map[record.id := record] && Placed(st.placement, record.id, w)
            && Drift(st, w) == Drift(Sent(s.mgr.st, w, ev), w)
                               + UpdateMove(Sent(s.mgr.st, w, ev).tasks[record.id].state, record.state, true)
  {
    hide Inv, Drift;
    SentFrame(s.mgr.st, w, ev);
    var sent := Sent(s.mgr.st, w, ev);
    hide Sent;
    assert sent.tasks.Keys == {record.id} && Placed(sent.placement, record.id, w);
    UpdateFrame(sent, record, true);
    UpdateDriftLaw(sent, record, true, w);
  }

  lemma Joined(s: World, w: Uuid, name: string) returns (r: World)
    requires Init(s) && w in s.machines
    ensures Leads(s, [RegisterWorker(w, name, true), Connect(w)], r) && Quiet(r, w) && Inv(r)
    ensures r.mgr.st.tasks == map[] && r.mgr.st.placement == map[] && Drift(r.mgr.st, w) == 0
    ensures r.machines == s.machines && r.machines[w] == FRESH
  {
    r := Join(s, w, name);
    InitInv(s);
    assert ActiveIds(r.mgr.st, w) == {};
    hide Inv, Init;
    LeadsKeepsInv(s, [RegisterWorker(w, name, true), Connect(w)], r);
  }

  lemma RunStorage(s: World, l: Life)
    requires Inv(s) && l.Sensible()
    requires s.mgr.st.tasks == map[] && s.mgr.st.placement == map[] && Drift(s.mgr.st, l.worker) == 0
    ensures CanSend(s.mgr.st, l.worker, l.start)
    ensures var st := Update(Sent(s.mgr.st, l.worker, l.start), l.RunningRecord(), true);
            && st.tasks == map[l.Id() := l.RunningRecord()] && Placed(st.placement, l.Id(), l.worker)
            && Drift(st, l.worker) == 0
  {
    hide Inv, Drift;
    SentFrame(s.mgr.st, l.worker, l.start);
    SentDrift(s, l.worker, l.start);
    hide Sent, Update;
    PhaseStorage(s, l.worker, l.start, l.RunningRecord());
  }

  /** The task runs, the manager shows it, and no other worker was asked anything. */
  ghost predicate Halfway(s: World, l: Life) {
    && Inv(s) && Quiet(s, l.worker)
    && s.mgr.st.tasks == map[l.Id() := l.RunningRecord()] && Placed(s.mgr.st.placement, l.Id(), l.worker)
    && s.machines[l.worker] == Machine([], map[l.Id() := l.RunningRecord()], [l.Started()])
    && forall w | w in s.machines && w != l.worker :: s.machines[w] == FRESH
  }

  /** The task was stopped, and the manager shows it. */
  ghost predicate Ended(m: World, r: World, l: Life) {
    && Inv(r) && Quiet(r, l.worker)
    && r.mgr.st.tasks == map[l.Id() := l.CompletedRecord()] && Placed(r.mgr.st.placement, l.Id(), l.worker)
    && r.mgr.st == Update(Sent(m.mgr.st, l.worker, l.stop), l.CompletedRecord(), true)
    && r.machines ==
       m.machines[l.worker := Machine([], map[l.Id() := l.CompletedRecord()], [l.Started(), l.Stopped()])]
  }

  /** The task is sent to its worker, which starts it and reports it as running. */
  lemma RunIt(s: World, l: Life) returns (actions: seq<Action>, r: World)
    requires Init(s) && l.worker in s.machines && l.Sensible()
    ensures Leads(s, actions, r) && Halfway(r, l) && Drift(r.mgr.st, l.worker) == 0
  {
    var w := l.worker;
    var join := [RegisterWorker(w, l.name, true), Connect(w)];
    var s1 := Joined(s, w, l.name);
    var after := Machine([], map[l.Id() := l.RunningRecord()], [l.Started()]);
    assert RunHead(Received(s1.machines[w], RequestFor(w, l.start)), l.t0, l.answers, ALL_WRITTEN) == after by {
      StartRun(FRESH, l.start.task.(state := Scheduled), l.t0, l.answers);
    }
    assert forall v | v in s1.machines :: s1.machines[v] == FRESH;
    hide Inv, Leads, Drift, RunHead, Received, Init, Sent, Update;
    RunStorage(s1, l);
    r := Phase(s1, w, l.start, l.t0, l.answers, l.RunningRecord(), after);
    var phase := PhaseActions(w, l.start, l.t0, l.answers, l.RunningRecord());
    LeadsKeepsInv(s1, phase, r);
    LeadsJoin(s, join, s1, phase, r);
    actions := join + phase;
  }

  lemma StopStorage(s: World, l: Life)
    requires Inv(s) && l.Sensible()
    requires s.mgr.st.tasks == map[l.Id() := l.RunningRecord()] && Placed(s.mgr.st.placement, l.Id(), l.worker)
    ensures var st := Update(Sent(s.mgr.st, l.worker, l.stop), l.CompletedRecord(), true);
            && st.tasks == map[l.Id() := l.CompletedRecord()] && Placed(st.placement, l.Id(), l.worker)
            && Drift(st, l.worker) == Drift(s.mgr.st, l.worker)
  {
    hide Inv, Drift;
    SentFrame(s.mgr.st, l.worker, l.stop);
    SentDrift(s, l.worker, l.stop);
    hide Sent, Update;
    PhaseStorage(s, l.worker, l.stop, l.CompletedRecord());
  }

  /** A running task is asked to stop, its worker does so and reports it as completed. */
  lemma StopIt(s: World, l: Life) returns (actions: seq<Action>, r: World)
    requires Halfway(s, l) && l.Sensible()
    ensures Leads(s, actions, r) && Ended(s, r, l) && Drift(r.mgr.st, l.worker) == Drift(s.mgr.st, l.worker)
  {
    var w := l.worker;
    var after := Machine([], map[l.Id() := l.CompletedRecord()], [l.Started(), l.Stopped()]);
    StopRun(s.machines[w], l.RunningRecord(), l.t1, l.answers);
    assert Received(s.machines[w], RequestFor(w, l.stop)) == RequestStop(s.machines[w], l.Id());
    hide RunHead, Received, RequestStop, Inv, Leads, Drift, Sent, Update, Quiet;
    assert [l.Started()] + [l.Stopped()] == [l.Started(), l.Stopped()];
    StopStorage(s, l);
    r := Phase(s, w, l.stop, l.t1, l.answers, l.CompletedRecord(), after);
    actions := PhaseActions(w, l.stop, l.t1, l.answers, l.CompletedRecord());
    LeadsKeepsInv(s, actions, r);
  }

  /**
   * From the initial world any task can be started and stopped on any worker, whatever Docker answers: there is
   * a run after which the manager shows it as Completed with the container id of the start.  A container was
   * reported started, or stopped, exactly when Docker said so.
   */
  lemma TasksCanRunAndStop(s: World, l: Life) returns (actions: seq<Action>, r: World)
    requires Init(s) && l.worker in s.machines && l.Sensible()
    ensures Leads(s, actions, r) && Quiet(r, l.worker) && Inv(r) && Drift(r.mgr.st, l.worker) == 0
    ensures r.mgr.st.tasks == map[l.Id() := l.CompletedRecord()] && Placed(r.mgr.st.placement, l.Id(), l.worker)
    ensures l.worker in r.machines && r.machines[l.worker].calls == [l.Started(), l.Stopped()]
    ensures forall c: ContainerId :: ReportedStarted(r, l.Id(), c) <==> l.answers.start == Given(c)
    ensures forall c: ContainerId :: ReportedStopped(r, l.Id(), c) <==>
            c == ContainerOf(l.answers.start) && l.answers.stopped
  {
    hide Leads, Drift, Init;
    var first, m := RunIt(s, l);
    actions, r := EndIt(s, first, m, l);
    EndedCalls(m, r, l);
    hide Inv;
  }

  /** The second half of a life, after a first half. */
  lemma EndIt(s: World, first: seq<Action>, m: World, l: Life) returns (actions: seq<Action>, r: World)
    requires Leads(s, first, m) && Halfway(m, l) && l.Sensible()
    ensures Leads(s, actions, r) && Ended(m, r, l) && Drift(r.mgr.st, l.worker) == Drift(m.mgr.st, l.worker)
  {
    hide Leads, Drift, Halfway, Ended;
    var second;
    second, r := StopIt(m, l);
    LeadsJoin(s, first, m, second, r);
    actions := first + second;
  }

  lemma EndedCalls(m: World, r: World, l: Life)
    requires Halfway(m, l) && Ended(m, r, l)
    ensures forall c: ContainerId :: ReportedStarted(r, l.Id(), c) <==> l.answers.start == Given(c)
    ensures forall c: ContainerId :: ReportedStopped(r, l.Id(), c) <==>
            c == ContainerOf(l.answers.start) && l.answers.stopped
  {
    hide Inv, Quiet, Update, Sent, ReportedStarted, ReportedStopped;
    OnlyTheseCalls(r, l);
  }

  lemma OnlyTheseCalls(r: World, l: Life)
    requires l.worker in r.machines && r.machines[l.worker].calls == [l.Started(), l.Stopped()]
    requires forall w | w in r.machines && w != l.worker :: r.machines[w].calls == []
    ensures forall c: ContainerId :: ReportedStarted(r, l.Id(), c) <==> l.answers.start == Given(c)
    ensures forall c: ContainerId :: ReportedStopped(r, l.Id(), c) <==>
            c == ContainerOf(l.answers.start) && l.answers.stopped
  {
    var calls := r.machines[l.worker].calls;
    assert l.Started() in calls && l.Stopped() in calls;
  }

  /**
   * Nothing that is stored, by the manager or by any worker, tells a task whose container was reported stopped
   * from one whose container was not.
   */
  lemma FailedStopLooksTheSame(s: World, l: Life, c: ContainerId)
    returns (actions: seq<Action>, stopped: World, others: seq<Action>, running: World)
    requires Init(s) && l.worker in s.machines && l.Sensible()
    ensures Leads(s, actions, stopped) && Leads(s, others, running)
    ensures stopped.mgr.st == running.mgr.st && ShownAs(running, l.Id(), Completed)
    ensures stopped.machines.Keys == running.machines.Keys
    ensures forall w | w in stopped.machines :: stopped.machines[w].db == running.machines[w].db
    ensures ReportedStarted(stopped, l.Id(), c) && ReportedStopped(stopped, l.Id(), c)
    ensures ReportedStarted(running, l.Id(), c) && !ReportedStopped(running, l.Id(), c)
  {
    var yes, no := l.(answers := Answers(Given(c), true)), l.(answers := Answers(Given(c), false));
    OnlyAnswersDiffer(l, yes, no);
    hide Leads, Drift, Init, Halfway, Ended, Life.Sensible, Life.Id, ReportedStarted, ReportedStopped, ShownAs;
    var first, m := RunIt(s, yes);
    HalfwayEither(m, yes, no);
    actions, stopped := EndIt(s, first, m, yes);
    others, running := EndIt(s, first, m, no);
    EndedAlike(m, stopped, yes, running, no);
    EndedCalls(m, stopped, yes);
    EndedCalls(m, running, no);
  }

  lemma HalfwayEither(m: World, yes: Life, no: Life)
    requires Halfway(m, yes) && no == yes.(answers := no.answers) && yes.answers.start == no.answers.start
    ensures Halfway(m, no)
  {
    hide Inv, Quiet;
    OnlyAnswersDiffer(yes, yes, no);
  }

  lemma EndedAlike(m: World, a: World, yes: Life, b: World, no: Life)
    requires Halfway(m, yes) && Ended(m, a, yes) && Ended(m, b, no)
    requires no == yes.(answers := no.answers) && yes.answers.start == no.answers.start
    ensures a.mgr.st == b.mgr.st && ShownAs(b, no.Id(), Completed) && a.machines.Keys == b.machines.Keys
    ensures forall w | w in a.machines :: a.machines[w].db == b.machines[w].db
  {
    hide Inv;
    OnlyAnswersDiffer(yes, yes, no);
  }

  lemma OnlyAnswersDiffer(l: Life, yes: Life, no: Life)
    requires yes == l.(answers := yes.answers) && no == l.(answers := no.answers)
    requires yes.answers.start == no.answers.start
    ensures l.Sensible() ==> yes.Sensible() && no.Sensible()
    ensures yes.Id() == no.Id() == l.Id()
    ensures yes.RunningRecord() == no.RunningRecord() && yes.CompletedRecord() == no.CompletedRecord()
    ensures yes.Started() == no.Started() && no.CompletedRecord().state == Completed
  {
  }

  /** A start that is not answered: the manager gives up on it, and then the worker gets the request after all. */
  lemma FailedWhileRunning(s: World, l: Life, c: ContainerId) returns (actions: seq<Action>, r: World)
    requires Init(s) && l.worker in s.machines && l.Sensible() && l.answers.start == Given(c)
    ensures Leads(s, actions, r) && ShownAs(r, l.Id(), Failed)
    ensures ReportedStarted(r, l.Id(), c)
    ensures forall w, call | w in r.machines && call in r.machines[w].calls :: call.StartCall?
  {
    var w, scheduled := l.worker, l.start.task.(state := Scheduled);
    var q, run := RequestFor(w, l.start), [Deliver(RequestFor(w, l.start)), RunTask(w, l.t0, l.answers, ALL_WRITTEN)];
    assert forall v | v in s.machines :: s.machines[v] == FRESH;
    StartRun(FRESH, scheduled, l.t0, l.answers);
    assert Received(FRESH, q) == Enqueue(FRESH, scheduled);
    hide Leads, Init, RunHead, Received, Enqueue;
    var first, m := GivenUp(s, l);
    r := DeliverAndRun(m, w, q, l.t0, l.answers);
    assert r.machines[w].calls == [l.Started()];
    assert l.Started() in r.machines[w].calls;
    LeadsJoin(s, first, m, run, r);
    actions := first + run;
  }

  lemma GivenUp(s: World, l: Life) returns (actions: seq<Action>, r: World)
    requires Init(s) && l.worker in s.machines && l.Sensible()
    ensures Leads(s, actions, r) && ShownAs(r, l.Id(), Failed)
    ensures r.machines == s.machines && RequestFor(l.worker, l.start) in r.mgr.sent
  {
    var w := l.worker;
    var join, take := [RegisterWorker(w, l.name, true), Connect(w)], [Submit(l.start), StartRound, Take(true)];
    var giveUp := [IssueRequest(Some(w), true, true)] + [ReceiveReply(false), GiveUp(true)];
    hide Inv, Leads, Drift, Init, RequestFor, ShownAs;
    var s1 := Joined(s, w, l.name);
    var s2 := TakeOne(s1, w, l.start);
    r := GiveUpOne(s2, w, l.start);
    hide Quiet;
    LeadsJoin(s, join, s1, take, s2);
    LeadsJoin(s, join + take, s2, giveUp, r);
    actions := join + take + giveUp;
  }

  /** A first start is assigned and sent, the reply is bad, and the task is marked Failed. */
  lemma GiveUpOne(s: World, w: Uuid, ev: TaskEvent) returns (r: World)
    requires s.mgr.sender == Working(ev) && w in s.mgr.clients && w in s.mgr.st.workers
    requires !IsStop(ev) && ev.task.id !in s.mgr.st.placement
    ensures Leads(s, [IssueRequest(Some(w), true, true)] + [ReceiveReply(false), GiveUp(true)], r)
    ensures r.machines == s.machines && RequestFor(w, ev) in r.mgr.sent && ShownAs(r, ev.task.id, Failed)
  {
    var issue := IssueRequest(Some(w), true, true);
    var s1 := IssueOne(s, w, ev);
    MarkedFailed(s.mgr.st, w, ev.task);
    hide Assign, Update, Next, Enabled;
    assert Leads(s, [issue], s1) by {
      assert [issue][1..] == [];
    }
    hide Leads;
    r := BadReply(s1);
    LeadsJoin(s, [issue], s1, [ReceiveReply(false), GiveUp(true)], r);
  }

  lemma BadReply(s: World) returns (r: World)
    requires s.mgr.sender.Awaiting?
    ensures Leads(s, [ReceiveReply(false), GiveUp(true)], r)
    ensures r.mgr.st == Update(s.mgr.st, s.mgr.sender.original.(state := Failed), true)
    ensures r.machines == s.machines && r.mgr.sent == s.mgr.sent
  {
    hide Update, CountUpdate;
    var actions := [ReceiveReply(false), GiveUp(true)];
    var s1 := Next(s, actions[0]);
    r := Next(s1, actions[1]);
    assert actions[1..] == [actions[1]] && actions[1..][1..] == [];
    assert Leads(s1, actions[1..], r);
  }

  lemma MarkedFailed(s: Storage, w: Uuid, t: Task)
    ensures var r := Update(Assign(s, t, w, true, true), t.(state := Failed), true);
            t.id in r.tasks && r.tasks[t.id].state == Failed
  {
    AssignFrame(s, t, w, true, true);
    hide Assign;
    UpdateFrame(Assign(s, t, w, true, true), t.(state := Failed), true);
  }

  /** A task can be shown as Completed without any container ever having been reported started for it. */
  lemma CompletedWithoutRunning(s: World, l: Life) returns (actions: seq<Action>, r: World)
    requires Init(s) && l.worker in s.machines && l.Sensible()
    ensures Leads(s, actions, r) && ShownAs(r, l.Id(), Completed)
    ensures forall c: ContainerId :: !ReportedStarted(r, l.Id(), c)
  {
    actions, r := TasksCanRunAndStop(s, l.(answers := Answers(StartError, false)));
  }

  lemma ResubmittedStorage(s: World, l: Life)
    requires Inv(s) && l.Sensible()
    requires s.mgr.st.tasks == map[l.Id() := l.CompletedRecord()] && Placed(s.mgr.st.placement, l.Id(), l.worker)
    ensures var st := Sent(s.mgr.st, l.worker, l.start);
            && Drift(st, l.worker) == Drift(s.mgr.st, l.worker) + 1
            && l.Id() in st.tasks && st.tasks[l.Id()].state == Scheduled
  {
    hide Inv, Drift;
    SentFrame(s.mgr.st, l.worker, l.start);
    SentDrift(s, l.worker, l.start);
    hide Sent;
  }

  /**
   * The counter does drift: a completed task that is submitted again is active, and its worker's counter is
   * one short.
   */
  lemma ResubmissionDrifts(s: World, l: Life) returns (actions: seq<Action>, r: World)
    requires Init(s) && l.worker in s.machines && l.Sensible()
    ensures Leads(s, actions, r) && ShownAs(r, l.Id(), Scheduled)
    ensures Drift(r.mgr.st, l.worker) == 1
  {
    hide Leads, Inv, Drift, Quiet, Init, Sent, ReportedStarted, ReportedStopped;
    var first, m := TasksCanRunAndStop(s, l);
    ResubmittedStorage(m, l);
    r := Send(m, l.worker, l.start);
    LeadsJoin(s, first, m, SendActions(l.start, l.worker), r);
    actions := first + SendActions(l.start, l.worker);
  }

  // ---------- a crash ----------

  /**
   * A crash between the two Puts of an assignment leaves the task stored without a worker, and the manager
   * restarts.
   */
  lemma CrashLeavesOrphan(s: World, w: Uuid, name: string, ev: TaskEvent) returns (actions: seq<Action>, r: World)
    requires Init(s) && w in s.machines && !IsStop(ev)
    ensures Leads(s, actions, r) && r.mgr.sender.Idle? && Orphan(r.mgr.st, ev.task.id)
  {
    var join, take := [RegisterWorker(w, name, true), Connect(w)], [Submit(ev), StartRound, Take(true)];
    var s1 := Join(s, w, name);
    var s2 := TakeOne(s1, w, ev);
    var rebuilt := RebuildExists(Surviving(s2.mgr, true));
    var crash := RestartManager(true, rebuilt);
    assert Enabled(s2, crash);
    r := Next(s2, crash);
    LeadsJoin(s, join, s1, take, s2);
    hide Enabled, Next, Leads;
    LeadsOn(s, join + take, s2, crash);
    actions := join + take + [crash];
  }
}
