/**
 * What the system holds at any moment of any run, as a function of the steps taken so far: the four stores across
 * restarts, the queue of every worker, the connections, the requests sent.
 */
module Histories {
  import opened Tasks
  import opened StateModel
  import opened Cluster
  import opened ManagerModel
  import opened WorkerModel
  import opened System
  import opened Guarantees

  // ---------- the four stores ----------

  /** The name of the last registration of w that was stored. */
  function LastName(actions: seq<Action>, i: nat, w: Uuid): Option<string>
    requires i <= |actions|
  {
    if i == 0 then None
    else
      match actions[i - 1]
      case RegisterWorker(x, name, true) => if x == w then Some(name) else LastName(actions, i - 1, w)
      case _ => LastName(actions, i - 1, w)
  }

  /** The last event with this id that was taken from the queue and logged. */
  function LastLogged(worlds: seq<World>, actions: seq<Action>, i: nat, e: Uuid): Option<TaskEvent>
    requires i < |worlds| && i <= |actions|
  {
    if i == 0 then None
    else
      var queue := worlds[i - 1].mgr.pending;
      if actions[i - 1] == Take(true) && queue != [] && queue[0].id == e then Some(queue[0])
      else LastLogged(worlds, actions, i - 1, e)
  }

  /** The worker chosen when the task was first assigned. */
  function FirstHome(worlds: seq<World>, actions: seq<Action>, i: nat, id: Uuid): Option<Uuid>
    requires i < |worlds| && i <= |actions|
  {
    if i == 0 then None
    else
      var before := FirstHome(worlds, actions, i - 1, id);
      match actions[i - 1]
      case IssueRequest(choice, true, true) =>
        if before.None? && IsStarting(worlds[i - 1].mgr, id) then choice else before
      case _ => before
  }

  /** The sending loop is about to assign the task. */
  predicate IsStarting(m: Mgr, id: Uuid) {
    m.sender.Working? && m.sender.event.targetState != Completed && m.sender.event.task.id == id
  }

  function ScheduledCopy(m: Mgr): Task
    requires m.sender.Working?
  {
    m.sender.event.task.(state := Scheduled)
  }

  /** A report on top of a record: refused if it ends a task that has no worker. */
  function TakenOver(before: Option<Task>, t: Task, placed: bool): Option<Task> {
    match before
    case None => None
    case Some(b) =>
      if !placed && IsTerminal(t.state) && b.state != t.state then before
      else Some(b.(state := t.state, startTime := t.startTime, finishTime := t.finishTime,
                   containerId := t.containerId, portBindings := t.portBindings))
  }

  /** The record as the assignments, reports and failures so far have made it. */
  function LastRecord(worlds: seq<World>, actions: seq<Action>, i: nat, id: Uuid): Option<Task>
    requires i < |worlds| && i <= |actions|
  {
    if i == 0 then None
    else
      var m, before := worlds[i - 1].mgr, LastRecord(worlds, actions, i - 1, id);
      var home := FirstHome(worlds, actions, i - 1, id);
      match actions[i - 1]
      case IssueRequest(choice, true, _) =>
        if IsStarting(m, id) && (home.Some? || choice.Some?) then Some(ScheduledCopy(m)) else before
      case RestartManager(true, _) => if IsStarting(m, id) then Some(ScheduledCopy(m)) else before
      case GiveUp(true) =>
        if m.sender.Failing? && m.sender.original.id == id
        then TakenOver(before, m.sender.original.(state := Failed), home.Some?) else before
      case Apply(t, true) => if t.id == id then TakenOver(before, t, home.Some?) else before
      case _ => before
  }

  lemma StepNames(s: World, a: Action, w: Uuid)
    requires Enabled(s, a)
    ensures Lookup(Next(s, a).mgr.st.names, w) ==
            if a.RegisterWorker? && a.worker == w && a.ok then Some(a.name) else Lookup(s.mgr.st.names, w)
  {
    hide Issue, Update, CountUpdate, MovesAfterIssue, Rehydrated, LosesRecord;
    StepFrames(s, a);
  }

  lemma StepEvents(s: World, a: Action, e: Uuid)
    requires Enabled(s, a)
    ensures Lookup(Next(s, a).mgr.st.events, e) ==
            if a == Take(true) && s.mgr.pending != [] && s.mgr.pending[0].id == e then Some(s.mgr.pending[0])
            else Lookup(s.mgr.st.events, e)
  {
    hide Issue, Update, CountUpdate, MovesAfterIssue, Rehydrated, LosesRecord;
    StepFrames(s, a);
  }

  lemma StepPlacement(s: World, a: Action, id: Uuid)
    requires Enabled(s, a)
    ensures var before := Lookup(s.mgr.st.placement, id);
            Lookup(Next(s, a).mgr.st.placement, id) ==
            if a.IssueRequest? && a.taskOk && a.assignOk && IsStarting(s.mgr, id) && before.None? then a.choice
            else before
  {
    hide Issue, Update, CountUpdate, MovesAfterIssue, Rehydrated, LosesRecord;
    StepFrames(s, a);
  }

  lemma StepTasks(s: World, a: Action, id: Uuid)
    requires Enabled(s, a)
    ensures var m, before, home := s.mgr, Lookup(s.mgr.st.tasks, id), Lookup(s.mgr.st.placement, id);
            Lookup(Next(s, a).mgr.st.tasks, id) ==
            match a
            case IssueRequest(choice, true, _) =>
              if IsStarting(m, id) && (home.Some? || choice.Some?) then Some(ScheduledCopy(m)) else before
            case RestartManager(true, _) => if IsStarting(m, id) then Some(ScheduledCopy(m)) else before
            case GiveUp(true) =>
              if m.sender.Failing? && m.sender.original.id == id
              then TakenOver(before, m.sender.original.(state := Failed), home.Some?) else before
            case Apply(t, true) => if t.id == id then TakenOver(before, t, home.Some?) else before
            case _ => before
  {
    hide Issue, Update, CountUpdate, MovesAfterIssue, Rehydrated, LosesRecord, TakenOver;
    StepFrames(s, a);
    match a {
      case GiveUp(ok) => TakenOverFrame(s.mgr.st, s.mgr.sender.original.(state := Failed), ok, id);
      case Apply(t, ok) => TakenOverFrame(s.mgr.st, t, ok, id);
      case _ =>
    }
  }

  lemma TakenOverFrame(s: Storage, t: Task, ok: bool, id: Uuid)
    ensures Lookup(Update(s, t, ok).tasks, id) ==
            if ok && t.id == id then TakenOver(Lookup(s.tasks, id), t, id in s.placement) else Lookup(s.tasks, id)
  {
  }

  /** What the storage operations behind a step leave alone, and what issuing a request writes. */
  lemma StepFrames(s: World, a: Action)
    requires Enabled(s, a)
    ensures a.IssueRequest? ==>
              var m, r := s.mgr, Issue(s.mgr, a.choice, a.taskOk, a.assignOk).st;
              var ev := m.sender.event;
              var target := if ev.task.id in m.st.placement then Some(m.st.placement[ev.task.id]) else a.choice;
              var writes := ev.targetState != Completed && target.Some? && a.taskOk;
              && r.names == m.st.names && r.events == m.st.events
              && r.tasks == (if writes then m.st.tasks[ev.task.id := ScheduledCopy(m)] else m.st.tasks)
              && r.placement == (if writes && a.assignOk
                                 then m.st.placement[ev.task.id := target.value] else m.st.placement)
    ensures a.GiveUp? ==> UpdateKeepsStores(s.mgr.st, Next(s, a).mgr.st)
    ensures a.Apply? ==> UpdateKeepsStores(s.mgr.st, Next(s, a).mgr.st)
  {
    hide CountUpdate, MovesAfterIssue;
    match a {
      case IssueRequest(choice, taskOk, assignOk) => IssueFrame(s.mgr, choice, taskOk, assignOk);
      case GiveUp(ok) => UpdateFrame(s.mgr.st, s.mgr.sender.original.(state := Failed), ok);
      case Apply(t, ok) => UpdateFrame(s.mgr.st, t, ok);
      case _ =>
    }
  }

  predicate UpdateKeepsStores(s: Storage, r: Storage) {
    r.names == s.names && r.events == s.events && r.placement == s.placement
  }

  lemma IssueFrame(m: Mgr, choice: Option<Uuid>, taskOk: bool, assignOk: bool)
    requires m.sender.Working?
    ensures var r := Issue(m, choice, taskOk, assignOk).st;
            var ev := m.sender.event;
            var target := if ev.task.id in m.st.placement then Some(m.st.placement[ev.task.id]) else choice;
            var writes := ev.targetState != Completed && target.Some? && taskOk;
            && r.names == m.st.names && r.events == m.st.events
            && r.tasks == (if writes then m.st.tasks[ev.task.id := ScheduledCopy(m)] else m.st.tasks)
            && r.placement == (if writes && assignOk
                               then m.st.placement[ev.task.id := target.value] else m.st.placement)
  {
    hide Assign;
    var t := m.sender.event.task;
    var target := Target(m.st, t.id, choice);
    if target.Some? {
      AssignFrame(m.st, t, target.value, taskOk, assignOk);
    }
  }

  /** At every moment of every run, also after restarts, each of the four stores is what the steps so far made it. */
  lemma {:induction false} StoresAreTheirHistory(worlds: seq<World>, actions: seq<Action>, i: nat, k: Uuid)
    requires IsRun(worlds, actions) && i < |worlds|
    ensures Lookup(worlds[i].mgr.st.names, k) == LastName(actions, i, k)
    ensures Lookup(worlds[i].mgr.st.events, k) == LastLogged(worlds, actions, i, k)
    ensures Lookup(worlds[i].mgr.st.placement, k) == FirstHome(worlds, actions, i, k)
    ensures Lookup(worlds[i].mgr.st.tasks, k) == LastRecord(worlds, actions, i, k)
  {
    if i > 0 {
      StoresAreTheirHistory(worlds, actions, i - 1, k);
      var s, a := worlds[i - 1], actions[i - 1];
      assert Enabled(s, a) && worlds[i] == Next(s, a);
      hide IsRun, Next, Enabled, TakenOver, IsStarting;
      StepNames(s, a, k);
      StepEvents(s, a, k);
      StepPlacement(s, a, k);
      StepTasks(s, a, k);
    }
  }

  /** So nothing that was stored ever loses its key. */
  lemma {:induction false} NothingStoredIsLost(worlds: seq<World>, actions: seq<Action>, i: nat, j: nat, k: Uuid)
    requires IsRun(worlds, actions) && i <= j < |worlds|
    ensures k in worlds[i].mgr.st.names ==> k in worlds[j].mgr.st.names
    ensures k in worlds[i].mgr.st.events ==> k in worlds[j].mgr.st.events
    ensures k in worlds[i].mgr.st.placement ==> k in worlds[j].mgr.st.placement
    ensures k in worlds[i].mgr.st.tasks ==> k in worlds[j].mgr.st.tasks
  {
    hide Next, Enabled;
    if i < j {
      NothingStoredIsLost(worlds, actions, i, j - 1, k);
      StepKeepsKeys(worlds[j - 1], actions[j - 1], k);
      assert worlds[j] == Next(worlds[j - 1], actions[j - 1]);
    }
  }

  lemma StepKeepsKeys(s: World, a: Action, k: Uuid)
    requires Enabled(s, a)
    ensures var st, r := s.mgr.st, Next(s, a).mgr.st;
            && (k in st.names ==> k in r.names) && (k in st.events ==> k in r.events)
            && (k in st.placement ==> k in r.placement) && (k in st.tasks ==> k in r.tasks)
  {
    StepTaskKeys(s, a, k);
    hide Next, Enabled;
    StepNames(s, a, k);
    StepEvents(s, a, k);
    StepPlacement(s, a, k);
  }

  lemma StepTaskKeys(s: World, a: Action, k: Uuid)
    requires Enabled(s, a)
    ensures k in s.mgr.st.tasks ==> k in Next(s, a).mgr.st.tasks
  {
    hide Next, Enabled, IsStarting, ScheduledCopy;
    StepTasks(s, a, k);
  }

  /** The workers the manager polls are those ever registered, also right after a restart. */
  lemma WorkersAreTheRegistered(worlds: seq<World>, actions: seq<Action>, i: nat, w: Uuid)
    requires IsRun(worlds, actions) && i < |worlds|
    ensures w in worlds[i].mgr.st.workers <==> LastName(actions, i, w).Some?
    ensures i < |actions| && actions[i].RestartManager? ==>
              (w in worlds[i + 1].mgr.st.workers <==> w in worlds[i].mgr.st.names)
  {
    PolledIsRegistered(worlds, actions, i, w);
    StoresAreTheirHistory(worlds, actions, i, w);
    if i < |actions| && actions[i].RestartManager? {
      PolledIsRegistered(worlds, actions, i + 1, w);
      StoresAreTheirHistory(worlds, actions, i + 1, w);
    }
  }

  lemma PolledIsRegistered(worlds: seq<World>, actions: seq<Action>, i: nat, w: Uuid)
    requires IsRun(worlds, actions) && i < |worlds|
    ensures w in worlds[i].mgr.st.workers <==> w in worlds[i].mgr.st.names
  {
    RunsKeepInv(worlds, actions, i);
    var st := worlds[i].mgr.st;
    assert w in st.workers <==> w in st.names || HasTask(st, w);
  }

  // ---------- the queues of the workers ----------

  /** What a request asks of the worker: the task of a start, or the Completed copy of the record at that moment. */
  function AskedBy(q: Request, m: Machine): seq<Task> {
    match q
    case StartRequest(_, ev) => [ev.task]
    case StopRequest(_, id) => if id in m.db then [m.db[id].(state := Completed)] else []
  }

  /** What was delivered to w since it last restarted. */
  function DeliveredTo(worlds: seq<World>, actions: seq<Action>, i: nat, w: Uuid): seq<Task>
    requires i < |worlds| && i <= |actions|
  {
    if i == 0 || actions[i - 1] == RestartWorker(w) then []
    else
      DeliveredTo(worlds, actions, i - 1, w)
      + if actions[i - 1].Deliver? && actions[i - 1].request.worker == w && w in worlds[i - 1].machines
        then AskedBy(actions[i - 1].request, worlds[i - 1].machines[w]) else []
  }

  /** The heads w took from its queue since then. */
  function RunBy(worlds: seq<World>, actions: seq<Action>, i: nat, w: Uuid): seq<Task>
    requires i < |worlds| && i <= |actions|
  {
    if i == 0 || actions[i - 1] == RestartWorker(w) then []
    else
      var s, a := worlds[i - 1], actions[i - 1];
      RunBy(worlds, actions, i - 1, w)
      + if a.RunTask? && a.worker == w && w in s.machines && s.machines[w].queue != []
        then [s.machines[w].queue[0]] else []
  }

  lemma StepQueue(s: World, a: Action, w: Uuid)
    requires Enabled(s, a) && w in Next(s, a).machines
    ensures w in s.machines
    ensures var before, after := s.machines[w].queue, Next(s, a).machines[w].queue;
            if a == RestartWorker(w) then after == []
            else if a.Deliver? && a.request.worker == w then after == before + AskedBy(a.request, s.machines[w])
            else if a.RunTask? && a.worker == w && before != [] then before == [before[0]] + after
            else after == before
  {
    hide Issue, MarkFailed, Begin, ManagerModel.Reply, Update, CountUpdate, MovesAfterIssue, Register, LosesRecord,
         Rehydrated, RunHead;
    if a.RunTask? && s.machines[a.worker].queue != [] {
      HeadIsRun(s.machines[a.worker], a.now, a.docker, a.puts);
    } else if a.RunTask? {
      assert RunHead(s.machines[a.worker], a.now, a.docker, a.puts).queue == [] by {
        EmptyQueueRuns(s.machines[a.worker], a.now, a.docker, a.puts);
      }
    }
  }

  lemma EmptyQueueRuns(m: Machine, now: Time, docker: Answers, puts: Puts)
    requires m.queue == []
    ensures RunHead(m, now, docker, puts) == m
  {
  }

  /** Conservation: what was delivered since the last restart is what was run followed by the queue, in order. */
  lemma {:induction false} DeliveriesAreConserved(worlds: seq<World>, actions: seq<Action>, i: nat, w: Uuid)
    requires IsRun(worlds, actions) && i < |worlds| && w in worlds[i].machines
    ensures DeliveredTo(worlds, actions, i, w) == RunBy(worlds, actions, i, w) + worlds[i].machines[w].queue
  {
    hide Next, Enabled, AskedBy;
    if i > 0 {
      var s, a := worlds[i - 1], actions[i - 1];
      assert Enabled(s, a) && worlds[i] == Next(s, a);
      hide IsRun;
      StepQueue(s, a, w);
      DeliveriesAreConserved(worlds, actions, i - 1, w);
      hide DeliveredTo, RunBy;
      DeliveredStep(worlds, actions, i, w);
      RunStep(worlds, actions, i, w);
    }
  }

  lemma DeliveredStep(worlds: seq<World>, actions: seq<Action>, i: nat, w: Uuid)
    requires 0 < i < |worlds| && i <= |actions| && w in worlds[i - 1].machines
    ensures var s, a, before := worlds[i - 1], actions[i - 1], DeliveredTo(worlds, actions, i - 1, w);
            DeliveredTo(worlds, actions, i, w) ==
            if a == RestartWorker(w) then []
            else if a.Deliver? && a.request.worker == w then before + AskedBy(a.request, s.machines[w])
            else before
  {
  }

  lemma RunStep(worlds: seq<World>, actions: seq<Action>, i: nat, w: Uuid)
    requires 0 < i < |worlds| && i <= |actions| && w in worlds[i - 1].machines
    ensures var s, a, before := worlds[i - 1], actions[i - 1], RunBy(worlds, actions, i - 1, w);
            RunBy(worlds, actions, i, w) ==
            if a == RestartWorker(w) then []
            else if a.RunTask? && a.worker == w && s.machines[w].queue != [] then before + [s.machines[w].queue[0]]
            else before
  {
  }

  // ---------- connections, requests, rounds ----------

  function ConnectedSince(actions: seq<Action>, i: nat): set<Uuid>
    requires i <= |actions|
  {
    if i == 0 || actions[i - 1].RestartManager? then {}
    else ConnectedSince(actions, i - 1) + if actions[i - 1].Connect? then {actions[i - 1].worker} else {}
  }

  /** The request a sending step puts on the network. */
  function RequestOf(m: Mgr, a: Action): set<Request> {
    match a
    case IssueRequest(choice, taskOk, assignOk) =>
      if !m.sender.Working? then {}
      else
        var ev := m.sender.event;
        var to := Addressee(m, ev, choice);
        if to.None? || to.value !in m.clients then {}
        else if ev.targetState == Completed then {StopRequest(to.value, ev.task.id)}
        else if taskOk && assignOk then {StartRequest(to.value, ev.(task := ev.task.(state := Scheduled)))}
        else {}
    case _ => {}
  }

  function SentBy(worlds: seq<World>, actions: seq<Action>, i: nat): set<Request>
    requires i < |worlds| && i <= |actions|
  {
    if i == 0 then {} else SentBy(worlds, actions, i - 1) + RequestOf(worlds[i - 1].mgr, actions[i - 1])
  }

  lemma StepNetwork(s: World, a: Action)
    requires Enabled(s, a)
    ensures Next(s, a).mgr.sent == s.mgr.sent + RequestOf(s.mgr, a)
    ensures Next(s, a).mgr.clients ==
            if a.RestartManager? then {} else s.mgr.clients + if a.Connect? then {a.worker} else {}
  {
    hide Assign, Update, Register, CountUpdate, MovesAfterIssue, Rehydrated, LosesRecord;
    assert s.mgr.sent + {} == s.mgr.sent && s.mgr.clients + {} == s.mgr.clients;
  }

  /** The connections are those made since the manager last started, the requests those sent by any of its steps. */
  lemma {:induction false} NetworkIsItsHistory(worlds: seq<World>, actions: seq<Action>, i: nat)
    requires IsRun(worlds, actions) && i < |worlds|
    ensures worlds[i].mgr.clients == ConnectedSince(actions, i)
    ensures worlds[i].mgr.sent == SentBy(worlds, actions, i)
  {
    if i > 0 {
      NetworkIsItsHistory(worlds, actions, i - 1);
      var s, a := worlds[i - 1], actions[i - 1];
      assert Enabled(s, a) && worlds[i] == Next(s, a);
      hide Next, Enabled, RequestOf;
      StepNetwork(s, a);
    }
  }

  function Takes(actions: seq<Action>, i: nat, j: nat): nat
    requires i <= j <= |actions|
    decreases j
  {
    if i == j then 0 else Takes(actions, i, j - 1) + if actions[j - 1].Take? then 1 else 0
  }

  lemma StepRound(s: World, a: Action)
    requires Enabled(s, a) && !a.RestartManager?
    ensures Next(s, a).left == if a.StartRound? then |s.mgr.pending|
                               else if a.Take? && s.mgr.pending != [] then s.left - 1 else s.left
  {
    hide Issue, MarkFailed, Begin, ManagerModel.Reply, Update, CountUpdate, MovesAfterIssue, Register, LosesRecord;
  }

  /** A round makes as many calls as there were events in the queue when it began. */
  lemma {:induction false} RoundIsASnapshot(worlds: seq<World>, actions: seq<Action>, i: nat, j: nat)
    requires IsRun(worlds, actions) && i < j < |worlds| && actions[i].StartRound?
    requires forall k | i < k < j :: !actions[k].StartRound? && !actions[k].RestartManager?
    ensures worlds[j].left + Takes(actions, i + 1, j) == |worlds[i].mgr.pending|
  {
    hide Next, Enabled;
    var s, a := worlds[j - 1], actions[j - 1];
    if a.Take? {
      SenderNeverStarves(worlds, actions, j - 1);
    }
    assert j - 1 > i ==> !a.StartRound? && !a.RestartManager?;
    StepRound(s, a);
    assert worlds[j] == Next(s, a);
    if i + 1 < j {
      RoundIsASnapshot(worlds, actions, i, j - 1);
    }
  }
}
