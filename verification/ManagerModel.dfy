/**
 * The value of the manager (internal/app/manager/manager.go) and the steps one SendWork call consists of.
 * Between two of these steps the storage may change: reports are applied, workers register, events arrive.
 */
module ManagerModel {
  import opened Tasks
  import opened StateModel
  import opened Schedulers
  import opened Cluster

  /** How far the sending loop is with the event it took from the queue. */
  datatype Sender =
    | Idle
    | Working(event: TaskEvent)
    | Awaiting(event: TaskEvent, original: Task)
    | Failing(original: Task)

  datatype Mgr = Mgr(st: Storage, pending: seq<TaskEvent>, sender: Sender, clients: set<Uuid>, sent: set<Request>)

  predicate IsStop(ev: TaskEvent) {
    ev.targetState == Completed
  }

  /** The head leaves the queue and is logged. */
  function Begin(m: Mgr, logOk: bool): Mgr
    requires m.sender.Idle? && m.pending != []
  {
    var ev := m.pending[0];
    m.(pending := m.pending[1..], st := LogEvent(m.st, ev, logOk),
       sender := if logOk then Working(ev) else Failing(ev.task))
  }

  /** The worker a task is already assigned to, or else the scheduler's choice. */
  function Target(s: Storage, id: Uuid, choice: Option<Uuid>): Option<Uuid> {
    if id in s.placement then Some(s.placement[id]) else choice
  }

  /** A stop goes to the assigned worker. */
  function IssueStop(m: Mgr): Mgr
    requires m.sender.Working?
  {
    var t := m.sender.event.task;
    if t.id in m.st.placement && m.st.placement[t.id] in m.clients
    then m.(sent := m.sent + {StopRequest(m.st.placement[t.id], t.id)}, sender := Awaiting(m.sender.event, t))
    else m.(sender := Failing(t))
  }

  /** A start is assigned first and then sent as the Scheduled copy. */
  function IssueStart(m: Mgr, choice: Option<Uuid>, taskOk: bool, assignOk: bool): Mgr
    requires m.sender.Working?
  {
    var t := m.sender.event.task;
    var target := Target(m.st, t.id, choice);
    if target.None? then m.(sender := Failing(t))
    else
      var w := target.value;
      var m1 := m.(st := Assign(m.st, t, w, taskOk, assignOk));
      if !taskOk || !assignOk || w !in m.clients then m1.(sender := Failing(t))
      else
        var scheduled := m.sender.event.(task := t.(state := Scheduled));
        m1.(sent := m.sent + {StartRequest(w, scheduled)}, sender := Awaiting(scheduled, t))
  }

  /** Only the target matters; without one the start fails at once. */
  lemma IssueToTarget(m: Mgr, choice: Option<Uuid>, taskOk: bool, assignOk: bool)
    requires m.sender.Working?
    ensures var target := Target(m.st, m.sender.event.task.id, choice);
            IssueStart(m, choice, taskOk, assignOk) ==
            if target.None? then m.(sender := Failing(m.sender.event.task)) else IssueStart(m, target, taskOk, assignOk)
  {
    hide Assign;
  }

  function Issue(m: Mgr, choice: Option<Uuid>, taskOk: bool, assignOk: bool): Mgr
    requires m.sender.Working?
  {
    if IsStop(m.sender.event) then IssueStop(m) else IssueStart(m, choice, taskOk, assignOk)
  }

  /** Issuing ends with a request under way or with a failure, and remembers the queued task either way. */
  lemma IssueSettles(m: Mgr, choice: Option<Uuid>, taskOk: bool, assignOk: bool)
    requires m.sender.Working?
    ensures var r := Issue(m, choice, taskOk, assignOk);
            && (r.sender.Awaiting? || r.sender.Failing?) && r.sender.original == m.sender.event.task
            && r.pending == m.pending && r.clients == m.clients
  {
    hide Assign;
  }

  function Reply(m: Mgr, ok: bool): Mgr
    requires m.sender.Awaiting?
  {
    m.(sender := if ok then Idle else Failing(m.sender.original))
  }

  /** The deferred write: a copy of the task as it was in the queue, marked Failed. */
  function MarkFailed(m: Mgr, ok: bool): Mgr
    requires m.sender.Failing?
  {
    m.(st := Update(m.st, m.sender.original.(state := Failed), ok), sender := Idle)
  }

  // ---------- one call of SendWork without interference ----------

  /** The outcomes of one call: which writes reach the store, what the scheduler chooses, what the worker replies. */
  datatype Outcomes = Outcomes(logOk: bool, choice: Option<Uuid>, taskOk: bool, assignOk: bool, replyOk: bool,
      markOk: bool)

  /** The manager just before the deferred write. */
  function Attempt(m: Mgr, o: Outcomes): Mgr
    requires m.sender.Idle? && m.pending != []
  {
    var m1 := Begin(m, o.logOk);
    var m2 := if m1.sender.Working? then Issue(m1, o.choice, o.taskOk, o.assignOk) else m1;
    if m2.sender.Awaiting? then Reply(m2, o.replyOk) else m2
  }

  function SendWork(m: Mgr, o: Outcomes): Mgr
    requires m.sender.Idle?
  {
    if m.pending == [] then m
    else
      var m1 := Attempt(m, o);
      if m1.sender.Failing? then MarkFailed(m1, o.markOk) else m1
  }

  predicate SendFails(m: Mgr, o: Outcomes)
    requires m.sender.Idle?
  {
    m.pending == [] || Attempt(m, o).sender.Failing?
  }

  /** The event a call hands back: with the Scheduled copy of the task once the assignment was stored. */
  function HandedBack(m: Mgr, o: Outcomes): Option<TaskEvent>
    requires m.sender.Idle?
  {
    if m.pending == [] then None
    else
      var ev := m.pending[0];
      if o.logOk && !IsStop(ev) && Target(m.st, ev.task.id, o.choice).Some? && o.taskOk && o.assignOk
      then Some(ev.(task := ev.task.(state := Scheduled)))
      else Some(ev)
  }

  /** What a poll shows when every worker in stats answers. */
  function PolledBy(m: Mgr, stats: map<Uuid, Stats>): seq<Node> {
    Polled(m.st, m.st.workers, m.clients, stats)
  }

  /** The choice made for a first start is the best one over the poll of that moment. */
  ghost predicate ChoosesBest(pow: real -> real, m: Mgr, o: Outcomes, stats: map<Uuid, Stats>) {
    m.pending != [] && o.logOk && !IsStop(m.pending[0]) && m.pending[0].task.id !in m.st.placement ==>
      BestChoice(pow, m.pending[0].task, PolledBy(m, stats), o.choice)
  }

  /** A stop, and any call that did not store the assignment, hands the queued event back unchanged. */
  lemma HandedBackIs(m: Mgr, o: Outcomes)
    requires m.sender.Idle? && m.pending != []
    ensures var ev := m.pending[0];
            var stored := o.logOk && ev.targetState != Completed && o.taskOk && o.assignOk
                            && (ev.task.id in m.st.placement || o.choice.Some?);
            HandedBack(m, o) == Some(if stored then ev.(task := ev.task.(state := Scheduled)) else ev)
  {
  }

  /** Where a call would send its request: the worker the task has, or the one chosen for a first start. */
  function Addressee(m: Mgr, ev: TaskEvent, choice: Option<Uuid>): Option<Uuid> {
    if ev.task.id in m.st.placement then Some(m.st.placement[ev.task.id])
    else if ev.targetState == Completed then None
    else choice
  }

  /** The request goes out: everything that comes before it has succeeded. */
  predicate GoesOut(m: Mgr, o: Outcomes)
    requires m.pending != []
  {
    var ev := m.pending[0];
    && o.logOk && (ev.targetState != Completed ==> o.taskOk && o.assignOk)
    && Addressee(m, ev, o.choice).Some? && Addressee(m, ev, o.choice).value in m.clients
  }

  /** Exactly when a call fails, and exactly what it has sent by then. */
  lemma SendWorkSends(m: Mgr, o: Outcomes)
    requires m.sender.Idle? && m.pending != []
    ensures SendFails(m, o) <==> !(GoesOut(m, o) && o.replyOk)
    ensures var ev := m.pending[0];
            SendWork(m, o).sent == m.sent + if !GoesOut(m, o) then {} else
              var w := Addressee(m, ev, o.choice).value;
              if ev.targetState == Completed then {StopRequest(w, ev.task.id)}
              else {StartRequest(w, ev.(task := ev.task.(state := Scheduled)))}
  {
    hide Assign, Update;
    assert m.sent + {} == m.sent;
  }

  /**
   * The deferred write of a failed call: the five worker-owned fields of the record become those of the queued
   * task, with state Failed; its other fields, and every other task, stay as they were before that write.
   */
  lemma FailedSendRecord(m: Mgr, o: Outcomes, id: Uuid)
    requires m.sender.Idle? && m.pending != [] && SendFails(m, o) && id in m.st.tasks
    ensures var t, r := m.pending[0].task, SendWork(m, o).st;
            && id in r.tasks && (id != t.id ==> r.tasks[id] == m.st.tasks[id])
            && (id == t.id && id in m.st.placement && o.markOk ==>
                  AgreesWith(r.tasks[id], t.(state := Failed))
                  && SameIdentity(r.tasks[id], if StoresRecord(m, o) then t else m.st.tasks[id]))
            && (id == t.id && !o.markOk ==>
                  r.tasks[id] == if StoresRecord(m, o) then t.(state := Scheduled) else m.st.tasks[id])
  {
    AttemptStorage(m, o);
    hide Attempt, Update;
    var a, t := Attempt(m, o), m.pending[0].task;
    AttemptFails(m, o);
    UpdateFrame(a.st, t.(state := Failed), o.markOk);
    if id == t.id && id in m.st.placement {
      ReportIsTakenOver(a.st, t.(state := Failed));
    }
  }

  lemma AttemptFails(m: Mgr, o: Outcomes)
    requires m.sender.Idle? && m.pending != []
    ensures var a := Attempt(m, o);
            a.sender == Idle || a.sender == Failing(m.pending[0].task)
  {
    hide Assign;
  }

  predicate AbsentOrFailed(s: Storage, id: Uuid) {
    id !in s.tasks || s.tasks[id].state == Failed
  }

  /** The call got as far as storing the task record. */
  predicate StoresRecord(m: Mgr, o: Outcomes)
    requires m.sender.Idle? && m.pending != []
  {
    var ev := m.pending[0];
    o.logOk && !IsStop(ev) && Target(m.st, ev.task.id, o.choice).Some? && o.taskOk
  }

  /** What a call has done to the stores before the deferred write. */
  lemma AttemptStorage(m: Mgr, o: Outcomes)
    requires m.sender.Idle? && m.pending != []
    ensures var id, a := m.pending[0].task.id, Attempt(m, o).st;
            && a.events == LogEvent(m.st, m.pending[0], o.logOk).events && a.names == m.st.names
            && a.placement == (if StoresRecord(m, o) && o.assignOk
                               then m.st.placement[id := Target(m.st, id, o.choice).value] else m.st.placement)
            && a.tasks == (if StoresRecord(m, o)
                           then m.st.tasks[id := m.pending[0].task.(state := Scheduled)] else m.st.tasks)
  {
    hide Assign;
    var m1 := Begin(m, o.logOk);
    var t := m.pending[0].task;
    var target := Target(m1.st, t.id, o.choice);
    if m1.sender.Working? && target.Some? {
      AssignFrame(m1.st, t, target.value, o.taskOk, o.assignOk);
    }
  }

  /** The deferred write touches only the record and the counter of its task. */
  lemma SendWorkStorage(m: Mgr, o: Outcomes)
    requires m.sender.Idle? && m.pending != []
    ensures var id, a, r := m.pending[0].task.id, Attempt(m, o).st, SendWork(m, o).st;
            && r.events == LogEvent(m.st, m.pending[0], o.logOk).events && r.names == m.st.names
            && r.placement == (if StoresRecord(m, o) && o.assignOk
                               then m.st.placement[id := Target(m.st, id, o.choice).value] else m.st.placement)
            && (!SendFails(m, o) ==> r == a)
            && a.tasks == (if StoresRecord(m, o)
                           then m.st.tasks[id := m.pending[0].task.(state := Scheduled)] else m.st.tasks)
  {
    AttemptStorage(m, o);
    hide Attempt, Update;
    var a := Attempt(m, o);
    if a.sender.Failing? {
      UpdateFrame(a.st, a.sender.original.(state := Failed), o.markOk);
    }
  }

  /** Each call on a non-empty queue takes exactly the head, and the log entry is the event as it was queued. */
  lemma SendWorkTakesHead(m: Mgr, o: Outcomes)
    requires m.sender.Idle? && m.pending != []
    ensures SendWork(m, o).pending == m.pending[1..] && SendWork(m, o).sender.Idle?
    ensures SendWork(m, o).st.events == if o.logOk then m.st.events[m.pending[0].id := m.pending[0]] else m.st.events
    ensures SendWork(m, o).clients == m.clients && SendWork(m, o).st.names == m.st.names
  {
    hide Assign, Update;
    SendWorkStorage(m, o);
  }

  /** A start that succeeds: stored Scheduled, assigned, and the very same Scheduled copy sent to that worker. */
  lemma SuccessfulStart(m: Mgr, o: Outcomes)
    requires m.sender.Idle? && !SendFails(m, o) && !IsStop(m.pending[0])
    ensures var ev, r := m.pending[0], SendWork(m, o);
            var scheduled := ev.task.(state := Scheduled);
            && HandedBack(m, o) == Some(ev.(task := scheduled))
            && ev.task.id in r.st.tasks && r.st.tasks[ev.task.id] == scheduled
            && Target(m.st, ev.task.id, o.choice) == Some(r.st.placement[ev.task.id])
            && r.sent == m.sent + {StartRequest(r.st.placement[ev.task.id], ev.(task := scheduled))}
            && r.st.events[ev.id] == ev
  {
    hide Assign, Update;
    SendWorkStorage(m, o);
  }

  /** A stop that succeeds: one request to the assigned worker, and the storage is touched only by the log. */
  lemma SuccessfulStop(m: Mgr, o: Outcomes)
    requires m.sender.Idle? && !SendFails(m, o) && IsStop(m.pending[0])
    ensures var ev, r := m.pending[0], SendWork(m, o);
            && ev.task.id in m.st.placement
            && r.st == LogEvent(m.st, ev, true)
            && r.sent == m.sent + {StopRequest(m.st.placement[ev.task.id], ev.task.id)}
  {
    hide Assign, Update;
  }

  /**
   * After an error the task is absent or Failed exactly when it was so before and its record was not
   * rewritten, or when it is assigned and the deferred write succeeds.
   */
  lemma FailedSendOutcome(m: Mgr, o: Outcomes)
    requires m.sender.Idle? && m.pending != [] && SendFails(m, o)
    ensures var id := m.pending[0].task.id;
            AbsentOrFailed(SendWork(m, o).st, id) <==>
            || (AbsentOrFailed(m.st, id) && !StoresRecord(m, o))
            || ((id in m.st.placement || (StoresRecord(m, o) && o.assignOk)) && o.markOk)
  {
    hide Assign, Update;
    SendWorkStorage(m, o);
    AttemptStorage(m, o);
    var m1 := Attempt(m, o);
    assert m1.sender.original == m.pending[0].task;
    UpdateFrame(m1.st, m1.sender.original.(state := Failed), o.markOk);
  }

  /** A stored record without an assignment: what a crash between the two Puts of an assignment leaves behind. */
  predicate Orphan(s: Storage, id: Uuid) {
    id in s.tasks && id !in s.placement && s.tasks[id].state != Failed
  }

  /** Stopping an orphan always fails and never changes its record. */
  lemma OrphanCannotBeStopped(m: Mgr, o: Outcomes)
    requires m.sender.Idle? && m.pending != [] && IsStop(m.pending[0]) && Orphan(m.st, m.pending[0].task.id)
    ensures SendFails(m, o) && SendWork(m, o).st.tasks == m.st.tasks
            && !AbsentOrFailed(SendWork(m, o).st, m.pending[0].task.id)
  {
    var a := Attempt(m, o);
    assert a.sender.Failing? && a.sender.original == m.pending[0].task;
    assert !Updatable(a.st, a.sender.original.(state := Failed));
  }

  /** With working stores the documented outcome fails for exactly one family: an orphan the call could not place. */
  lemma FailedSendLeavesOrphans(m: Mgr, o: Outcomes)
    requires m.sender.Idle? && m.pending != [] && SendFails(m, o)
    requires o.logOk && o.taskOk && o.assignOk && o.markOk
    ensures var ev := m.pending[0];
            AbsentOrFailed(SendWork(m, o).st, ev.task.id) <==>
            !(Orphan(m.st, ev.task.id) && (IsStop(ev) || o.choice.None?))
  {
    hide Attempt;
    FailedSendOutcome(m, o);
  }

  /** An assignment, once made, is never changed by sending. */
  lemma SendWorkIsSticky(m: Mgr, o: Outcomes, id: Uuid)
    requires m.sender.Idle? && id in m.st.placement
    ensures id in SendWork(m, o).st.placement && SendWork(m, o).st.placement[id] == m.st.placement[id]
  {
    hide Assign, Update;
    if m.pending != [] {
      SendWorkStorage(m, o);
    }
  }

  /**
   * A start that was stored and assigned but not answered: the record is the queued task marked Failed, and
   * for a task that had no worker before, the counter of its worker is back where it was.
   */
  lemma UnansweredStart(m: Mgr, o: Outcomes)
    requires m.sender.Idle? && m.pending != [] && SendFails(m, o) && StoresRecord(m, o) && o.assignOk && o.markOk
    requires Agree(m.st)
    ensures var t, r := m.pending[0].task, SendWork(m, o).st;
            && t.id in r.tasks && r.tasks[t.id] == t.(state := Failed)
            && (t.id !in m.st.placement ==> forall w :: r.CountOf(w) == m.st.CountOf(w))
  {
    var t, a := m.pending[0].task, Attempt(m, o);
    var s1 := Begin(m, o.logOk).st;
    var w := Target(m.st, t.id, o.choice).value;
    assert t.id in s1.ListOf(w) <==> t.id in m.st.placement && m.st.placement[t.id] == w by {
      assert s1.ListOf(w) == m.st.ListOf(w);
    }
    assert a.st == Assign(s1, t, w, true, true) && a.sender == Failing(t);
    assert SendWork(m, o).st == Update(a.st, t.(state := Failed), true);
  }
}
