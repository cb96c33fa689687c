/** The manager object (internal/app/manager/manager.go), proved against ManagerModel. */
module Managers {
  import opened Seqs
  import opened Tasks
  import opened StateModel
  import opened MappingStorages
  import opened Schedulers
  import opened Cluster
  import opened ManagerModel

  /** What the surroundings do during one SendWork call. */
  datatype Surroundings = Surroundings(logOk: bool, taskOk: bool, assignOk: bool, replyOk: bool, markOk: bool,
      stats: map<Uuid, Stats>)

  lemma {:induction false} FilterDistinct(nodes: seq<Node>, p: Node -> bool)
    requires DistinctNodes(nodes)
    ensures DistinctNodes(Filter(nodes, p))
  {
    if nodes != [] {
      var rest := Filter(nodes[1..], p);
      FilterDistinct(nodes[1..], p);
      forall i | 0 <= i < |rest|
        ensures rest[i].workerUuid != nodes[0].workerUuid
      {
        FilterMember(nodes[1..], p, rest[i]);
        var k :| 0 <= k < |nodes[1..]| && nodes[1..][k] == rest[i];
        assert nodes[k + 1] == rest[i];
      }
    }
  }

  lemma DistinctScoresAreFaithful(pow: real -> real, t: Task, nodes: seq<Node>, scores: map<Uuid, real>)
    requires DistinctNodes(nodes)
    requires forall i | LastOfItsId(nodes, i) ::
             nodes[i].workerUuid in scores && scores[nodes[i].workerUuid] == Cost(pow, t, nodes[i])
    ensures Faithful(pow, t, scores, nodes)
  {
    forall i | 0 <= i < |nodes|
      ensures ScoreOf(scores, nodes[i]) == Cost(pow, t, nodes[i])
    {
      assert LastOfItsId(nodes, i);
    }
  }

  lemma PickedIsCheapest(pow: real -> real, t: Task, nodes: seq<Node>, scores: map<Uuid, real>, index: int)
    requires var candidates := Filter(nodes, n => HasDisk(t, n));
             FirstLowest(scores, candidates, index) && (DistinctNodes(nodes) ==> Faithful(pow, t, scores, candidates))
    ensures Cheapest(pow, t, nodes, Filter(nodes, n => HasDisk(t, n))[index])
  {
    var candidates := Filter(nodes, n => HasDisk(t, n));
    var best := candidates[index];
    FilterMember(nodes, n => HasDisk(t, n), best);
    if DistinctNodes(nodes) {
      forall x | x in nodes && HasDisk(t, x)
        ensures Cost(pow, t, best) <= Cost(pow, t, x)
      {
        FilterMember(nodes, n => HasDisk(t, n), x);
        var j :| 0 <= j < |candidates| && candidates[j] == x;
        assert ScoreOf(scores, best) <= ScoreOf(scores, candidates[j]);
      }
    }
  }

  /** A cheapest node of a poll is a cheapest node of the same poll in another order. */
  lemma BestChoicePermutes(pow: real -> real, t: Task, a: seq<Node>, b: seq<Node>, choice: Option<Uuid>)
    requires multiset(a) == multiset(b) && BestChoice(pow, t, a, choice)
    ensures BestChoice(pow, t, b, choice)
  {
    forall n
      ensures n in a <==> n in b
    {
      SameMultisetMember(a, b, n);
    }
    if DistinctNodes(b) {
      DistinctPermute(b, a, (n: Node) => n.workerUuid);
    }
    if choice.Some? {
      var n :| Cheapest(pow, t, a, n) && n.workerUuid == choice.value;
      assert Cheapest(pow, t, b, n);
    }
  }

  lemma ChosenNode(pow: real -> real, t: Task, polled: seq<Node>, w: Uuid) returns (n: Node)
    requires BestChoice(pow, t, polled, Some(w))
    ensures n in polled && n.workerUuid == w
  {
    n :| Cheapest(pow, t, polled, n) && n.workerUuid == w;
  }

  class Manager {
    const state: MappingStorage
    const cluster: HttpClientCluster
    const pow: real -> real
    var pending: seq<TaskEvent>

    ghost predicate Valid()
      reads this, state, state.taskDb, cluster
    {
      state.Valid() && cluster.Valid()
    }

    ghost function Model(): Mgr
      reads this, state, state.taskDb, state.taskDb.cells.Values, cluster
    {
      Mgr(state.Model(), pending, Idle, cluster.clients, cluster.sent)
    }

    constructor (state: MappingStorage, cluster: HttpClientCluster, pow: real -> real)
      requires state.Valid() && cluster.Valid()
      ensures Valid() && this.state == state && this.cluster == cluster && this.pow == pow && pending == []
    {
      this.state, this.cluster, this.pow, this.pending := state, cluster, pow, [];
    }

    method AddTaskEvent(ev: TaskEvent)
      modifies this`pending
      ensures pending == old(pending) + [ev]
    {
      pending := pending + [ev];
    }

    /** The connection is recorded only if the registration was stored. */
    method AddWorkerAndClient(w: Uuid, name: string, diskOk: bool)
      requires Valid()
      modifies state, cluster`clients
      ensures Valid()
      ensures state.Model() == Register(old(state.Model()), w, name, state.Durable(diskOk))
      ensures cluster.clients == old(cluster.clients) + if state.Durable(diskOk) then {w} else {}
    {
      var err := state.RegisterWorker(w, name, diskOk);
      if err {
        return;
      }
      cluster.AddClient(w);
    }

    /** Polls all workers, then lets the scheduler filter, score and pick. */
    method SelectWorker(t: Task, stats: map<Uuid, Stats>) returns (choice: Option<Uuid>)
      requires Valid()
      modifies cluster`workerNodes, cluster`log
      ensures Valid()
      ensures BestChoice(pow, t, Polled(state.Model(), state.workers, cluster.clients, stats), choice)
      ensures choice.Some? ==> choice.value in state.workers && choice.value in cluster.clients
    {
      hide LogTells, BestChoice, NoDup, DistinctNodes, NodeIds, Polled;
      ghost var s, workers, clients := state.Model(), state.workers, cluster.clients;
      ghost var polled := Polled(s, workers, clients, stats);
      cluster.UpdateWorkerNodes(state, stats);
      var nodes := cluster.GetNodes();
      choice := Schedule(pow, t, nodes);
      BestChoicePermutes(pow, t, nodes, polled, choice);
      if choice.Some? {
        ghost var n := ChosenNode(pow, t, polled, choice.value);
        PolledMembers(s, workers, clients, stats, n);
      }
      assert state.Model() == s;
    }

    static method Schedule(pow: real -> real, t: Task, nodes: seq<Node>) returns (choice: Option<Uuid>)
      ensures BestChoice(pow, t, nodes, choice)
    {
      var candidates := SelectCandidateNodes(t, nodes);
      if candidates == [] {
        forall n | n in nodes
          ensures !HasDisk(t, n)
        {
          FilterMember(nodes, x => HasDisk(t, x), n);
        }
        return None;
      }
      var scores := Score(pow, t, candidates);
      var best, index := Pick(scores, candidates);
      if DistinctNodes(nodes) {
        FilterDistinct(nodes, x => HasDisk(t, x));
        DistinctScoresAreFaithful(pow, t, candidates, scores);
      }
      PickedIsCheapest(pow, t, nodes, scores, index);
      choice := Some(best.value.workerUuid);
    }

    method DetermineWorker(t: Task, stats: map<Uuid, Stats>) returns (target: Option<Uuid>, ghost choice: Option<Uuid>)
      requires Valid()
      modifies cluster`workerNodes, cluster`log
      ensures Valid()
      ensures target == Target(state.Model(), t.id, choice)
      ensures t.id !in state.taskWorkerDb ==>
              BestChoice(pow, t, Polled(state.Model(), state.workers, cluster.clients, stats), choice)
      ensures choice.Some? ==> choice.value in state.workers && choice.value in cluster.clients
    {
      var found, w := state.GetAssignedWorker(t.id);
      choice := None;
      if found {
        return Some(w), None;
      }
      target := SelectWorker(t, stats);
      choice := target;
    }

    /**
     * Takes the head of the queue and tries to bring it to a worker.  The task to mark as failed is captured
     * before the event's task is replaced by the Scheduled copy.
     */
    method SendWork(env: Surroundings) returns (target: Option<TaskEvent>, err: bool, ghost o: Outcomes)
      requires Valid()
      modifies this`pending, state, state.taskDb, state.taskDb.cells.Values, cluster
      ensures Valid() && fresh(state.taskDb.cells.Values - old(state.taskDb.cells.Values))
      ensures Model() == ManagerModel.SendWork(old(Model()), o)
      ensures err == SendFails(old(Model()), o) && target == HandedBack(old(Model()), o)
      ensures o == Outcomes(state.Durable(env.logOk), o.choice, state.Durable(env.taskOk), state.Durable(env.assignOk),
                            env.replyOk, state.Durable(env.markOk))
      ensures ChoosesBest(pow, old(Model()), o, env.stats)
      ensures o.choice.Some? ==> o.choice.value in old(state.workers) && o.choice.value in old(cluster.clients)
    {
      ghost var m := Model();
      if pending == [] {
        o := Outcomes(state.Durable(env.logOk), None, state.Durable(env.taskOk), state.Durable(env.assignOk),
                      env.replyOk, state.Durable(env.markOk));
        return None, true, o;
      }
      hide Assign, Update, Attempt, ChoosesBest;
      var taskEvent, original;
      taskEvent, original, err, o := TrySend(env);
      if err {
        var failed := state.UpdateTask(original.(state := Failed), env.markOk);
      }
      target := Some(taskEvent);
    }

    /** SendWork up to the deferred write; `original` is the task that write would mark. */
    method TrySend(env: Surroundings) returns (target: TaskEvent, original: Task, err: bool, ghost o: Outcomes)
      requires Valid() && pending != []
      modifies this`pending, state, state.taskDb, cluster
      ensures Valid() && fresh(state.taskDb.cells.Values - old(state.taskDb.cells.Values))
      ensures Model() == Attempt(old(Model()), o).(sender := Idle)
      ensures err == Attempt(old(Model()), o).sender.Failing?
              && (err ==> original == Attempt(old(Model()), o).sender.original)
      ensures Some(target) == HandedBack(old(Model()), o)
      ensures o == Outcomes(state.Durable(env.logOk), o.choice, state.Durable(env.taskOk), state.Durable(env.assignOk),
                            env.replyOk, state.Durable(env.markOk))
      ensures ChoosesBest(pow, old(Model()), o, env.stats)
      ensures o.choice.Some? ==> o.choice.value in old(state.workers) && o.choice.value in old(cluster.clients)
    {
      hide Issue, LogTells, BestChoice, Polled;
      o := Outcomes(state.Durable(env.logOk), None, state.Durable(env.taskOk), state.Durable(env.assignOk),
                    env.replyOk, state.Durable(env.markOk));
      ghost var begun := Begin(Model(), o.logOk);
      target := pending[0];
      pending := pending[1..];
      original := target.task;
      err := state.UpdateTaskEvent(target, env.logOk);
      assert Model() == begun.(sender := Idle);
      PollIgnoresEvents(old(state.Model()), state.Model(), old(state.workers), old(cluster.clients), env.stats);
      hide LogEvent;
      if !err {
        ghost var choice;
        target, err, choice := Deliver(target, env);
        o := o.(choice := choice);
        IssueSettles(begun, choice, o.taskOk, o.assignOk);
      }
    }

    /** The part of SendWork between the log entry and the reply. */
    method Deliver(taskEvent: TaskEvent, env: Surroundings)
      returns (target: TaskEvent, err: bool, ghost choice: Option<Uuid>)
      requires Valid()
      modifies state, state.taskDb, cluster
      ensures Valid() && fresh(state.taskDb.cells.Values - old(state.taskDb.cells.Values))
      ensures var issued :=
              Issue(old(Model()).(sender := Working(taskEvent)), choice, state.Durable(env.taskOk),
                    state.Durable(env.assignOk));
              Model() == issued.(sender := Idle) && err == (issued.sender.Failing? || !env.replyOk)
      ensures target == if !IsStop(taskEvent) && Target(old(state.Model()), taskEvent.task.id, choice).Some?
                           && state.Durable(env.taskOk) && state.Durable(env.assignOk)
                        then taskEvent.(task := taskEvent.task.(state := Scheduled)) else taskEvent
      ensures !IsStop(taskEvent) && taskEvent.task.id !in old(state.taskWorkerDb) ==>
              BestChoice(pow, taskEvent.task, PolledBy(old(Model()), env.stats), choice)
      ensures choice.Some? ==> choice.value in old(state.workers) && choice.value in old(cluster.clients)
    {
      if taskEvent.targetState == Completed {
        hide IssueStart, Assign, BestChoice;
        err := DeliverStop(taskEvent, env.replyOk);
        target, choice := taskEvent, None;
      } else {
        hide IssueStop, IssueStart, Assign, BestChoice;
        target, err, choice := DeliverStart(taskEvent, env);
      }
    }

    method DeliverStop(taskEvent: TaskEvent, replyOk: bool) returns (err: bool)
      requires Valid()
      modifies cluster`sent
      ensures Valid()
      ensures var issued := IssueStop(old(Model()).(sender := Working(taskEvent)));
              Model() == issued.(sender := Idle) && err == (issued.sender.Failing? || !replyOk)
    {
      hide LogTells;
      var found, w := state.GetAssignedWorker(taskEvent.task.id);
      if !found {
        return true;
      }
      err := cluster.StopTask(w, taskEvent.task.id, replyOk);
    }

    method DeliverStart(taskEvent: TaskEvent, env: Surroundings)
      returns (target: TaskEvent, err: bool, ghost choice: Option<Uuid>)
      requires Valid()
      modifies state, state.taskDb, cluster
      ensures Valid() && fresh(state.taskDb.cells.Values - old(state.taskDb.cells.Values))
      ensures var issued :=
              IssueStart(old(Model()).(sender := Working(taskEvent)), choice, state.Durable(env.taskOk),
                         state.Durable(env.assignOk));
              Model() == issued.(sender := Idle) && err == (issued.sender.Failing? || !env.replyOk)
      ensures target == if Target(old(state.Model()), taskEvent.task.id, choice).Some?
                           && state.Durable(env.taskOk) && state.Durable(env.assignOk)
                        then taskEvent.(task := taskEvent.task.(state := Scheduled)) else taskEvent
      ensures taskEvent.task.id !in old(state.taskWorkerDb) ==>
              BestChoice(pow, taskEvent.task, PolledBy(old(Model()), env.stats), choice)
      ensures choice.Some? ==> choice.value in old(state.workers) && choice.value in old(cluster.clients)
    {
      hide IssueStart, BestChoice, LogTells, Polled;
      ghost var m := Model().(sender := Working(taskEvent));
      var assignedWorker;
      assignedWorker, choice := DetermineWorker(taskEvent.task, env.stats);
      IssueToTarget(m, choice, state.Durable(env.taskOk), state.Durable(env.assignOk));
      if assignedWorker.None? {
        return taskEvent, true, choice;
      }
      target, err := AssignAndSend(taskEvent, assignedWorker.value, env);
    }

    /** The worker is known: the task is assigned first and the stored copy is sent. */
    method AssignAndSend(taskEvent: TaskEvent, w: Uuid, env: Surroundings) returns (target: TaskEvent, err: bool)
      requires Valid() && (taskEvent.task.id in state.taskWorkerDb ==> state.taskWorkerDb[taskEvent.task.id] == w)
      modifies state, state.taskDb, cluster`sent
      ensures Valid() && fresh(state.taskDb.cells.Values - old(state.taskDb.cells.Values))
      ensures var issued :=
              IssueStart(old(Model()).(sender := Working(taskEvent)), Some(w), state.Durable(env.taskOk),
                         state.Durable(env.assignOk));
              Model() == issued.(sender := Idle) && err == (issued.sender.Failing? || !env.replyOk)
      ensures target == if state.Durable(env.taskOk) && state.Durable(env.assignOk)
                        then taskEvent.(task := taskEvent.task.(state := Scheduled)) else taskEvent
    {
      hide Assign, LogTells;
      var stored := state.AssignTaskToWorker(taskEvent.task, w, env.taskOk, env.assignOk);
      if stored == null {
        return taskEvent, true;
      }
      target := taskEvent.(task := stored.value);
      err := cluster.SendTask(w, target, env.replyOk);
    }

    /** One call as the loop sees it: `starving` when it took the empty-queue error. */
    method SendNext(env: Surroundings) returns (starving: bool)
      requires Valid()
      modifies this`pending, state, state.taskDb, state.taskDb.cells.Values, cluster
      ensures Valid() && fresh(state.taskDb.cells.Values - old(state.taskDb.cells.Values))
      ensures starving <==> old(pending) == []
      ensures old(pending) != [] ==> pending == old(pending)[1..]
    {
      ghost var before := Model();
      var target, err, o := SendWork(env);
      if before.pending != [] {
        SendWorkTakesHead(before, o);
      }
      hide ManagerModel.SendWork, SendFails;
      starving := target.None?;
    }

    /**
     * One round of the sending loop: the length of the queue is read once, then that many calls are made
     * while the API keeps adding events; `cancelAt` is the call before which the context is cancelled.
     * No call ever finds the queue empty.
     */
    method SendTasksRound(env: nat -> Surroundings, arriving: nat -> seq<TaskEvent>, cancelAt: nat)
      returns (done: nat, starved: bool)
      requires Valid()
      modifies this`pending, state, state.taskDb, state.taskDb.cells.Values, cluster
      ensures Valid() && !starved
      ensures done == if cancelAt < |old(pending)| then cancelAt else |old(pending)|
      ensures pending == old(pending)[done..] + Arrived(arriving, done)
    {
      var numOfTasksToSend := |pending|;
      done, starved := 0, false;
      while done < numOfTasksToSend
        invariant Valid() && !starved && done <= numOfTasksToSend && done <= cancelAt
        invariant numOfTasksToSend == |old(pending)|
        invariant pending == old(pending)[done..] + Arrived(arriving, done)
        invariant fresh(state.taskDb.cells.Values - old(state.taskDb.cells.Values))
      {
        if done == cancelAt {
          return;
        }
        pending := pending + arriving(done);
        ghost var queue := pending;
        var starving := SendNext(env(done));
        if starving {
          starved := true;
        }
        assert queue == (old(pending)[done..] + Arrived(arriving, done)) + arriving(done);
        assert queue[1..] == old(pending)[done + 1..] + (Arrived(arriving, done) + arriving(done));
        done := done + 1;
      }
    }
  }

  /** The events added during the first n calls of a round. */
  function Arrived(arriving: nat -> seq<TaskEvent>, n: nat): seq<TaskEvent> {
    if n == 0 then [] else Arrived(arriving, n - 1) + arriving(n - 1)
  }
}
