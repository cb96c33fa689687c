/** What holds in every reachable world and over every run of the system. */
module Guarantees {
  import opened Seqs
  import opened Tasks
  import opened StateModel
  import opened Schedulers
  import opened Cluster
  import opened ManagerModel
  import opened WorkerModel
  import opened System

  // ---------- one home, one start ----------

  /** An assignment never changes once it is made: not by resubmission, lost replies, or a restart. */
  lemma {:induction false} AssignmentsArePermanent(worlds: seq<World>, actions: seq<Action>, i: nat, j: nat)
    requires IsRun(worlds, actions) && i <= j < |worlds|
    ensures Extends(worlds[i].mgr.st.placement, worlds[j].mgr.st.placement)
  {
    hide Next, Inv, Enabled;
    if i < j {
      AssignmentsArePermanent(worlds, actions, i, j - 1);
      RunsKeepInv(worlds, actions, j - 1);
      StepKeepsInv(worlds[j - 1], actions[j - 1]);
      assert worlds[j] == Next(worlds[j - 1], actions[j - 1]);
      var p, q, r := worlds[i].mgr.st.placement, worlds[j - 1].mgr.st.placement, worlds[j].mgr.st.placement;
      forall id | id in p
        ensures Placed(r, id, p[id])
      {
        assert Placed(q, id, p[id]);
      }
    }
  }

  /** A task in a worker's queue or records is on the one worker it is assigned to. */
  lemma TasksStayHome(worlds: seq<World>, actions: seq<Action>, i: nat, w: Uuid, t: Task)
    requires IsRun(worlds, actions) && i < |worlds| && w in worlds[i].machines
    requires t in worlds[i].machines[w].queue || t.id in worlds[i].machines[w].db
    ensures Placed(worlds[i].mgr.st.placement, t.id, w)
  {
    RunsKeepInv(worlds, actions, i);
    assert MachineInv(worlds[i].mgr.st.placement, w, worlds[i].machines[w]);
  }

  /** Single start: across all workers, at most one container start is ever issued for a task. */
  lemma SingleStart(worlds: seq<World>, actions: seq<Action>, i: nat, v: Uuid, j: nat, w: Uuid, k: nat)
    requires IsRun(worlds, actions) && i < |worlds| && v in worlds[i].machines && w in worlds[i].machines
    requires j < |worlds[i].machines[v].calls| && k < |worlds[i].machines[w].calls|
    requires worlds[i].machines[v].calls[j].StartCall? && worlds[i].machines[w].calls[k].StartCall?
    requires worlds[i].machines[v].calls[j].id == worlds[i].machines[w].calls[k].id
    ensures v == w && j == k
  {
    RunsKeepInv(worlds, actions, i);
    var p := worlds[i].mgr.st.placement;
    CalledTaskIsHome(p, v, worlds[i].machines[v], j);
    CalledTaskIsHome(p, w, worlds[i].machines[w], k);
    SoundIsWellFormed(worlds[i].machines[v]);
    if j < k {
      OneStartPerTask(worlds[i].machines[v].calls, j, k);
    } else if k < j {
      OneStartPerTask(worlds[i].machines[v].calls, k, j);
    }
  }

  lemma CalledTaskIsHome(p: map<Uuid, Uuid>, w: Uuid, m: Machine, j: nat)
    requires MachineInv(p, w, m) && j < |m.calls|
    ensures Placed(p, m.calls[j].id, w)
  {
    var id := m.calls[j].id;
    assert RecordMatchesCalls(m, id);
    var a := FilterIndex(m.calls, (c: DockerCall) => c.id == id, j);
  }

  /** In every reachable world every worker's Docker calls are well-formed and number at most twice its records. */
  lemma DockerCallsInReach(worlds: seq<World>, actions: seq<Action>, i: nat, w: Uuid)
    requires IsRun(worlds, actions) && i < |worlds| && w in worlds[i].machines
    ensures WellFormedCalls(worlds[i].machines[w].calls)
    ensures |worlds[i].machines[w].calls| <= 2 * |worlds[i].machines[w].db|
  {
    RunsKeepInv(worlds, actions, i);
    assert MachineInv(worlds[i].mgr.st.placement, w, worlds[i].machines[w]);
    SoundIsWellFormed(worlds[i].machines[w]);
    AtMostTwoCallsPerRecord(worlds[i].machines[w]);
  }

  // ---------- the active counter ----------

  /** A report touches a finished task of w: it changes its stored state; or its lowering write is lost. */
  predicate ReportTouches(s: Storage, t: Task, ok: bool, w: Uuid) {
    && Placed(s.placement, t.id, w) && t.id in s.tasks && s.tasks[t.id].state != t.state
    && if IsTerminal(s.tasks[t.id].state) then ok || IsTerminal(t.state) else !ok && IsTerminal(t.state)
  }

  /** The step brings a finished task of w back, flips it between the terminal states, or loses a lowering write. */
  predicate Touches(s: World, a: Action, w: Uuid) {
    match a
    case GiveUp(ok) => s.mgr.sender.Failing? && ReportTouches(s.mgr.st, s.mgr.sender.original.(state := Failed), ok, w)
    case Apply(t, ok) => ReportTouches(s.mgr.st, t, ok, w)
    case IssueRequest(_, taskOk, _) =>
      && s.mgr.sender.Working? && !IsStop(s.mgr.sender.event) && taskOk
      && var id := s.mgr.sender.event.task.id;
         Placed(s.mgr.st.placement, id, w) && id in s.mgr.st.tasks && IsTerminal(s.mgr.st.tasks[id].state)
    case _ => false
  }

  /** How many steps touched a finished task of w since the manager last rebuilt its indexes. */
  function TouchesSince(worlds: seq<World>, actions: seq<Action>, i: nat, w: Uuid): nat
    requires i < |worlds| && i <= |actions|
  {
    if i == 0 || actions[i - 1].RestartManager? then 0
    else TouchesSince(worlds, actions, i - 1, w) + if Touches(worlds[i - 1], actions[i - 1], w) then 1 else 0
  }

  lemma ReportCountsTouch(s: Storage, moves: map<Uuid, int>, t: Task, ok: bool, w: Uuid)
    requires t.state != Pending && (t.id in s.tasks ==> s.tasks[t.id].state != Pending)
    ensures MovesOf(CountUpdate(moves, s, t, ok), w) == MovesOf(moves, w) + if ReportTouches(s, t, ok, w) then 1 else 0
  {
  }

  lemma IssueCountsTouch(s: World, choice: Option<Uuid>, taskOk: bool, assignOk: bool, w: Uuid)
    requires Inv(s) && Enabled(s, IssueRequest(choice, taskOk, assignOk))
    ensures MovesOf(MovesAfterIssue(s, choice, taskOk, assignOk), w) ==
            MovesOf(s.moves, w) + if Touches(s, IssueRequest(choice, taskOk, assignOk), w) then 1 else 0
  {
  }

  lemma StepCountsTouches(s: World, a: Action, w: Uuid)
    requires Inv(s) && Enabled(s, a) && !a.RestartManager?
    ensures MovesOf(Next(s, a).moves, w) == MovesOf(s.moves, w) + if Touches(s, a, w) then 1 else 0
  {
    hide Issue, Update, MarkFailed, Begin, Register, CountUpdate, MovesAfterIssue, ReportTouches;
    match a {
      case GiveUp(ok) => ReportCountsTouch(s.mgr.st, s.moves, s.mgr.sender.original.(state := Failed), ok, w);
      case Apply(t, ok) =>
        assert ReportInv(s.mgr.st.placement, t);
        ReportCountsTouch(s.mgr.st, s.moves, t, ok, w);
      case IssueRequest(choice, taskOk, assignOk) => IssueCountsTouch(s, choice, taskOk, assignOk, w);
      case _ =>
    }
  }

  lemma {:induction false} MovesAreTouches(worlds: seq<World>, actions: seq<Action>, i: nat, w: Uuid)
    requires IsRun(worlds, actions) && i < |worlds|
    ensures MovesOf(worlds[i].moves, w) == TouchesSince(worlds, actions, i, w)
  {
    if i > 0 && !actions[i - 1].RestartManager? {
      MovesAreTouches(worlds, actions, i - 1, w);
      RunsKeepInv(worlds, actions, i - 1);
      StepCountsTouches(worlds[i - 1], actions[i - 1], w);
    }
  }

  /**
   * The drift law: the true number of active tasks of w exceeds its counter by exactly the number of touches
   * since the last rebuild.  So the counter never counts too many, and is exact while there are none.
   */
  lemma CounterDriftLaw(worlds: seq<World>, actions: seq<Action>, i: nat, w: Uuid)
    requires IsRun(worlds, actions) && i < |worlds|
    ensures |ActiveIds(worlds[i].mgr.st, w)| == worlds[i].mgr.st.CountOf(w) + TouchesSince(worlds, actions, i, w)
    ensures worlds[i].mgr.st.CountOf(w) <= |ActiveIds(worlds[i].mgr.st, w)|
  {
    RunsKeepInv(worlds, actions, i);
    MovesAreTouches(worlds, actions, i, w);
    assert Drift(worlds[i].mgr.st, w) == MovesOf(worlds[i].moves, w);
  }

  // ---------- the indexes and restarts ----------

  /**
   * In every reachable world a rebuild would give the same workers, the same lists, and counters off by the
   * touches.
   */
  lemma IncrementalEqualsRebuild(worlds: seq<World>, actions: seq<Action>, i: nat, rebuilt: Storage)
    requires IsRun(worlds, actions) && i < |worlds|
    requires SameStores(worlds[i].mgr.st, rebuilt) && Rehydrated(rebuilt)
    ensures var s := worlds[i].mgr.st;
            && multiset(s.workers) == multiset(rebuilt.workers)
            && (forall w :: w in s.workers <==> w in s.names)
            && (forall w :: multiset(s.ListOf(w)) == multiset(rebuilt.ListOf(w)))
            && (forall w :: rebuilt.CountOf(w) == s.CountOf(w) + TouchesSince(worlds, actions, i, w))
  {
    var s := worlds[i].mgr.st;
    RunsKeepInv(worlds, actions, i);
    AgreeIsRebuild(s, rebuilt);
    forall w
      ensures w in s.workers <==> w in s.names
    {
      assert w in s.workers <==> w in s.names || HasTask(s, w);
    }
    forall w
      ensures rebuilt.CountOf(w) == s.CountOf(w) + TouchesSince(worlds, actions, i, w)
    {
      CounterDriftLaw(worlds, actions, i, w);
      assert rebuilt.CountOf(w) == s.CountOf(w) + Drift(s, w);
    }
  }

  /**
   * Crash consistency: wherever the manager stops, also between the two Puts of an assignment, every assigned
   * task has a record, so a rebuild succeeds and the restart is a step the system can take.
   */
  lemma RestartNeverFails(worlds: seq<World>, actions: seq<Action>, i: nat, midAssign: bool) returns (rebuilt: Storage)
    requires IsRun(worlds, actions) && i < |worlds|
    requires midAssign ==> worlds[i].mgr.sender.Working? && !IsStop(worlds[i].mgr.sender.event)
    ensures Loadable(Surviving(worlds[i].mgr, midAssign))
    ensures Enabled(worlds[i], RestartManager(midAssign, rebuilt))
  {
    RunsKeepInv(worlds, actions, i);
    rebuilt := RebuildExists(Surviving(worlds[i].mgr, midAssign));
  }

  // ---------- events ----------

  function SubmittedSince(actions: seq<Action>, i: nat): seq<TaskEvent>
    requires i <= |actions|
  {
    if i == 0 || actions[i - 1].RestartManager? then []
    else SubmittedSince(actions, i - 1) + if actions[i - 1].Submit? then [actions[i - 1].event] else []
  }

  /** The heads the sending loop took. */
  function TakenSince(worlds: seq<World>, actions: seq<Action>, i: nat): seq<TaskEvent>
    requires i < |worlds| && i <= |actions|
  {
    if i == 0 || actions[i - 1].RestartManager? then []
    else
      TakenSince(worlds, actions, i - 1)
      + if actions[i - 1].Take? && worlds[i - 1].mgr.pending != [] then [worlds[i - 1].mgr.pending[0]] else []
  }

  lemma StepRecordsEvents(s: World, a: Action)
    requires Enabled(s, a) && !a.RestartManager?
    ensures Next(s, a).accepted == s.accepted + if a.Submit? then [a.event] else []
    ensures Next(s, a).taken == s.taken + if a.Take? && s.mgr.pending != [] then [s.mgr.pending[0]] else []
  {
    hide Issue, Update, MarkFailed, Begin, Register, Reply, CountUpdate, MovesAfterIssue;
  }

  lemma {:induction false} HistoriesAreFaithful(worlds: seq<World>, actions: seq<Action>, i: nat)
    requires IsRun(worlds, actions) && i < |worlds|
    ensures worlds[i].accepted == SubmittedSince(actions, i) && worlds[i].taken == TakenSince(worlds, actions, i)
  {
    if i > 0 {
      HistoriesAreFaithful(worlds, actions, i - 1);
      if !actions[i - 1].RestartManager? {
        StepRecordsEvents(worlds[i - 1], actions[i - 1]);
        hide Next;
      }
    }
  }

  /** Event conservation: since the last restart, what was submitted is what was taken followed by what is pending. */
  lemma EventsAreConserved(worlds: seq<World>, actions: seq<Action>, i: nat)
    requires IsRun(worlds, actions) && i < |worlds|
    ensures SubmittedSince(actions, i) == TakenSince(worlds, actions, i) + worlds[i].mgr.pending
  {
    RunsKeepInv(worlds, actions, i);
    HistoriesAreFaithful(worlds, actions, i);
  }

  /** The sending loop never finds the queue empty. */
  lemma SenderNeverStarves(worlds: seq<World>, actions: seq<Action>, i: nat)
    requires IsRun(worlds, actions) && i < |actions| && actions[i].Take?
    ensures worlds[i].mgr.pending != []
  {
    RunsKeepInv(worlds, actions, i);
  }

  // ---------- synchronisation ----------

  /** A worker's answer to a poll: all its records, in some order. */
  ghost predicate ListsRecords(list: seq<Task>, db: map<Uuid, Task>) {
    && (forall i | 0 <= i < |list| :: list[i].id in db && db[list[i].id] == list[i])
    && (forall i, j | 0 <= i < j < |list| :: list[i].id != list[j].id)
    && (forall id | id in db :: db[id] in list)
  }

  ghost predicate ReadIn(s: World, lists: map<Uuid, seq<Task>>) {
    forall w | w in lists :: w in s.machines && ListsRecords(lists[w], s.machines[w].db)
  }

  /** Each list was read at a moment of its own, none after the world at i. */
  ghost predicate ReadBy(worlds: seq<World>, i: nat, lists: map<Uuid, seq<Task>>, readAt: Uuid -> nat)
    requires i < |worlds|
  {
    forall w | w in lists ::
      && readAt(w) <= i && w in worlds[readAt(w)].machines
      && ListsRecords(lists[w], worlds[readAt(w)].machines[w].db)
  }

  /** The workers known and connected when the synchronisation began, as far as they answered. */
  predicate Reached(s: World, lists: map<Uuid, seq<Task>>, w: Uuid) {
    w in s.mgr.st.workers && w in s.mgr.clients && w in lists
  }

  lemma {:induction false} ReportedMember(workers: seq<Uuid>, clients: set<Uuid>, lists: map<Uuid, seq<Task>>, t: Task)
    ensures t in Reported(workers, clients, lists) <==>
            exists w :: w in workers && w in clients && w in lists && t in lists[w]
  {
    if workers != [] {
      var front, last := workers[..|workers| - 1], workers[|workers| - 1];
      assert workers == front + [last];
      ReportedMember(front, clients, lists, t);
    }
  }

  /** Every task in a list is assigned to the worker the list is from, and is listed once. */
  ghost predicate HomeLists(placement: map<Uuid, Uuid>, lists: map<Uuid, seq<Task>>) {
    forall w | w in lists ::
      DistinctIds(lists[w]) && forall k | 0 <= k < |lists[w]| :: Placed(placement, lists[w][k].id, w)
  }

  /** Whenever the lists were read, single placement holds of them now. */
  lemma ReadingsAreHome(worlds: seq<World>, actions: seq<Action>, i: nat, lists: map<Uuid, seq<Task>>,
      readAt: Uuid -> nat)
    requires IsRun(worlds, actions) && i < |worlds| && ReadBy(worlds, i, lists, readAt)
    ensures HomeLists(worlds[i].mgr.st.placement, lists)
  {
    forall w, k | w in lists && 0 <= k < |lists[w]|
      ensures Placed(worlds[i].mgr.st.placement, lists[w][k].id, w)
    {
      var j := readAt(w);
      TasksStayHome(worlds, actions, j, w, lists[w][k]);
      AssignmentsArePermanent(worlds, actions, j, i);
    }
  }

  lemma ReportIsHome(placement: map<Uuid, Uuid>, clients: set<Uuid>, lists: map<Uuid, seq<Task>>, workers: seq<Uuid>,
      t: Task)
    returns (w: Uuid)
    requires HomeLists(placement, lists) && t in Reported(workers, clients, lists)
    ensures w in workers && w in clients && w in lists && t in lists[w] && Placed(placement, t.id, w)
  {
    ReportedMember(workers, clients, lists, t);
    w :| w in workers && w in clients && w in lists && t in lists[w];
    var k :| 0 <= k < |lists[w]| && lists[w][k] == t;
  }

  /** Single placement makes the ids of one synchronisation distinct. */
  lemma {:induction false} ReportsAreDistinct(placement: map<Uuid, Uuid>, clients: set<Uuid>,
      lists: map<Uuid, seq<Task>>, workers: seq<Uuid>)
    requires HomeLists(placement, lists) && NoDup(workers)
    ensures DistinctIds(Reported(workers, clients, lists))
  {
    if workers != [] {
      var front, last := workers[..|workers| - 1], workers[|workers| - 1];
      ReportsAreDistinct(placement, clients, lists, front);
      var before := Reported(front, clients, lists);
      if last in clients && last in lists {
        forall i, j | 0 <= i < |before| && 0 <= j < |lists[last]|
          ensures before[i].id != lists[last][j].id
        {
          var w := ReportIsHome(placement, clients, lists, front, before[i]);
          assert Placed(placement, lists[last][j].id, last);
        }
      }
    }
  }

  lemma ReportsAreKnown(s: Storage, clients: set<Uuid>, lists: map<Uuid, seq<Task>>, workers: seq<Uuid>)
    requires Loadable(s) && HomeLists(s.placement, lists)
    ensures AllKnown(s, Reported(workers, clients, lists))
  {
    var reports := Reported(workers, clients, lists);
    forall i | 0 <= i < |reports|
      ensures reports[i].id in s.tasks && reports[i].id in s.placement
    {
      var w := ReportIsHome(s.placement, clients, lists, workers, reports[i]);
    }
  }

  /**
   * Sync agreement and frame: over every run a synchronisation that began in the world at h and read each list
   * at a moment of its own leaves the manager's records in agreement with what was read and changes no other
   * task; any order of arrival gives the same storage, and a repetition changes nothing.
   */
  lemma SyncInReach(worlds: seq<World>, actions: seq<Action>, h: nat, i: nat, lists: map<Uuid, seq<Task>>,
      readAt: Uuid -> nat, arrival: seq<Task>)
    requires IsRun(worlds, actions) && h <= i < |worlds| && ReadBy(worlds, i, lists, readAt)
    requires multiset(arrival) == multiset(Reported(worlds[h].mgr.st.workers, worlds[h].mgr.clients, lists))
    ensures var s := worlds[i].mgr.st;
            var after := ApplyAll(s, arrival, _ => true);
            && (forall w, id | Reached(worlds[h], lists, w) && id in worlds[readAt(w)].machines[w].db ::
                  id in after.tasks && AgreesWith(after.tasks[id], worlds[readAt(w)].machines[w].db[id]))
            && (forall id | id in s.tasks :: id in after.tasks && SameIdentity(s.tasks[id], after.tasks[id]))
            && (forall id, w | id in s.tasks && Placed(s.placement, id, w) && !Reached(worlds[h], lists, w) ::
                  id in after.tasks && after.tasks[id] == s.tasks[id])
            && ApplyAll(after, arrival, _ => true) == after
            && after == ApplyAll(s, Reported(worlds[h].mgr.st.workers, worlds[h].mgr.clients, lists), _ => true)
  {
    var s, workers, clients := worlds[i].mgr.st, worlds[h].mgr.st.workers, worlds[h].mgr.clients;
    var reports := Reported(workers, clients, lists);
    ReadingsAreHome(worlds, actions, i, lists, readAt);
    SyncOfHomeLists(worlds, actions, h, i, lists, arrival);
    var after := ApplyAll(s, arrival, _ => true);
    hide ApplyAll, IsRun, Synced, HomeLists, ListsRecords;
    SyncedIdentity(s, after, reports);
    forall w, id | Reached(worlds[h], lists, w) && id in worlds[readAt(w)].machines[w].db
      ensures id in after.tasks && AgreesWith(after.tasks[id], worlds[readAt(w)].machines[w].db[id])
    {
      var k := RecordIsListed(worlds, actions, readAt(w), w, lists[w], id);
      ListedAgrees(s, after, workers, clients, lists, w, k);
    }
    forall id, w | id in s.tasks && Placed(s.placement, id, w) && !Reached(worlds[h], lists, w)
      ensures id in after.tasks && after.tasks[id] == s.tasks[id]
    {
      UnreachedStays(s, after, workers, clients, lists, w, id);
    }
  }

  lemma SyncedIdentity(s: Storage, after: Storage, reports: seq<Task>)
    requires Synced(s, after, reports)
    ensures forall id | id in s.tasks :: id in after.tasks && SameIdentity(s.tasks[id], after.tasks[id])
  {
    hide SameIdentity;
  }

  lemma ListedAgrees(s: Storage, after: Storage, workers: seq<Uuid>, clients: set<Uuid>, lists: map<Uuid, seq<Task>>,
      w: Uuid, k: nat)
    requires Synced(s, after, Reported(workers, clients, lists))
    requires w in workers && w in clients && w in lists && k < |lists[w]|
    ensures lists[w][k].id in after.tasks && AgreesWith(after.tasks[lists[w][k].id], lists[w][k])
  {
    hide AgreesWith, SameIdentity;
    var reports := Reported(workers, clients, lists);
    ReportedMember(workers, clients, lists, lists[w][k]);
    assert lists[w][k] in reports;
    var j :| 0 <= j < |reports| && reports[j] == lists[w][k];
  }

  lemma UnreachedStays(s: Storage, after: Storage, workers: seq<Uuid>, clients: set<Uuid>,
      lists: map<Uuid, seq<Task>>, w: Uuid, id: Uuid)
    requires Synced(s, after, Reported(workers, clients, lists)) && HomeLists(s.placement, lists)
    requires id in s.tasks && Placed(s.placement, id, w) && !(w in workers && w in clients && w in lists)
    ensures id in after.tasks && after.tasks[id] == s.tasks[id]
  {
    hide AgreesWith, SameIdentity;
    var reports := Reported(workers, clients, lists);
    forall k | 0 <= k < |reports|
      ensures reports[k].id != id
    {
      var v := ReportIsHome(s.placement, clients, lists, workers, reports[k]);
    }
  }

  lemma SyncOfHomeLists(worlds: seq<World>, actions: seq<Action>, h: nat, i: nat, lists: map<Uuid, seq<Task>>,
      arrival: seq<Task>)
    requires IsRun(worlds, actions) && h <= i < |worlds| && HomeLists(worlds[i].mgr.st.placement, lists)
    requires multiset(arrival) == multiset(Reported(worlds[h].mgr.st.workers, worlds[h].mgr.clients, lists))
    ensures var s, reports := worlds[i].mgr.st, Reported(worlds[h].mgr.st.workers, worlds[h].mgr.clients, lists);
            var after := ApplyAll(s, arrival, _ => true);
            && Synced(s, after, reports) && after == ApplyAll(s, reports, _ => true)
            && ApplyAll(after, arrival, _ => true) == after
  {
    var s, workers, clients := worlds[i].mgr.st, worlds[h].mgr.st.workers, worlds[h].mgr.clients;
    var reports := Reported(workers, clients, lists);
    RunsKeepInv(worlds, actions, h);
    RunsKeepInv(worlds, actions, i);
    ReportsAreDistinct(s.placement, clients, lists, workers);
    ReportsAreKnown(s, clients, lists, workers);
    hide Inv, ApplyAll, IsRun, Synced, HomeLists;
    SyncAgrees(s, reports);
    SyncIsConfluent(s, reports, arrival, _ => true);
    SyncIsIdempotent(s, reports, arrival);
  }

  lemma RecordIsListed(worlds: seq<World>, actions: seq<Action>, j: nat, w: Uuid, list: seq<Task>, id: Uuid)
    returns (k: nat)
    requires IsRun(worlds, actions) && j < |worlds| && w in worlds[j].machines
    requires ListsRecords(list, worlds[j].machines[w].db) && id in worlds[j].machines[w].db
    ensures k < |list| && list[k] == worlds[j].machines[w].db[id] && list[k].id == id
  {
    RunsKeepInv(worlds, actions, j);
    assert MachineInv(worlds[j].mgr.st.placement, w, worlds[j].machines[w]);
    assert worlds[j].machines[w].db[id] in list;
    k :| 0 <= k < |list| && list[k] == worlds[j].machines[w].db[id];
  }

  /** No step of any run applies a report that UpdateTask refuses, however late the report. */
  lemma NoReportIsRefused(worlds: seq<World>, actions: seq<Action>, i: nat)
    requires IsRun(worlds, actions) && i < |actions| && actions[i].Apply?
    ensures Updatable(worlds[i].mgr.st, actions[i].report)
  {
    RunsKeepInv(worlds, actions, i);
    assert ReportInv(worlds[i].mgr.st.placement, actions[i].report);
  }

  // ---------- where a first start goes ----------

  /** In every reachable world the ids of a poll are distinct, whoever answers. */
  lemma PollsAreDistinct(worlds: seq<World>, actions: seq<Action>, i: nat, stats: map<Uuid, Stats>)
    requires IsRun(worlds, actions) && i < |worlds|
    ensures DistinctNodes(PolledBy(worlds[i].mgr, stats))
  {
    RunsKeepInv(worlds, actions, i);
    PolledDistinct(worlds[i].mgr.st, worlds[i].mgr.st.workers, worlds[i].mgr.clients, stats);
  }

  /**
   * In every reachable world a first start that succeeds is assigned to a worker that is registered, connected and
   * answered the poll, has room for it on its disk, and is not undercut in growth of cost by any other such worker.
   */
  lemma FirstStartGoesToCheapest(worlds: seq<World>, actions: seq<Action>, i: nat, pow: real -> real, o: Outcomes,
      stats: map<Uuid, Stats>)
    returns (w: Uuid)
    requires IsRun(worlds, actions) && i < |worlds| && worlds[i].mgr.sender.Idle?
    requires var m := worlds[i].mgr;
             && ChoosesBest(pow, m, o, stats) && !SendFails(m, o)
             && !IsStop(m.pending[0]) && m.pending[0].task.id !in m.st.placement
    ensures var m, t := worlds[i].mgr, worlds[i].mgr.pending[0].task;
            && Placed(SendWork(m, o).st.placement, t.id, w)
            && Answering(m.st.workers, m.clients, stats, w) && Fits(t, stats[w])
            && forall v | Answering(m.st.workers, m.clients, stats, v) && Fits(t, stats[v]) ::
                 Growth(pow, t, stats[w]) <= Growth(pow, t, stats[v])
  {
    var m, t := worlds[i].mgr, worlds[i].mgr.pending[0].task;
    assert NoDup(m.st.workers) by {
      RunsKeepInv(worlds, actions, i);
    }
    hide IsRun, Fits, Growth, Assign, Polled, BestChoice, NoDup, Answering;
    SuccessfulStart(m, o);
    SendWorkStorage(m, o);
    assert o.logOk && o.choice.Some?;
    w := o.choice.value;
    ChoiceOverAnswers(pow, t, m.st, m.clients, stats, o.choice);
  }

  /** And a first start fails for want of a worker exactly when none that answered has room for it. */
  lemma NoChoiceMeansNoRoom(worlds: seq<World>, actions: seq<Action>, i: nat, pow: real -> real, o: Outcomes,
      stats: map<Uuid, Stats>)
    requires IsRun(worlds, actions) && i < |worlds| && worlds[i].mgr.pending != [] && o.logOk
    requires var m := worlds[i].mgr;
             ChoosesBest(pow, m, o, stats) && !IsStop(m.pending[0]) && m.pending[0].task.id !in m.st.placement
    ensures var m, t := worlds[i].mgr, worlds[i].mgr.pending[0].task;
            o.choice.None? <==> forall v | Answering(m.st.workers, m.clients, stats, v) :: !Fits(t, stats[v])
  {
    var m := worlds[i].mgr;
    RunsKeepInv(worlds, actions, i);
    ChoiceOverAnswers(pow, m.pending[0].task, m.st, m.clients, stats, o.choice);
  }

  // ---------- a SendWork call is a sequence of steps ----------

  ghost predicate Leads(s: World, actions: seq<Action>, r: World)
    decreases |actions|
  {
    if actions == [] then s == r
    else Enabled(s, actions[0]) && Leads(Next(s, actions[0]), actions[1..], r)
  }

  lemma {:induction false} LeadsOn(s: World, actions: seq<Action>, m: World, a: Action)
    requires Leads(s, actions, m) && Enabled(m, a)
    ensures Leads(s, actions + [a], Next(m, a))
    decreases |actions|
  {
    hide Enabled, Next;
    if actions == [] {
      assert ([a])[1..] == [];
      assert actions + [a] == [a];
    } else {
      assert (actions + [a])[0] == actions[0] && (actions + [a])[1..] == actions[1..] + [a];
      LeadsOn(Next(s, actions[0]), actions[1..], m, a);
    }
  }

  /** Two stretches of steps make one. */
  lemma {:induction false} LeadsJoin(s: World, a: seq<Action>, m: World, b: seq<Action>, r: World)
    requires Leads(s, a, m) && Leads(m, b, r)
    ensures Leads(s, a + b, r)
    decreases |a|
  {
    hide Enabled, Next;
    if a == [] {
      assert a + b == b;
    } else {
      assert (a + b)[0] == a[0] && (a + b)[1..] == a[1..] + b;
      LeadsJoin(Next(s, a[0]), a[1..], m, b, r);
    }
  }

  /** A stretch of steps from an initial world is a run. */
  lemma LeadsIsRun(s: World, actions: seq<Action>, r: World) returns (worlds: seq<World>)
    requires Init(s) && Leads(s, actions, r)
    ensures IsRun(worlds, actions) && worlds[0] == s && worlds[|actions|] == r
  {
    worlds := WorldsAlong(s, actions, r);
  }

  lemma {:induction false} WorldsAlong(s: World, actions: seq<Action>, r: World) returns (worlds: seq<World>)
    requires Leads(s, actions, r)
    ensures |worlds| == |actions| + 1 && worlds[0] == s && worlds[|actions|] == r
    ensures forall i | 0 <= i < |actions| ::
            Enabled(worlds[i], actions[i]) && worlds[i + 1] == Next(worlds[i], actions[i])
    decreases |actions|
  {
    hide Enabled, Next;
    if actions == [] {
      worlds := [s];
    } else {
      var rest := WorldsAlong(Next(s, actions[0]), actions[1..], r);
      worlds := [s] + rest;
      forall i | 0 <= i < |actions|
        ensures Enabled(worlds[i], actions[i]) && worlds[i + 1] == Next(worlds[i], actions[i])
      {
        if i > 0 {
          assert worlds[i] == rest[i - 1] && actions[i] == actions[1..][i - 1];
        }
      }
    }
  }

  /** What a sending step does to the manager; it leaves workers and reports alone. */
  lemma SenderStep(s: World, a: Action)
    requires Enabled(s, a) && (a.IssueRequest? || a.ReceiveReply? || a.GiveUp?)
    ensures Next(s, a).mgr == match a
                              case IssueRequest(choice, taskOk, assignOk) => Issue(s.mgr, choice, taskOk, assignOk)
                              case ReceiveReply(ok) => Reply(s.mgr, ok)
                              case GiveUp(ok) => MarkFailed(s.mgr, ok)
                              case _ => s.mgr
    ensures Next(s, a).machines == s.machines && Next(s, a).reports == s.reports && Next(s, a).left == s.left
  {
    hide Issue, MarkFailed, CountUpdate, MovesAfterIssue;
  }

  lemma TakeStep(s: World, logOk: bool)
    requires s.mgr.sender.Idle? && s.left > 0 && s.mgr.pending != []
    ensures Enabled(s, Take(logOk)) && Leads(s, [Take(logOk)], Next(s, Take(logOk)))
    ensures var r := Next(s, Take(logOk));
            r.mgr == Begin(s.mgr, logOk) && r.machines == s.machines && r.reports == s.reports && r.left == s.left - 1
  {
    hide Begin;
    assert [Take(logOk)][1..] == [];
  }

  /** An uninterrupted SendWork call, as the manager object makes it, is one of the system's interleavings. */
  lemma SendWorkIsSteps(s: World, o: Outcomes) returns (actions: seq<Action>, r: World)
    requires s.mgr.sender.Idle? && s.left > 0 && s.mgr.pending != []
    requires o.choice.Some? ==> o.choice.value in s.mgr.st.workers && o.choice.value in s.mgr.clients
    ensures Leads(s, actions, r) && r.mgr == SendWork(s.mgr, o)
    ensures r.machines == s.machines && r.reports == s.reports && r.left == s.left - 1
  {
    hide Issue, Update, Next, Leads;
    TakeStep(s, o.logOk);
    r := Next(s, Take(o.logOk));
    actions := [Take(o.logOk)];
    if r.mgr.sender.Working? {
      IssueSettles(r.mgr, o.choice, o.taskOk, o.assignOk);
      actions, r := Step(s, actions, r, IssueRequest(o.choice, o.taskOk, o.assignOk));
    }
    if r.mgr.sender.Awaiting? {
      actions, r := Step(s, actions, r, ReceiveReply(o.replyOk));
    }
    assert r.mgr == Attempt(s.mgr, o);
    if r.mgr.sender.Failing? {
      actions, r := Step(s, actions, r, GiveUp(o.markOk));
    }
  }

  lemma Step(s: World, actions: seq<Action>, m: World, a: Action) returns (more: seq<Action>, r: World)
    requires Leads(s, actions, m) && Enabled(m, a) && (a.IssueRequest? || a.ReceiveReply? || a.GiveUp?)
    ensures more == actions + [a] && r == Next(m, a) && Leads(s, more, r)
    ensures r.mgr == match a
                     case IssueRequest(choice, taskOk, assignOk) => Issue(m.mgr, choice, taskOk, assignOk)
                     case ReceiveReply(ok) => Reply(m.mgr, ok)
                     case GiveUp(ok) => MarkFailed(m.mgr, ok)
                     case _ => m.mgr
    ensures r.machines == m.machines && r.reports == m.reports && r.left == m.left
  {
    hide Next, Issue, MarkFailed, Leads;
    LeadsOn(s, actions, m, a);
    SenderStep(m, a);
    more, r := actions + [a], Next(m, a);
  }

  // ---------- a synchronisation is a sequence of steps ----------

  /** The workers that answer are fetched one by one. */
  lemma {:induction false} FetchReached(s: World, lists: map<Uuid, seq<Task>>, workers: seq<Uuid>)
    returns (actions: seq<Action>, r: World)
    requires ReadIn(s, lists)
    ensures Leads(s, actions, r) && r == s.(reports := r.reports)
    ensures forall t | t in Reported(workers, s.mgr.clients, lists) :: t in r.reports
  {
    actions, r := [], s;
    if workers != [] {
      var front, last := workers[..|workers| - 1], workers[|workers| - 1];
      actions, r := FetchReached(s, lists, front);
      if last in s.mgr.clients && last in lists {
        var before := r.reports;
        assert ListsRecords(lists[last], s.machines[last].db);
        LeadsOn(s, actions, r, Fetch(last));
        actions, r := actions + [Fetch(last)], Next(r, Fetch(last));
        assert r.reports == before + s.machines[last].db.Values;
      }
    }
  }

  /** Fetched records are applied one by one. */
  lemma {:induction false} ApplyEach(s: World, arrival: seq<Task>, ok: Uuid -> bool)
    returns (actions: seq<Action>, r: World)
    requires forall t | t in arrival :: t in s.reports
    ensures Leads(s, actions, r) && r == s.(mgr := r.mgr, moves := r.moves)
    ensures r.mgr == s.mgr.(st := ApplyAll(s.mgr.st, arrival, ok))
    decreases |arrival|
  {
    hide Update, CountUpdate;
    actions, r := [], s;
    if arrival != [] {
      var a := Apply(arrival[0], ok(arrival[0].id));
      var m := Next(s, a);
      actions, r := ApplyEach(m, arrival[1..], ok);
      assert ([a] + actions)[1..] == actions;
      actions := [a] + actions;
    }
  }

  /** A SyncTasks call, as the cluster object makes it, is one of the system's interleavings. */
  lemma SyncIsSteps(s: World, lists: map<Uuid, seq<Task>>, arrival: seq<Task>, ok: Uuid -> bool)
    returns (actions: seq<Action>, r: World)
    requires ReadIn(s, lists)
    requires multiset(arrival) == multiset(Reported(s.mgr.st.workers, s.mgr.clients, lists))
    ensures Leads(s, actions, r) && r == s.(mgr := r.mgr, moves := r.moves, reports := r.reports)
    ensures r.mgr == s.mgr.(st := ApplyAll(s.mgr.st, arrival, ok))
  {
    hide Leads, ApplyAll;
    var fetches, m := FetchReached(s, lists, s.mgr.st.workers);
    forall t | t in arrival
      ensures t in m.reports
    {
      SameMultisetMember(arrival, Reported(s.mgr.st.workers, s.mgr.clients, lists), t);
    }
    var applies;
    applies, r := ApplyEach(m, arrival, ok);
    LeadsJoin(s, fetches, m, applies, r);
    actions := fetches + applies;
  }

  // ---------- the other operations are steps ----------

  /** An event can be added at any time, and a worker can join, or fail to, at any time. */
  lemma ManagerCallsAreSteps(s: World, ev: TaskEvent, w: Uuid, name: string, ok: bool)
    returns (actions: seq<Action>, r: World)
    requires w in s.machines
    ensures Enabled(s, Submit(ev)) && Next(s, Submit(ev)).mgr == s.mgr.(pending := s.mgr.pending + [ev])
    ensures Leads(s, actions, r) && r == s.(mgr := r.mgr)
    ensures r.mgr == s.mgr.(st := Register(s.mgr.st, w, name, ok), clients := s.mgr.clients + if ok then {w} else {})
  {
    var register := RegisterWorker(w, name, ok);
    r := Next(s, register);
    actions := [register];
    assert [register][1..] == [];
    if ok {
      LeadsOn(s, actions, r, Connect(w));
      actions, r := actions + [Connect(w)], Next(r, Connect(w));
    } else {
      assert s.mgr.clients + {} == s.mgr.clients;
    }
  }

  /** What a worker can do on its own it can do in the system, whatever else is going on. */
  lemma WorkerActsAreSteps(s: World, w: Uuid, a: Act, persistent: bool) returns (step: Action)
    requires w in s.machines && (a.Run? || a.Check? || a.Restarted?) && !LosesRecord(s.machines[w], a)
    ensures Enabled(s, step) && Next(s, step) == s.(machines := s.machines[w := Do(s.machines[w], a, persistent)])
  {
    hide RunHead, HealthCheck, LosesRecord;
    step := match a
      case Run(now, docker, puts) => RunTask(w, now, docker, puts)
      case Check(inspect, durable) => CheckHealth(w, inspect, persistent, durable)
      case _ => RestartWorker(w);
  }

  /** Any request sent can reach its worker at any later time, also a second time. */
  lemma DeliveriesAreSteps(s: World, q: Request)
    requires q in s.mgr.sent && q.worker in s.machines
    ensures Enabled(s, Deliver(q))
    ensures Next(s, Deliver(q)).machines[q.worker] ==
            match q
            case StartRequest(w, ev) => Do(s.machines[w], Body(ev.task), true)
            case StopRequest(w, id) => Do(s.machines[w], StopRequested(id), true)
    ensures Next(s, Deliver(q)).mgr == s.mgr
  {
  }
}
