/**
 * Tasks, task events and the table of state transitions (internal/task/task.go).
 * Identifiers are opaque; cpu is a real; ports are kept as plain values.
 */
module Tasks {

  type Uuid(==, !new, 0)
  type Time = int
  type PortSet = set<string>
  type PortMap = map<string, seq<string>>

  datatype Option<T> = None | Some(value: T)

  function Lookup<V>(db: map<Uuid, V>, id: Uuid): Option<V> {
    if id in db then Some(db[id]) else None
  }

  datatype State = Pending | Scheduled | Running | Completed | Failed

  /** The adjacency list of the state machine. */
  const TRANSITIONS: map<State, seq<State>> := map[
    Pending := [Scheduled],
    Scheduled := [Scheduled, Running, Failed],
    Running := [Running, Completed, Failed],
    Completed := [],
    Failed := []
  ]

  predicate ValidStateTransition(src: State, dest: State) {
    src in TRANSITIONS && dest in TRANSITIONS[src]
  }

  predicate IsActive(s: State) {
    s == Scheduled || s == Running
  }

  predicate IsTerminal(s: State) {
    s == Completed || s == Failed
  }

  datatype Task = Task(
    id: Uuid,
    name: string,
    state: State,
    image: string,
    cpu: real,
    memory: int,
    disk: int,
    exposedPorts: PortSet,
    portBindings: PortMap,
    restartPolicy: string,
    startTime: Time,
    finishTime: Time,
    containerId: string)

  datatype TaskEvent = TaskEvent(id: Uuid, targetState: State, timestamp: Time, task: Task)

  /** How far along its life a task is; the two terminal states share the last rank. */
  function Rank(s: State): nat {
    match s
    case Pending => 0
    case Scheduled => 1
    case Running => 2
    case Completed => 3
    case Failed => 3
  }

  /** The edges of the state diagram in the architecture document. */
  predicate DocumentedEdge(src: State, dest: State) {
    (src, dest) in {(Pending, Scheduled), (Scheduled, Running), (Scheduled, Failed), (Running, Completed),
                    (Running, Failed)}
  }

  /** The code's table is the documented diagram plus the two self-loops the diagram leaves out. */
  lemma TransitionsAreTheDiagramWithTwoLoops(src: State, dest: State)
    ensures ValidStateTransition(src, dest) <==>
            DocumentedEdge(src, dest) || (src == dest && IsActive(src))
    ensures ValidStateTransition(src, dest) ==> !IsTerminal(src) && (src == dest || Rank(src) < Rank(dest))
  {
    match src
    case Pending => assert TRANSITIONS[Pending] == [Scheduled];
    case Scheduled => assert TRANSITIONS[Scheduled] == [Scheduled, Running, Failed];
    case Running => assert TRANSITIONS[Running] == [Running, Completed, Failed];
    case Completed => assert TRANSITIONS[Completed] == [];
    case Failed => assert TRANSITIONS[Failed] == [];
  }

  /** A history of one task in which every step is a valid transition. */
  ghost predicate LegalHistory(h: seq<State>) {
    forall i | 0 <= i < |h| - 1 :: ValidStateTransition(h[i], h[i + 1])
  }

  function Changes(h: seq<State>): nat {
    if |h| < 2 then 0 else (if h[0] == h[1] then 0 else 1) + Changes(h[1..])
  }

  /** Along any legal history a task changes state at most three times, and nothing follows a terminal state. */
  lemma {:induction false} HistoriesAreShort(h: seq<State>)
    requires h != [] && LegalHistory(h)
    ensures Changes(h) <= Rank(h[|h| - 1]) - Rank(h[0])
    ensures Changes(h) <= 3
    ensures forall i | 0 <= i < |h| - 1 :: !IsTerminal(h[i])
  {
    if |h| > 1 {
      TransitionsAreTheDiagramWithTwoLoops(h[0], h[1]);
      assert LegalHistory(h[1..]) by {
        forall i | 0 <= i < |h[1..]| - 1
          ensures ValidStateTransition(h[1..][i], h[1..][i + 1])
        {
          assert ValidStateTransition(h[i + 1], h[i + 2]);
        }
      }
      HistoriesAreShort(h[1..]);
      forall i | 0 <= i < |h| - 1
        ensures !IsTerminal(h[i])
      {
        if i > 0 {
          assert h[1..][i - 1] == h[i];
        }
      }
    }
  }
}
