/**
 * The two schedulers (internal/scheduler) over the node statistics the manager polls (internal/node).
 * Floats are reals; `pow(x)` stands for math.Pow(LIEB, x).
 */
module Schedulers {
  import opened Seqs
  import opened Tasks

  type Positive = n: int | 0 < n witness 1

  datatype Node = Node(
    name: string,
    workerUuid: Uuid,
    cores: Positive,
    cpuAverageLoad: real,
    memory: Positive,
    memoryAllocatedPercent: real,
    disk: int,
    diskAllocatedPercent: real,
    taskCount: int)

  const LIEB: real := 1.53960071783900203869

  ghost predicate DistinctNodes(nodes: seq<Node>) {
    forall i, j | 0 <= i < j < |nodes| :: nodes[i].workerUuid != nodes[j].workerUuid
  }

  // ---------- E-PVM: candidates ----------

  /** Conversion of a float to an integer: towards zero. */
  function Truncate(x: real): int {
    if x >= 0.0 then x.Floor else -((-x).Floor)
  }

  function DiskAvailable(n: Node): real {
    (1.0 - 0.01 * n.diskAllocatedPercent) * n.disk as real
  }

  predicate HasDisk(t: Task, n: Node) {
    t.disk <= Truncate(DiskAvailable(n))
  }

  /** The comparison as the decision record has it: of reals. */
  predicate DocumentedHasDisk(t: Task, n: Node) {
    t.disk as real <= DiskAvailable(n)
  }

  /**
   * The filter lets through what the document does, and beyond that exactly a requirement just above a
   * negative amount.
   */
  lemma FilterAgainstDocument(t: Task, n: Node)
    ensures DocumentedHasDisk(t, n) ==> HasDisk(t, n)
    ensures HasDisk(t, n) && !DocumentedHasDisk(t, n) <==>
            DiskAvailable(n) < 0.0 && DiskAvailable(n) < t.disk as real < DiskAvailable(n) + 1.0
  {
    var a := DiskAvailable(n);
    if a >= 0.0 {
      assert t.disk <= a.Floor <==> t.disk as real <= a;
    } else {
      var f := (-a).Floor;
      assert f as real <= -a < f as real + 1.0;
    }
  }

  /** For a given node the two agree on every task exactly when its available disk is not negative or is whole. */
  lemma FilterIsDocumentedOnNode(n: Node, any: Task)
    ensures (forall t: Task :: HasDisk(t, n) <==> DocumentedHasDisk(t, n)) <==>
            DiskAvailable(n) >= 0.0 || Truncate(DiskAvailable(n)) as real == DiskAvailable(n)
  {
    var a := DiskAvailable(n);
    forall t: Task
      ensures DocumentedHasDisk(t, n) ==> HasDisk(t, n)
      ensures HasDisk(t, n) && !DocumentedHasDisk(t, n) <==> a < 0.0 && a < t.disk as real < a + 1.0
    {
      FilterAgainstDocument(t, n);
    }
    if a < 0.0 && Truncate(a) as real != a {
      var between := any.(disk := Truncate(a));
      assert a < between.disk as real < a + 1.0;
      assert HasDisk(between, n) && !DocumentedHasDisk(between, n);
    }
  }

  /** A percentage of at most one hundred is safe; half a percent more is not. */
  lemma OverfullDiskIsAccepted(t: Task, n: Node)
    ensures n.disk >= 0 && n.diskAllocatedPercent <= 100.0 ==> (HasDisk(t, n) <==> DocumentedHasDisk(t, n))
    ensures var overfull := n.(disk := 100, diskAllocatedPercent := 100.5);
            t.disk == 0 ==> HasDisk(t, overfull) && !DocumentedHasDisk(t, overfull)
  {
    var overfull := n.(disk := 100, diskAllocatedPercent := 100.5);
    assert DiskAvailable(overfull) == -0.5;
    FilterAgainstDocument(t, overfull);
    FilterAgainstDocument(t, n);
    if n.disk >= 0 && n.diskAllocatedPercent <= 100.0 {
      NonNegativeProduct(1.0 - 0.01 * n.diskAllocatedPercent, n.disk as real);
    }
  }

  lemma NonNegativeProduct(p: real, q: real)
    requires p >= 0.0 && q >= 0.0
    ensures p * q >= 0.0
  {
  }

  /** For a whole percentage the filter is a comparison of whole numbers. */
  lemma FilterByPercent(t: Task, n: Node, percent: nat)
    requires n.diskAllocatedPercent == percent as real && percent <= 100 && n.disk >= 0
    ensures HasDisk(t, n) <==> 100 * t.disk <= (100 - percent) * n.disk
  {
    OverfullDiskIsAccepted(t, n);
    var free := 100 - percent;
    RealProduct(n.disk, free);
    assert 1.0 - 0.01 * (percent as real) == 0.01 * (free as real);
    var product := n.disk * free;
    assert DiskAvailable(n) * 100.0 == product as real;
    assert t.disk as real <= DiskAvailable(n) <==> (100 * t.disk) as real <= product as real;
  }

  /** The nodes with enough disk, in their order. */
  method SelectCandidateNodes(t: Task, nodes: seq<Node>) returns (candidates: seq<Node>)
    ensures candidates == Filter(nodes, n => HasDisk(t, n))
  {
    candidates := [];
    for i := 0 to |nodes|
      invariant candidates == Filter(nodes[..i], n => HasDisk(t, n))
    {
      assert nodes[..i + 1] == nodes[..i] + [nodes[i]];
      FilterSnoc(nodes[..i], nodes[i], n => HasDisk(t, n));
      var diskAvailable := (1.0 - 0.01 * nodes[i].diskAllocatedPercent) * nodes[i].disk as real;
      if t.disk <= Truncate(diskAvailable) {
        candidates := candidates + [nodes[i]];
      }
    }
    assert nodes[..|nodes|] == nodes;
  }

  // ---------- E-PVM: score ----------

  function CpuLoad(n: Node): real {
    n.cpuAverageLoad / n.cores as real
  }

  function MemoryUsage(n: Node): real {
    n.memoryAllocatedPercent / 100.0
  }

  function Cost(pow: real -> real, t: Task, n: Node): real {
    var predictedCpuLoad := CpuLoad(n) + t.cpu / n.cores as real;
    var predictedMemoryUsage := MemoryUsage(n) + t.memory as real / n.memory as real;
    (pow(predictedMemoryUsage) - pow(MemoryUsage(n))) + (pow(predictedCpuLoad) - pow(CpuLoad(n)))
  }

  /** No later node carries the id of the node at i, so the score under that id is its own. */
  ghost predicate LastOfItsId(nodes: seq<Node>, i: int) {
    0 <= i < |nodes| && forall j | i < j < |nodes| :: nodes[j].workerUuid != nodes[i].workerUuid
  }

  /** The scores of the first m nodes: under each id, the score of the last node that carries it. */
  ghost predicate ScoredTo(pow: real -> real, t: Task, nodes: seq<Node>, m: nat, scores: map<Uuid, real>)
    requires m <= |nodes|
  {
    && (forall i | LastOfItsId(nodes[..m], i) ::
        nodes[i].workerUuid in scores && scores[nodes[i].workerUuid] == Cost(pow, t, nodes[i]))
    && (forall w | w in scores :: exists i :: 0 <= i < m && nodes[i].workerUuid == w)
  }

  lemma ScoredStep(pow: real -> real, t: Task, nodes: seq<Node>, m: nat, scores: map<Uuid, real>)
    requires m < |nodes| && ScoredTo(pow, t, nodes, m, scores)
    ensures ScoredTo(pow, t, nodes, m + 1, scores[nodes[m].workerUuid := Cost(pow, t, nodes[m])])
  {
    var w := nodes[m].workerUuid;
    var after := scores[w := Cost(pow, t, nodes[m])];
    forall i | LastOfItsId(nodes[..m + 1], i)
      ensures nodes[i].workerUuid in after && after[nodes[i].workerUuid] == Cost(pow, t, nodes[i])
    {
      if i < m {
        assert nodes[..m + 1][m].workerUuid != nodes[..m + 1][i].workerUuid;
        assert forall j | i < j < m :: nodes[..m][j] == nodes[..m + 1][j];
        assert LastOfItsId(nodes[..m], i);
      }
    }
    forall x | x in after
      ensures exists i :: 0 <= i < m + 1 && nodes[i].workerUuid == x
    {
      if x == w {
        assert nodes[m].workerUuid == x;
      } else {
        assert x in scores;
      }
    }
  }

  method ScoreNode(pow: real -> real, t: Task, n: Node) returns (score: real)
    ensures score == Cost(pow, t, n)
  {
    var cpuLoad := n.cpuAverageLoad / n.cores as real;
    var predictedCpuLoad := cpuLoad + t.cpu / n.cores as real;
    var memoryUsage := n.memoryAllocatedPercent / 100.0;
    var predictedMemoryUsage := memoryUsage + t.memory as real / n.memory as real;
    var memCost := pow(predictedMemoryUsage) - pow(memoryUsage);
    var cpuCost := pow(predictedCpuLoad) - pow(cpuLoad);
    score := memCost + cpuCost;
  }

  method Score(pow: real -> real, t: Task, nodes: seq<Node>) returns (scores: map<Uuid, real>)
    ensures forall i | LastOfItsId(nodes, i) ::
            nodes[i].workerUuid in scores && scores[nodes[i].workerUuid] == Cost(pow, t, nodes[i])
    ensures forall w | w in scores :: exists i :: 0 <= i < |nodes| && nodes[i].workerUuid == w
  {
    scores := map[];
    for i := 0 to |nodes|
      invariant ScoredTo(pow, t, nodes, i, scores)
    {
      ScoredStep(pow, t, nodes, i, scores);
      var score := ScoreNode(pow, t, nodes[i]);
      scores := scores[nodes[i].workerUuid := score];
    }
    assert nodes[..|nodes|] == nodes;
  }

  // ---------- picking ----------

  /** A missing score reads as zero. */
  function ScoreOf(scores: map<Uuid, real>, n: Node): real {
    if n.workerUuid in scores then scores[n.workerUuid] else 0.0
  }

  /** The candidate at i has the lowest score, and is the first that has it. */
  ghost predicate FirstLowest(scores: map<Uuid, real>, candidates: seq<Node>, i: int) {
    && 0 <= i < |candidates|
    && (forall j | 0 <= j < |candidates| :: ScoreOf(scores, candidates[i]) <= ScoreOf(scores, candidates[j]))
    && (forall j | 0 <= j < i :: ScoreOf(scores, candidates[i]) < ScoreOf(scores, candidates[j]))
  }

  /** Both schedulers pick alike; no candidate, no pick. */
  method Pick(scores: map<Uuid, real>, candidates: seq<Node>) returns (best: Option<Node>, ghost index: int)
    ensures best.None? <==> candidates == []
    ensures best.Some? ==> FirstLowest(scores, candidates, index) && best.value == candidates[index]
  {
    best, index := None, -1;
    var minCost := 0.0;
    for i := 0 to |candidates|
      invariant (best.None? <==> i == 0) && -1 <= index && (index < i || i == 0)
      invariant i == 0 ==> index == -1
      invariant i > 0 ==> 0 <= index < i && best == Some(candidates[index])
      invariant i > 0 ==> minCost == ScoreOf(scores, candidates[index])
      invariant forall j | 0 <= j < i :: minCost <= ScoreOf(scores, candidates[j])
      invariant forall j | 0 <= j < index :: minCost < ScoreOf(scores, candidates[j])
    {
      var n := candidates[i];
      var score := ScoreOf(scores, n);
      if i == 0 || score < minCost {
        minCost, best, index := score, Some(n), i;
      }
    }
  }

  // ---------- E-PVM: what the argmin means ----------

  function NodePotential(pow: real -> real, n: Node): real {
    pow(CpuLoad(n)) + pow(MemoryUsage(n))
  }

  function Potential(pow: real -> real, nodes: seq<Node>): real {
    if nodes == [] then 0.0 else NodePotential(pow, nodes[0]) + Potential(pow, nodes[1..])
  }

  /** The node once the task runs on it. */
  function Place(t: Task, n: Node): Node {
    n.(cpuAverageLoad := n.cpuAverageLoad + t.cpu,
       memoryAllocatedPercent := n.memoryAllocatedPercent + 100.0 * (t.memory as real / n.memory as real))
  }

  lemma CostIsPotentialGrowth(pow: real -> real, t: Task, n: Node)
    ensures Cost(pow, t, n) == NodePotential(pow, Place(t, n)) - NodePotential(pow, n)
  {
    var c := n.cores as real;
    assert (n.cpuAverageLoad + t.cpu) / c == n.cpuAverageLoad / c + t.cpu / c;
    assert CpuLoad(Place(t, n)) == CpuLoad(n) + t.cpu / c;
    var demand := t.memory as real / n.memory as real;
    assert (n.memoryAllocatedPercent + 100.0 * demand) / 100.0 == n.memoryAllocatedPercent / 100.0 + demand;
  }

  lemma {:induction false} PotentialAfterChange(pow: real -> real, nodes: seq<Node>, i: nat, n: Node)
    requires i < |nodes|
    ensures Potential(pow, nodes[i := n]) ==
            Potential(pow, nodes) - NodePotential(pow, nodes[i]) + NodePotential(pow, n)
  {
    if i == 0 {
      assert nodes[i := n][1..] == nodes[1..];
    } else {
      assert nodes[i := n][1..] == nodes[1..][i - 1 := n];
      PotentialAfterChange(pow, nodes[1..], i - 1, n);
    }
  }

  /** Scores faithful to the candidates: what Score gives for distinct nodes. */
  ghost predicate Faithful(pow: real -> real, t: Task, scores: map<Uuid, real>, nodes: seq<Node>) {
    forall i | 0 <= i < |nodes| :: ScoreOf(scores, nodes[i]) == Cost(pow, t, nodes[i])
  }

  /** Greedy optimality: no other candidate gives the cluster a lower total potential once the task is placed. */
  lemma PickMinimisesPotential(pow: real -> real, t: Task, scores: map<Uuid, real>, nodes: seq<Node>, picked: int,
      other: int)
    requires Faithful(pow, t, scores, nodes) && FirstLowest(scores, nodes, picked) && 0 <= other < |nodes|
    ensures Potential(pow, nodes[picked := Place(t, nodes[picked])]) <=
            Potential(pow, nodes[other := Place(t, nodes[other])])
  {
    PotentialAfterChange(pow, nodes, picked, Place(t, nodes[picked]));
    PotentialAfterChange(pow, nodes, other, Place(t, nodes[other]));
    CostIsPotentialGrowth(pow, t, nodes[picked]);
    CostIsPotentialGrowth(pow, t, nodes[other]);
  }

  /** A run of placements: each puts a task on the node at an index. */
  datatype Placement = Placement(task: Task, index: nat)

  function PlaceAll(nodes: seq<Node>, run: seq<Placement>): seq<Node>
    requires forall i | 0 <= i < |run| :: run[i].index < |nodes|
    decreases |run|
  {
    if run == [] then nodes
    else PlaceAll(nodes[run[0].index := Place(run[0].task, nodes[run[0].index])], run[1..])
  }

  function TotalCost(pow: real -> real, nodes: seq<Node>, run: seq<Placement>): real
    requires forall i | 0 <= i < |run| :: run[i].index < |nodes|
    decreases |run|
  {
    if run == [] then 0.0
    else
      var n := nodes[run[0].index];
      Cost(pow, run[0].task, n) + TotalCost(pow, nodes[run[0].index := Place(run[0].task, n)], run[1..])
  }

  /** Scores telescope: what a run of placements costs depends only on the loads it starts and ends with. */
  lemma {:induction false} CostsTelescope(pow: real -> real, nodes: seq<Node>, run: seq<Placement>)
    requires forall i | 0 <= i < |run| :: run[i].index < |nodes|
    ensures TotalCost(pow, nodes, run) == Potential(pow, PlaceAll(nodes, run)) - Potential(pow, nodes)
    decreases |run|
  {
    if run != [] {
      var i, t := run[0].index, run[0].task;
      var placed := nodes[i := Place(t, nodes[i])];
      PotentialAfterChange(pow, nodes, i, Place(t, nodes[i]));
      CostIsPotentialGrowth(pow, t, nodes[i]);
      CostsTelescope(pow, placed, run[1..]);
    }
  }

  /** The scheduler's decision over a poll: no candidate, or a cheapest one. */
  ghost predicate BestChoice(pow: real -> real, t: Task, polled: seq<Node>, choice: Option<Uuid>) {
    match choice
    case None => forall n | n in polled :: !HasDisk(t, n)
    case Some(w) => exists n :: Cheapest(pow, t, polled, n) && n.workerUuid == w
  }

  ghost predicate Cheapest(pow: real -> real, t: Task, polled: seq<Node>, n: Node) {
    && n in polled && HasDisk(t, n)
    && (DistinctNodes(polled) ==> NoneCheaper(pow, t, polled, n))
  }

  ghost predicate NoneCheaper(pow: real -> real, t: Task, polled: seq<Node>, n: Node) {
    forall x | x in polled && HasDisk(t, x) :: Cost(pow, t, n) <= Cost(pow, t, x)
  }

  // ---------- E-PVM: strict convexity ----------

  predicate AddsExponents(pow: real -> real, x: real, y: real) {
    pow(x + y) == pow(x) * pow(y)
  }

  /** The laws of powers of a base above one. */
  ghost predicate Exponential(pow: real -> real) {
    && (forall x, y :: AddsExponents(pow, x, y))
    && (forall x | x > 0.0 :: pow(x) > 1.0)
  }

  function Power(base: real, k: nat): real {
    if k == 0 then 1.0 else base * Power(base, k - 1)
  }

  /** A load on the grid that divides one into `parts`. */
  function GridPoint(k: nat, parts: Positive): real {
    k as real / parts as real
  }

  /** On the grid pow is repeated multiplication by the base. */
  ghost predicate PowerOnGrid(pow: real -> real, base: real, parts: Positive) {
    forall k: nat :: pow(GridPoint(k, parts)) == Power(base, k)
  }

  /** For every base and grid there is such a function. */
  function GridPower(base: real, parts: Positive): real -> real {
    x => Power(base, GridIndex(x, parts))
  }

  /** The last grid point not above x; zero below the grid. */
  function GridIndex(x: real, parts: Positive): nat {
    var i := (x * parts as real).Floor;
    if i >= 0 then i else 0
  }

  lemma GridPowerIsPower(base: real, parts: Positive)
    ensures PowerOnGrid(GridPower(base, parts), base, parts)
  {
    forall k: nat
      ensures GridPower(base, parts)(GridPoint(k, parts)) == Power(base, k)
    {
      GridPointIsQuotient(k, parts);
      GridPowerAt(base, parts, GridPoint(k, parts), k);
    }
  }

  lemma GridPowerAt(base: real, parts: Positive, x: real, k: nat)
    requires x * parts as real == k as real
    ensures GridPower(base, parts)(x) == Power(base, k)
  {
    hide Power;
    assert GridIndex(x, parts) == k;
  }

  lemma GridPointIsQuotient(k: nat, parts: Positive)
    ensures GridPoint(k, parts) * parts as real == k as real
  {
  }

  /** The laws of exponents leave only repeated multiplication, on every grid; the base is the grid's first power. */
  lemma ExponentialIsRepeatedProduct(pow: real -> real, parts: Positive)
    requires Exponential(pow)
    ensures var root := pow(1.0 / parts as real);
            PowerOnGrid(pow, root, parts) && root > 1.0 && Power(root, parts) == pow(1.0)
  {
    var root := pow(1.0 / parts as real);
    forall k: nat
      ensures pow(GridPoint(k, parts)) == Power(root, k)
    {
      PowersOfRoot(pow, parts, k);
    }
    QuotientSign(1.0, parts as real);
    assert parts as real / parts as real == 1.0;
  }

  lemma {:induction false} PowersOfRoot(pow: real -> real, parts: Positive, k: nat)
    requires Exponential(pow)
    ensures pow(GridPoint(k, parts)) == Power(pow(1.0 / parts as real), k)
  {
    if k == 0 {
      ExponentialAtZero(pow);
      assert 0.0 / parts as real == 0.0;
    } else {
      PowersOfRoot(pow, parts, k - 1);
      var step, before := 1.0 / parts as real, (k - 1) as real / parts as real;
      assert AddsExponents(pow, step, before);
      SumOfQuotients(1.0, (k - 1) as real, parts as real);
    }
  }

  lemma SumOfQuotients(x: real, y: real, d: real)
    requires d > 0.0
    ensures x / d + y / d == (x + y) / d
  {
  }

  lemma ExponentialAtZero(pow: real -> real)
    requires Exponential(pow)
    ensures pow(0.0) == 1.0
  {
    assert AddsExponents(pow, 0.0, 1.0);
    assert 0.0 + 1.0 == 1.0;
    var z, one := pow(0.0), pow(1.0);
    assert one == z * one && one > 1.0;
    assert (z - 1.0) * one == 0.0;
  }

  lemma ExponentialPositive(pow: real -> real, x: real)
    requires Exponential(pow)
    ensures pow(x) > 0.0
  {
    ExponentialAtZero(pow);
    if x < 0.0 {
      assert AddsExponents(pow, x, -x);
      assert x + -x == 0.0;
      var p, q := pow(x), pow(-x);
      assert p * q == 1.0 && q > 1.0;
      if p <= 0.0 {
        NonPositiveProduct(p, q);
      }
    }
  }

  lemma NonPositiveProduct(p: real, q: real)
    requires p <= 0.0 && q > 0.0
    ensures p * q <= 0.0 && (p < 0.0 ==> p * q < 0.0)
  {
  }

  lemma PositiveProduct(p: real, q: real)
    requires p > 0.0 && q > 0.0
    ensures p * q > 0.0
  {
  }

  /** The increments x and y that a factor d > 1 brings to l < h. */
  lemma RisingProduct(l: real, h: real, d: real, x: real, y: real)
    requires l < h && d > 1.0 && x == l * d - l && y == h * d - h
    ensures x < y
  {
    assert x == l * (d - 1.0);
    assert y == h * (d - 1.0);
    RisingGap(l, h, d - 1.0);
  }

  lemma RisingGap(l: real, h: real, gain: real)
    requires l < h && gain > 0.0
    ensures l * gain < h * gain
  {
    PositiveProduct(h - l, gain);
  }

  lemma ProductAbove(l: real, g: real, h: real)
    requires l > 0.0 && g > 1.0 && h == l * g
    ensures l < h
  {
    PositiveProduct(l, g - 1.0);
    assert h - l == l * (g - 1.0);
  }

  /** The same positive demand costs strictly more from a higher load. */
  lemma IncrementsRise(pow: real -> real, low: real, high: real, demand: real)
    requires Exponential(pow) && low < high && demand > 0.0
    ensures pow(low + demand) - pow(low) < pow(high + demand) - pow(high)
  {
    ExponentialPositive(pow, low);
    assert AddsExponents(pow, low, demand) && AddsExponents(pow, high, demand) && AddsExponents(pow, low, high - low);
    assert low + (high - low) == high;
    var l, h, d, g := pow(low), pow(high), pow(demand), pow(high - low);
    ProductAbove(l, g, h);
    RisingProduct(l, h, d, pow(low + demand) - l, pow(high + demand) - h);
  }

  /** Between these loads the same demand never costs less from the higher one, and strictly more if both differ. */
  predicate ConvexAt(pow: real -> real, low: real, high: real, demand: real) {
    && pow(low + demand) - pow(low) <= pow(high + demand) - pow(high)
    && (low < high && demand > 0.0 ==> pow(low + demand) - pow(low) < pow(high + demand) - pow(high))
  }

  lemma ExponentialIsConvex(pow: real -> real, low: real, high: real, demand: real)
    requires Exponential(pow) && low <= high && demand >= 0.0
    ensures ConvexAt(pow, low, high, demand)
  {
    if low < high && demand > 0.0 {
      IncrementsRise(pow, low, high, demand);
    } else if demand == 0.0 {
      assert low + demand == low && high + demand == high;
    }
  }

  lemma {:induction false} PowerAdds(base: real, j: nat, k: nat)
    ensures Power(base, j + k) == Power(base, j) * Power(base, k)
  {
    if j > 0 {
      PowerAdds(base, j - 1, k);
      var p, q := Power(base, j - 1), Power(base, k);
      assert base * (p * q) == (base * p) * q;
    }
  }

  lemma {:induction false} PowerAbove(base: real, k: nat)
    requires base > 1.0
    ensures Power(base, k) >= 1.0 && (k > 0 ==> Power(base, k) > 1.0)
  {
    if k > 0 {
      PowerAbove(base, k - 1);
      var p := Power(base, k - 1);
      PositiveProduct(base - 1.0, p);
      assert base * p == (base - 1.0) * p + p;
    }
  }

  /** The same positive demand costs strictly more from a higher point of the grid. */
  lemma PowerIncrementsRise(base: real, low: nat, high: nat, demand: nat)
    requires base > 1.0 && low < high && demand > 0
    ensures Power(base, low + demand) - Power(base, low) < Power(base, high + demand) - Power(base, high)
  {
    PowerAdds(base, low, demand);
    PowerAdds(base, high, demand);
    PowerAdds(base, low, high - low);
    PowerAbove(base, low);
    PowerAbove(base, high - low);
    PowerAbove(base, demand);
    var l, h, d, g := Power(base, low), Power(base, high), Power(base, demand), Power(base, high - low);
    ProductAbove(l, g, h);
    RisingProduct(l, h, d, Power(base, low + demand) - l, Power(base, high + demand) - h);
  }

  /** A load, or a demand, on the grid. */
  ghost predicate OnGrid(x: real, parts: Positive) {
    exists k: nat :: GridPoint(k, parts) == x
  }

  lemma PowerIsConvex(pow: real -> real, base: real, parts: Positive, low: real, high: real, demand: real)
    requires PowerOnGrid(pow, base, parts) && base > 1.0
    requires OnGrid(low, parts) && OnGrid(high, parts) && OnGrid(demand, parts) && low <= high
    ensures ConvexAt(pow, low, high, demand)
  {
    var l: nat :| GridPoint(l, parts) == low;
    var h: nat :| GridPoint(h, parts) == high;
    var d: nat :| GridPoint(d, parts) == demand;
    SumOfQuotients(l as real, d as real, parts as real);
    SumOfQuotients(h as real, d as real, parts as real);
    assert pow(GridPoint(l + d, parts)) == Power(base, l + d);
    assert pow(GridPoint(h + d, parts)) == Power(base, h + d);
    QuotientOrder(l as real, h as real, parts as real);
    if l < h && d > 0 {
      PowerIncrementsRise(base, l, h, d);
    }
  }

  lemma QuotientOrder(x: real, y: real, d: real)
    requires d > 0.0 && x / d <= y / d
    ensures x <= y && (x == y ==> x / d == y / d)
  {
    var p, q := x / d, y / d;
    assert p * d == x && q * d == y;
    NonNegativeProduct(q - p, d);
    assert (q - p) * d == y - x;
  }

  function CpuDemand(t: Task, n: Node): real {
    t.cpu / n.cores as real
  }

  function MemoryDemand(t: Task, n: Node): real {
    t.memory as real / n.memory as real
  }

  /** a and b have equal hardware; b is no more loaded than a, and strictly less on a resource t asks for. */
  ghost predicate Beats(t: Task, b: Node, a: Node) {
    && a.cores == b.cores && a.memory == b.memory
    && b.cpuAverageLoad <= a.cpuAverageLoad && b.memoryAllocatedPercent <= a.memoryAllocatedPercent
    && ((b.cpuAverageLoad < a.cpuAverageLoad && t.cpu > 0.0)
        || (b.memoryAllocatedPercent < a.memoryAllocatedPercent && t.memory > 0))
  }

  /** On equal hardware loads are ordered as the raw figures are. */
  lemma LoadsOrder(b: Node, a: Node)
    requires a.cores == b.cores && a.memory == b.memory
    ensures CpuLoad(b) <= CpuLoad(a) <==> b.cpuAverageLoad <= a.cpuAverageLoad
    ensures MemoryUsage(b) <= MemoryUsage(a) <==> b.memoryAllocatedPercent <= a.memoryAllocatedPercent
  {
    QuotientsOrder(b.cpuAverageLoad, a.cpuAverageLoad, a.cores as real);
    QuotientsOrder(b.memoryAllocatedPercent, a.memoryAllocatedPercent, 100.0);
  }

  lemma QuotientsOrder(x: real, y: real, d: real)
    requires d > 0.0
    ensures x / d <= y / d <==> x <= y
  {
    if x / d <= y / d {
      QuotientOrder(x, y, d);
    } else {
      QuotientOrder(y, x, d);
    }
  }

  /** Nothing else of a node goes into its cost, whatever the power function. */
  lemma EqualNodesCostTheSame(pow: real -> real, t: Task, a: Node, b: Node)
    requires a.cores == b.cores && a.memory == b.memory
    requires a.cpuAverageLoad == b.cpuAverageLoad && a.memoryAllocatedPercent == b.memoryAllocatedPercent
    ensures Cost(pow, t, a) == Cost(pow, t, b)
  {
  }

  lemma BeatingCostsLess(pow: real -> real, t: Task, b: Node, a: Node)
    requires Beats(t, b, a)
    requires ConvexAt(pow, CpuLoad(b), CpuLoad(a), CpuDemand(t, a))
    requires ConvexAt(pow, MemoryUsage(b), MemoryUsage(a), MemoryDemand(t, a))
    ensures Cost(pow, t, b) < Cost(pow, t, a)
  {
    LoadsOrder(b, a);
    LoadsOrder(a, b);
    if t.cpu > 0.0 {
      QuotientSign(t.cpu, a.cores as real);
    }
    if t.memory > 0 {
      QuotientSign(t.memory as real, a.memory as real);
    }
    hide CpuLoad, MemoryUsage;
  }

  /** Strict convexity: under the laws of exponents a node that another candidate beats is never picked. */
  lemma BeatenNodeIsNotPicked(pow: real -> real, t: Task, scores: map<Uuid, real>, nodes: seq<Node>, picked: int,
      other: int)
    requires Exponential(pow) && t.cpu >= 0.0 && t.memory >= 0
    requires Faithful(pow, t, scores, nodes) && FirstLowest(scores, nodes, picked) && 0 <= other < |nodes|
    ensures !Beats(t, nodes[other], nodes[picked])
  {
    var a, b := nodes[picked], nodes[other];
    if Beats(t, b, a) {
      QuotientSign(t.cpu, a.cores as real);
      QuotientSign(t.memory as real, a.memory as real);
      LoadsOrder(b, a);
      ExponentialIsConvex(pow, CpuLoad(b), CpuLoad(a), CpuDemand(t, a));
      ExponentialIsConvex(pow, MemoryUsage(b), MemoryUsage(a), MemoryDemand(t, a));
      BeatingCostsLess(pow, t, b, a);
    }
  }

  /** The loads of a node, and what t adds to them, lie on the grid. */
  ghost predicate LoadsOnGrid(t: Task, n: Node, parts: Positive) {
    && OnGrid(CpuLoad(n), parts) && OnGrid(MemoryUsage(n), parts)
    && OnGrid(CpuDemand(t, n), parts) && OnGrid(MemoryDemand(t, n), parts)
  }

  /** The same for repeated multiplication, with any base above one and any grid the loads lie on: no law is assumed. */
  lemma BeatenNodeIsNotPickedOnGrid(base: real, parts: Positive, t: Task, scores: map<Uuid, real>, nodes: seq<Node>,
      picked: int, other: int)
    requires base > 1.0 && forall i | 0 <= i < |nodes| :: LoadsOnGrid(t, nodes[i], parts)
    requires Faithful(GridPower(base, parts), t, scores, nodes) && FirstLowest(scores, nodes, picked)
             && 0 <= other < |nodes|
    ensures !Beats(t, nodes[other], nodes[picked])
  {
    var pow, a, b := GridPower(base, parts), nodes[picked], nodes[other];
    assert LoadsOnGrid(t, a, parts) && LoadsOnGrid(t, b, parts);
    if Beats(t, b, a) {
      GridPowerIsPower(base, parts);
      LoadsOrder(b, a);
      PowerIsConvex(pow, base, parts, CpuLoad(b), CpuLoad(a), CpuDemand(t, a));
      PowerIsConvex(pow, base, parts, MemoryUsage(b), MemoryUsage(a), MemoryDemand(t, a));
      BeatingCostsLess(pow, t, b, a);
    }
  }

  /** Everything the scheduler computes with is a fraction: its loads lie on some grid. */
  ghost predicate Fractions(t: Task, n: Node) {
    exists parts: Positive :: LoadsOnGrid(t, n, parts)
  }

  lemma FinerGrid(x: real, parts: Positive, factor: Positive)
    requires OnGrid(x, parts)
    ensures parts * factor > 0 && OnGrid(x, parts * factor)
  {
    var k: nat :| GridPoint(k, parts) == x;
    assert parts * factor > 0 by {
      Multiple(factor, parts);
    }
    RealProduct(k, factor);
    RealProduct(parts, factor);
    SameQuotients(x, k as real, parts as real, factor as real);
    assert k * factor >= 0;
    assert GridPoint(k * factor, parts * factor) == x;
  }

  lemma SameQuotients(x: real, k: real, p: real, f: real)
    requires p > 0.0 && f > 0.0 && x == k / p
    ensures f * p > 0.0 && (f * k) / (f * p) == x
  {
    PositiveProduct(f, p);
    assert x * p == k;
    assert x * (f * p) == f * (x * p);
  }

  lemma FinerLoads(t: Task, n: Node, parts: Positive, factor: Positive)
    requires LoadsOnGrid(t, n, parts)
    ensures parts * factor > 0 && LoadsOnGrid(t, n, parts * factor)
  {
    hide OnGrid;
    FinerGrid(CpuLoad(n), parts, factor);
    FinerGrid(MemoryUsage(n), parts, factor);
    FinerGrid(CpuDemand(t, n), parts, factor);
    FinerGrid(MemoryDemand(t, n), parts, factor);
  }

  /** Any finite list of nodes whose loads are fractions has a grid for all of them. */
  lemma {:induction false} CommonGrid(t: Task, nodes: seq<Node>) returns (parts: Positive)
    requires forall i | 0 <= i < |nodes| :: Fractions(t, nodes[i])
    ensures forall i | 0 <= i < |nodes| :: LoadsOnGrid(t, nodes[i], parts)
  {
    hide LoadsOnGrid;
    parts := 1;
    if nodes != [] {
      assert forall i | 0 <= i < |nodes[1..]| :: nodes[1..][i] == nodes[i + 1];
      var rest := CommonGrid(t, nodes[1..]);
      assert Fractions(t, nodes[0]);
      var own: Positive :| LoadsOnGrid(t, nodes[0], own);
      FinerLoads(t, nodes[0], own, rest);
      parts := own * rest;
      forall i | 0 <= i < |nodes|
        ensures LoadsOnGrid(t, nodes[i], parts)
      {
        if i > 0 {
          FinerLoads(t, nodes[1..][i - 1], rest, own);
        }
      }
    }
  }

  /**
   * So for any fractions at all there is a grid on which, with repeated multiplication of any base above one, no
   * beaten node is picked.
   */
  lemma BeatenNodeIsNotPickedByFractions(t: Task, nodes: seq<Node>) returns (parts: Positive)
    requires forall i | 0 <= i < |nodes| :: Fractions(t, nodes[i])
    ensures forall i | 0 <= i < |nodes| :: LoadsOnGrid(t, nodes[i], parts)
    ensures forall base, scores, picked, other |
              base > 1.0 && Faithful(GridPower(base, parts), t, scores, nodes) && FirstLowest(scores, nodes, picked)
              && 0 <= other < |nodes| ::
              !Beats(t, nodes[other], nodes[picked])
  {
    parts := CommonGrid(t, nodes);
    hide LoadsOnGrid, Faithful, FirstLowest, Beats;
    forall base, scores, picked, other |
      base > 1.0 && Faithful(GridPower(base, parts), t, scores, nodes) && FirstLowest(scores, nodes, picked)
      && 0 <= other < |nodes|
      ensures !Beats(t, nodes[other], nodes[picked])
    {
      BeatenNodeIsNotPickedOnGrid(base, parts, t, scores, nodes, picked, other);
    }
  }

  /** A positive root of a number above one is above one. */
  lemma {:induction false} RootAbove(root: real, parts: nat)
    requires root > 0.0 && Power(root, parts) > 1.0
    ensures root > 1.0
  {
    if root <= 1.0 {
      PowerAtMost(root, parts);
    }
  }

  lemma {:induction false} PowerAtMost(root: real, k: nat)
    requires 0.0 < root <= 1.0
    ensures 0.0 < Power(root, k) <= 1.0
  {
    if k > 0 {
      PowerAtMost(root, k - 1);
      var p := Power(root, k - 1);
      PositiveProduct(root, p);
      NonNegativeProduct(1.0 - root, p);
      assert (1.0 - root) * p == p - root * p;
    }
  }

  lemma {:induction false} PowerOfPower(base: real, j: nat, k: nat)
    ensures Power(base, j * k) == Power(Power(base, j), k)
  {
    if k == 0 {
      assert j * k == 0;
    } else {
      PowerOfPower(base, j, k - 1);
      assert j * k == j + j * (k - 1);
      PowerAdds(base, j, j * (k - 1));
    }
  }

  /** At whole loads the powers of the root are those of its own power. */
  lemma WholeLoad(root: real, parts: Positive, load: nat)
    ensures GridPower(root, parts)(load as real) == Power(Power(root, parts), load)
  {
    hide Power;
    PowerOfPower(root, parts, load);
    RealProduct(parts, load);
    GridPowerAt(root, parts, load as real, parts * load);
  }

  lemma {:induction false} RealProduct(j: nat, k: nat)
    ensures (j * k) as real == k as real * j as real
  {
    if k > 0 {
      RealProduct(j, k - 1);
      assert j * k == j * (k - 1) + j;
      assert k as real == (k - 1) as real + 1.0;
      assert ((k - 1) as real + 1.0) * j as real == (k - 1) as real * j as real + j as real;
    }
  }

  /** On the grid of whole loads the root of LIEB is LIEB itself. */
  lemma WholeLoadsNeedNoRoot()
    ensures Power(LIEB, 1) == LIEB
  {
  }

  /**
   * At the constant of the source: with the root of LIEB that belongs to the grid, repeated multiplication gives
   * the powers of LIEB at whole loads, and no beaten node is picked.
   */
  lemma BeatenNodeIsNotPickedAtLieb(root: real, parts: Positive, t: Task, scores: map<Uuid, real>, nodes: seq<Node>,
      picked: int, other: int)
    requires root > 0.0 && Power(root, parts) == LIEB
    requires forall i | 0 <= i < |nodes| :: LoadsOnGrid(t, nodes[i], parts)
    requires Faithful(GridPower(root, parts), t, scores, nodes) && FirstLowest(scores, nodes, picked)
             && 0 <= other < |nodes|
    ensures forall load: nat :: GridPower(root, parts)(load as real) == Power(LIEB, load)
    ensures !Beats(t, nodes[other], nodes[picked])
  {
    RootAbove(root, parts);
    forall load: nat
      ensures GridPower(root, parts)(load as real) == Power(LIEB, load)
    {
      WholeLoad(root, parts, load);
    }
    BeatenNodeIsNotPickedOnGrid(root, parts, t, scores, nodes, picked, other);
  }

  lemma QuotientSign(x: real, y: real)
    requires y > 0.0 && x >= 0.0
    ensures x / y >= 0.0 && (x > 0.0 ==> x / y > 0.0)
  {
    var q := x / y;
    assert q * y == x;
    if q < 0.0 {
      NonPositiveProduct(q, y);
    }
  }

  // ---------- round robin ----------

  /** The remainder operator of the source: it takes the sign of the dividend. */
  function Remainder(a: int, n: int): int
    requires n > 0
  {
    if a >= 0 then a % n else -((-a) % n)
  }

  class RoundRobin {
    var lastWorkerIdx: int

    constructor (last: int)
      ensures lastWorkerIdx == last
    {
      lastWorkerIdx := last;
    }

    /** Moves to the next index and gives the node there the low score. */
    method Score(nodes: seq<Node>) returns (scores: map<Uuid, real>)
      requires nodes != []
      modifies this
      ensures lastWorkerIdx == Remainder(old(lastWorkerIdx) + 1, |nodes|)
      ensures DistinctNodes(nodes) ==>
                forall i | 0 <= i < |nodes| :: ScoreOf(scores, nodes[i]) == if i == lastWorkerIdx then 0.1 else 1.0
    {
      scores := map[];
      var newWorkerIdx := Remainder(lastWorkerIdx + 1, |nodes|);
      lastWorkerIdx := newWorkerIdx;
      for i := 0 to |nodes|
        invariant lastWorkerIdx == newWorkerIdx
        invariant DistinctNodes(nodes) ==> forall k | 0 <= k < i ::
            nodes[k].workerUuid in scores && scores[nodes[k].workerUuid] == if k == newWorkerIdx then 0.1 else 1.0
      {
        scores := scores[nodes[i].workerUuid := if i == newWorkerIdx then 0.1 else 1.0];
      }
    }

    /**
     * Score then Pick: the node after the last one, in rotation; index 0 if the rotation was left at a
     * negative index.
     */
    method Next(nodes: seq<Node>) returns (picked: Node, ghost index: int)
      requires nodes != [] && DistinctNodes(nodes)
      modifies this
      ensures lastWorkerIdx == Remainder(old(lastWorkerIdx) + 1, |nodes|)
      ensures index == Selected(old(lastWorkerIdx), |nodes|) && picked == nodes[index]
      ensures old(lastWorkerIdx) >= -1 ==> 0 <= lastWorkerIdx < |nodes| && index == lastWorkerIdx
    {
      var scores := Score(nodes);
      var best;
      best, index := Pick(scores, nodes);
      RemainderRange(old(lastWorkerIdx) + 1, |nodes|);
      LowScoreWins(scores, nodes, lastWorkerIdx, index);
      picked := best.value;
    }
  }

  lemma LowScoreWins(scores: map<Uuid, real>, nodes: seq<Node>, low: int, index: int)
    requires FirstLowest(scores, nodes, index) && low < |nodes|
    requires forall i | 0 <= i < |nodes| :: ScoreOf(scores, nodes[i]) == if i == low then 0.1 else 1.0
    ensures index == if low >= 0 then low else 0
  {
    var expected := if low >= 0 then low else 0;
    assert ScoreOf(scores, nodes[index]) <= ScoreOf(scores, nodes[expected]);
  }

  function Selected(last: int, n: int): int
    requires n > 0
  {
    var r := Remainder(last + 1, n);
    if r >= 0 then r else 0
  }

  /** The remainder of the source: a less a multiple of n, nearer to zero than n, on the side of zero a is on. */
  lemma RemainderTruncates(a: int, n: int) returns (quotient: int)
    requires n > 0
    ensures a == quotient * n + Remainder(a, n) && -n < Remainder(a, n) < n
    ensures (a >= 0 ==> 0 <= Remainder(a, n)) && (a <= 0 ==> Remainder(a, n) <= 0)
  {
    quotient := if a >= 0 then a / n else -((-a) / n);
    if a < 0 {
      assert -a == ((-a) / n) * n + (-a) % n;
      assert (-((-a) / n)) * n == -(((-a) / n) * n);
    }
  }

  lemma RemainderRange(a: int, n: int)
    requires n > 0
    ensures -n < Remainder(a, n) < n
    ensures a >= 0 ==> 0 <= Remainder(a, n)
  {
  }

  /** How often index i is selected in m consecutive rotations over n nodes after index `last`. */
  function TimesSelected(last: int, n: int, m: nat, i: int): nat
    requires n > 0 && -1 <= last
    decreases m
  {
    if m == 0 then 0
    else
      RemainderRange(last + 1, n);
      (if Selected(last, n) == i then 1 else 0) + TimesSelected(Remainder(last + 1, n), n, m - 1, i)
  }

  /** Rotations to go before index i comes up, counted from `next`. */
  function Distance(next: int, n: int, i: int): int {
    if i >= next then i - next else i - next + n
  }

  lemma {:induction false} TimesSelectedFormula(last: int, n: int, m: nat, i: int)
    requires n > 0 && -1 <= last && 0 <= i < n
    ensures TimesSelected(last, n, m, i) == (m + n - 1 - Distance((last + 1) % n, n, i)) / n
    decreases m
  {
    var next := (last + 1) % n;
    var d := Distance(next, n, i);
    if m == 0 {
      SmallQuotient(n - 1 - d, n);
    } else {
      TimesSelectedFormula(next, n, m - 1, i);
      var d' := Distance((next + 1) % n, n, i);
      NextIndex(next, n);
      if d == 0 {
        assert d' == n - 1;
        QuotientStep(m - 1, n);
      } else {
        assert d' == d - 1;
      }
    }
  }

  lemma NextIndex(next: int, n: int)
    requires 0 <= next < n
    ensures (next + 1) % n == if next + 1 == n then 0 else next + 1
  {
    if next + 1 < n {
      SmallRemainder(next + 1, n);
    }
  }

  lemma SmallRemainder(a: int, n: int)
    requires 0 <= a < n
    ensures a % n == a
  {
  }

  lemma SmallQuotient(a: int, n: int)
    requires 0 <= a < n
    ensures a / n == 0
  {
  }

  lemma Multiple(k: int, n: int)
    requires k >= 1 && n > 0
    ensures k * n >= n
  {
  }

  /** A quotient is determined by a remainder in range. */
  lemma SameQuotient(q: int, r: int, q': int, r': int, n: int)
    requires n > 0 && 0 <= r < n && 0 <= r' < n
    requires q * n + r == q' * n + r'
    ensures q == q'
  {
    assert (q' - q) * n == q' * n - q * n;
    assert (q - q') * n == q * n - q' * n;
    if q < q' {
      Multiple(q' - q, n);
    } else if q' < q {
      Multiple(q - q', n);
    }
  }

  lemma QuotientStep(a: int, n: int)
    requires n > 0
    ensures (a + n) / n == a / n + 1
  {
    var q, r := a / n, a % n;
    assert a == q * n + r;
    var q', r' := (a + n) / n, (a + n) % n;
    assert a + n == q' * n + r';
    assert (q + 1) * n == q * n + n;
    SameQuotient(q + 1, r, q', r', n);
  }

  /** Fairness: in any window of m rotations every node is chosen floor(m/n) or ceil(m/n) times. */
  lemma RotationIsFair(last: int, n: int, m: nat, i: int)
    requires n > 0 && -1 <= last && 0 <= i < n
    ensures m / n <= TimesSelected(last, n, m, i) <= (m + n - 1) / n
  {
    TimesSelectedFormula(last, n, m, i);
    var d := Distance((last + 1) % n, n, i);
    QuotientMonotone(m, m + n - 1 - d, n);
    QuotientMonotone(m + n - 1 - d, m + n - 1, n);
  }

  lemma QuotientMonotone(a: int, b: int, n: int)
    requires n > 0 && a <= b
    ensures a / n <= b / n
  {
    OrderedQuotients(a / n, a % n, b / n, b % n, n);
  }

  lemma OrderedQuotients(q: int, r: int, q': int, r': int, n: int)
    requires n > 0 && 0 <= r < n && 0 <= r' < n
    requires q * n + r <= q' * n + r'
    ensures q <= q'
  {
    assert (q - q') * n == q * n - q' * n;
    if q' < q {
      Multiple(q - q', n);
    }
  }
}
