/** Admission of new apps (apps/backend/src/deploy/deployment-admission.service.ts).
  *
  * One decision over a snapshot of metric rows and the durable reservations. Quantities are integers:
  * millicores, bytes, seconds and thousandths. Logins are lower case, as the only caller passes them.
  */
module Admission {
  import opened Common
  import opened Sums

  /** A namespace, pod, node or login name. */
  datatype Name = Name(text: string)

  type Login = Name
  const NO_NAME := Name("")

  const Gi := 1024 * 1024 * 1024
  const CPU_UNIT := 200
  const MEMORY_UNIT := 512 * 1024 * 1024
  const SCRATCH_UNIT := 2 * Gi
  const VOLUME_UNIT := Gi
  const CPU_FLOOR := 1000
  const MEMORY_FLOOR := 4 * Gi
  const DISK_FLOOR := 5 * Gi

  datatype Resource = Cpu | Memory | OtherResource
  datatype Row = Row(namespace: Name, pod: Name, resource: Resource, value: int)
  datatype Pod = Pod(namespace: Name, name: Name)
  datatype Usage = Usage(cpu: int, memory: int, initCpu: int, initMemory: int)

  const ZERO := Usage(0, 0, 0, 0)

  function Max(a: int, b: int): (m: int)
    ensures m >= a && m >= b && (m == a || m == b)
  {
    if a >= b then a else b
  }

  function UserNamespace(login: Login): Name { Name("user-" + login.text) }

  // ----- Requests of pods -----

  function PodOf(row: Row): Pod { Pod(row.namespace, row.pod) }

  predicate Malformed(row: Row) {
    row.namespace == NO_NAME || row.pod == NO_NAME || row.resource.OtherResource? || row.value < 0
  }

  function Pods(rows: seq<Row>): set<Pod> { set r | r in rows :: PodOf(r) }

  predicate Concerns(row: Row, pod: Pod, resource: Resource) { PodOf(row) == pod && row.resource == resource }

  function SumRows(rows: seq<Row>, pod: Pod, resource: Resource): int {
    if rows == [] then 0
    else
      var last := rows[|rows| - 1];
      SumRows(rows[..|rows| - 1], pod, resource) + if Concerns(last, pod, resource) then last.value else 0
  }

  function MaxRows(rows: seq<Row>, pod: Pod, resource: Resource): int {
    if rows == [] then 0
    else
      var last := rows[|rows| - 1];
      var rest := MaxRows(rows[..|rows| - 1], pod, resource);
      if Concerns(last, pod, resource) then Max(rest, last.value) else rest
  }

  function UsageOf(requests: seq<Row>, init: seq<Row>, pod: Pod): Usage {
    Usage(SumRows(requests, pod, Cpu), SumRows(requests, pod, Memory),
          MaxRows(init, pod, Cpu), MaxRows(init, pod, Memory))
  }

  function PodUsage(requests: seq<Row>, init: seq<Row>): map<Pod, Usage> {
    map p | p in Pods(requests) + Pods(init) :: UsageOf(requests, init, p)
  }

  /** What the scheduler charges: containers run together, init containers one after another. */
  ghost function RequestedCpu(requests: seq<Row>, init: seq<Row>): int {
    Sum(map p | p in Pods(requests) + Pods(init) :: Max(SumRows(requests, p, Cpu), MaxRows(init, p, Cpu)))
  }

  ghost function RequestedMemory(requests: seq<Row>, init: seq<Row>): int {
    Sum(map p | p in Pods(requests) + Pods(init) :: Max(SumRows(requests, p, Memory), MaxRows(init, p, Memory)))
  }

  lemma OneMoreRow(rows: seq<Row>, i: nat)
    requires i < |rows|
    ensures Pods(rows[..i + 1]) == Pods(rows[..i]) + {PodOf(rows[i])}
    ensures rows[..i + 1][..i] == rows[..i] && |rows[..i + 1]| == i + 1 && rows[..i + 1][i] == rows[i]
    ensures forall r :: r in rows[..i + 1] <==> r in rows[..i] || r == rows[i]
  {
    assert rows[..i + 1] == rows[..i] + [rows[i]];
  }

  function AddRequest(usage: Usage, row: Row): Usage {
    if row.resource.Cpu? then usage.(cpu := usage.cpu + row.value) else usage.(memory := usage.memory + row.value)
  }

  function AddInit(usage: Usage, row: Row): Usage {
    if row.resource.Cpu? then usage.(initCpu := Max(usage.initCpu, row.value))
    else usage.(initMemory := Max(usage.initMemory, row.value))
  }

  function Current(pods: map<Pod, Usage>, pod: Pod): Usage { if pod in pods then pods[pod] else ZERO }

  lemma RequestFolded(requests: seq<Row>, i: nat)
    requires i < |requests| && !Malformed(requests[i])
    ensures var pods := PodUsage(requests[..i], []);
      PodUsage(requests[..i + 1], [])
      == pods[PodOf(requests[i]) := AddRequest(Current(pods, PodOf(requests[i])), requests[i])]
  {
    OneMoreRow(requests, i);
    if PodOf(requests[i]) !in Pods(requests[..i]) {
      AbsentPod(requests[..i], PodOf(requests[i]));
    }
    forall p ensures UsageOf(requests[..i + 1], [], p)
      == if p == PodOf(requests[i]) then AddRequest(UsageOf(requests[..i], [], p), requests[i])
         else UsageOf(requests[..i], [], p)
    {
    }
    hide UsageOf, Pods, AddRequest;
  }

  lemma InitFolded(requests: seq<Row>, init: seq<Row>, i: nat)
    requires i < |init| && !Malformed(init[i])
    ensures var pods := PodUsage(requests, init[..i]);
      PodUsage(requests, init[..i + 1]) == pods[PodOf(init[i]) := AddInit(Current(pods, PodOf(init[i])), init[i])]
  {
    OneMoreRow(init, i);
    if PodOf(init[i]) !in Pods(requests) {
      AbsentPod(requests, PodOf(init[i]));
    }
    if PodOf(init[i]) !in Pods(init[..i]) {
      AbsentPod(init[..i], PodOf(init[i]));
    }
    forall p ensures UsageOf(requests, init[..i + 1], p)
      == if p == PodOf(init[i]) then AddInit(UsageOf(requests, init[..i], p), init[i])
         else UsageOf(requests, init[..i], p)
    {
    }
  }

  method FoldPods(requests: seq<Row>, init: seq<Row>) returns (r: Option<map<Pod, Usage>>)
    ensures r.None? <==> exists row :: row in requests + init && Malformed(row)
    ensures r.Some? ==> r.value == PodUsage(requests, init)
  {
    hide PodUsage;
    var pods: map<Pod, Usage> := map[];
    NoRows();
    for i := 0 to |requests|
      invariant pods == PodUsage(requests[..i], [])
      invariant forall row | row in requests[..i] :: !Malformed(row)
    {
      var row := requests[i];
      if Malformed(row) {
        assert row in requests + init;
        return None;
      }
      OneMoreRow(requests, i);
      RequestFolded(requests, i);
      var usage := if PodOf(row) in pods then pods[PodOf(row)] else ZERO;
      usage := if row.resource.Cpu? then usage.(cpu := usage.cpu + row.value)
               else usage.(memory := usage.memory + row.value);
      pods := pods[PodOf(row) := usage];
    }
    assert requests[..|requests|] == requests;
    for i := 0 to |init|
      invariant pods == PodUsage(requests, init[..i])
      invariant forall row | row in init[..i] :: !Malformed(row)
    {
      var row := init[i];
      if Malformed(row) {
        assert row in requests + init;
        return None;
      }
      OneMoreRow(init, i);
      InitFolded(requests, init, i);
      var usage := if PodOf(row) in pods then pods[PodOf(row)] else ZERO;
      usage := if row.resource.Cpu? then usage.(initCpu := Max(usage.initCpu, row.value))
               else usage.(initMemory := Max(usage.initMemory, row.value));
      pods := pods[PodOf(row) := usage];
    }
    assert init[..|init|] == init;
    return Some(pods);
  }

  lemma NoRows()
    ensures PodUsage([], []) == map[]
  {
  }

  lemma {:induction false} AbsentPod(rows: seq<Row>, pod: Pod)
    requires pod !in Pods(rows)
    ensures SumRows(rows, pod, Cpu) == 0 && SumRows(rows, pod, Memory) == 0
    ensures MaxRows(rows, pod, Cpu) == 0 && MaxRows(rows, pod, Memory) == 0
  {
    if rows != [] {
      OneMoreRow(rows, |rows| - 1);
      assert rows[..|rows|] == rows;
      AbsentPod(rows[..|rows| - 1], pod);
    }
  }

  function CpuCharges(pods: map<Pod, Usage>): map<Pod, int> {
    map p | p in pods :: if p in pods then Max(pods[p].cpu, pods[p].initCpu) else 0
  }

  function MemoryCharges(pods: map<Pod, Usage>): map<Pod, int> {
    map p | p in pods :: if p in pods then Max(pods[p].memory, pods[p].initMemory) else 0
  }

  /** The total over all pods, in whatever order the map yields them. */
  method Total(charges: map<Pod, int>) returns (total: int)
    ensures total == Sum(charges)
  {
    total := 0;
    var left := charges;
    while left != map[]
      invariant total + Sum(left) == Sum(charges)
      decreases |left|
    {
      var p :| p in left;
      SumTake(left, p);
      total := total + left[p];
      assert left == (left - {p})[p := left[p]];
      left := left - {p};
    }
  }

  // ----- The order of metric rows does not matter -----

  /** Leaving out one row and leaving out the last one commute. */
  lemma BothLeftOut(rows: seq<Row>, k: nat)
    ensures k < |rows| - 1 ==>
      var rest, init := rows[..k] + rows[k + 1..], rows[..|rows| - 1];
      |rest| == |rows| - 1 && rest[..|rest| - 1] == init[..k] + init[k + 1..] && rest[|rest| - 1] == rows[|rows| - 1]
    ensures k < |rows| - 1 ==> rows[..|rows| - 1][k] == rows[k]
    ensures |rows| > 0 && k == |rows| - 1 ==> rows[..k] + rows[k + 1..] == rows[..|rows| - 1]
  {
  }

  lemma {:induction false} RowsSplit(rows: seq<Row>, k: nat, pod: Pod, resource: Resource)
    requires k < |rows|
    ensures SumRows(rows, pod, resource)
         == SumRows(rows[..k] + rows[k + 1..], pod, resource)
            + if Concerns(rows[k], pod, resource) then rows[k].value else 0
    ensures MaxRows(rows, pod, resource)
         == var rest := MaxRows(rows[..k] + rows[k + 1..], pod, resource);
            if Concerns(rows[k], pod, resource) then Max(rest, rows[k].value) else rest
    decreases |rows|
  {
    BothLeftOut(rows, k);
    hide Concerns;
    if k < |rows| - 1 {
      RowsSplit(rows[..|rows| - 1], k, pod, resource);
    }
  }

  /** The last row of one order found in another, with the rest still a rearrangement. */
  lemma Counterpart(a: seq<Row>, b: seq<Row>) returns (k: nat)
    requires multiset(a) == multiset(b) && a != []
    ensures k < |b| && b[k] == a[|a| - 1]
    ensures multiset(a[..|a| - 1]) == multiset(b[..k] + b[k + 1..])
  {
    var last := a[|a| - 1];
    assert a == a[..|a| - 1] + [last];
    assert last in multiset(b);
    k :| 0 <= k < |b| && b[k] == last;
    var before, after := b[..k], b[k + 1..];
    assert b == before + [last] + after;
    assert multiset(b) == multiset(before) + multiset{last} + multiset(after);
    assert multiset(before + after) == multiset(before) + multiset(after);
    assert multiset(before + after) == multiset(b) - multiset{last};
    assert multiset(a[..|a| - 1]) == multiset(a) - multiset{last};
  }

  lemma {:induction false} RowOrder(a: seq<Row>, b: seq<Row>, pod: Pod, resource: Resource)
    requires multiset(a) == multiset(b)
    ensures SumRows(a, pod, resource) == SumRows(b, pod, resource)
    ensures MaxRows(a, pod, resource) == MaxRows(b, pod, resource)
    decreases |a|
  {
    if a == [] {
      assert |multiset(b)| == |b|;
    } else {
      var n := |a| - 1;
      var k := Counterpart(a, b);
      RowOrder(a[..n], b[..k] + b[k + 1..], pod, resource);
      RowsSplit(b, k, pod, resource);
    }
  }

  /** For any order of the rows the same pods are charged the same requests. */
  lemma OrderIrrelevant(requests: seq<Row>, init: seq<Row>, requests': seq<Row>, init': seq<Row>)
    requires multiset(requests) == multiset(requests') && multiset(init) == multiset(init')
    ensures PodUsage(requests, init) == PodUsage(requests', init')
    ensures RequestedCpu(requests, init) == RequestedCpu(requests', init')
    ensures RequestedMemory(requests, init) == RequestedMemory(requests', init')
  {
    SamePods(requests, requests');
    SamePods(init, init');
    forall p, r: Resource
      ensures SumRows(requests, p, r) == SumRows(requests', p, r) && MaxRows(init, p, r) == MaxRows(init', p, r)
    {
      RowOrder(requests, requests', p, r);
      RowOrder(init, init', p, r);
    }
    TotalsAreRequests(requests, init);
    TotalsAreRequests(requests', init');
  }

  lemma SamePods(a: seq<Row>, b: seq<Row>)
    requires multiset(a) == multiset(b)
    ensures Pods(a) == Pods(b)
  {
    forall r ensures r in a <==> r in b {
      assert r in multiset(a) <==> r in multiset(b);
    }
  }

  // ----- The decision -----

  datatype NodeRow = NodeRow(node: Name, name: string, value: int)

  /** The nineteen query results. Single-valued queries are kept as the rows they returned. */
  datatype Metrics = Metrics(
    allocation: seq<NodeRow>, conditions: seq<NodeRow>, requests: seq<Row>, init: seq<Row>,
    cpuUsed: seq<int>, memoryUsed: seq<int>, diskFree: seq<int>, ages: seq<seq<int>>, samples: seq<seq<int>>,
    existingStorage: seq<int>, dataFree: seq<int>, dataAge: seq<int>,
    rootInodes: seq<int>, dataInodes: seq<int>, inodeAge: seq<int>, existingEphemeral: seq<int>)

  datatype Outcome = Admitted | Unverified | NotCleared | Unavailable

  predicate One(rows: seq<int>, low: int, high: int) { |rows| == 1 && low <= rows[0] <= high }

  predicate AtLeast(rows: seq<int>, low: int) { |rows| == 1 && low <= rows[0] }

  /** Every single value is present and plausible, and all node rows speak of one node. */
  predicate Plausible(m: Metrics) { Gauges(m) && forall r | r in m.requests + m.init :: !Malformed(r) }

  predicate Gauges(m: Metrics) {
    && AtLeast(m.existingStorage, 0) && AtLeast(m.dataFree, 0) && AtLeast(m.existingEphemeral, 0)
    && One(m.dataAge, 0, 90) && One(m.inodeAge, 0, 90)
    && One(m.rootInodes, 0, 1000) && One(m.dataInodes, 0, 1000)
    && |m.allocation| == 2 && m.allocation[0].node != NO_NAME
    && (forall r | r in m.allocation :: r.node == m.allocation[0].node)
    && |m.conditions| == 3 && (forall r | r in m.conditions :: r.node == m.allocation[0].node)
    && m.requests != []
    && (forall rows | rows in m.ages :: One(rows, 0, 90))
    && (forall rows | rows in m.samples :: AtLeast(rows, 8))
    && One(m.cpuUsed, 0, 1000) && One(m.memoryUsed, 0, 1000) && AtLeast(m.diskFree, 0)
  }

  predicate Blocked(m: Metrics) {
    exists r | r in m.conditions :: r.value != (if r.name == "Ready" then 1 else 0)
  }

  /** The allocatable amount of a resource, if exactly one row gives it. */
  function Allocated(rows: seq<NodeRow>, name: string): Option<int> {
    if |rows| != 2 then None
    else if rows[0].name == name && rows[1].name != name then Some(rows[0].value)
    else if rows[1].name == name && rows[0].name != name then Some(rows[1].value)
    else None
  }

  function Observed(m: Metrics): set<Name> { set r | r in m.requests :: r.namespace }

  /** Reservations of other accounts whose pods are not yet among the observed requests. */
  function Unobserved(pending: set<Login>, observed: set<Name>, login: Login): set<Login> {
    set l | l in pending && UserNamespace(l) !in observed && l != login
  }

  ghost function Decide(m: Metrics, pending: set<Login>, login: Login): Outcome {
    if !Plausible(m) then Unverified
    else if UserNamespace(login) in Observed(m) then NotCleared
    else
      var units := |Unobserved(pending, Observed(m), login)| + 1;
      if Blocked(m) || m.cpuUsed[0] >= 700 || m.memoryUsed[0] >= 700 then Unavailable
      else if Allocated(m.allocation, "cpu").None? then Unverified
      else if Allocated(m.allocation, "cpu").value - RequestedCpu(m.requests, m.init) - units * CPU_UNIT < CPU_FLOOR
      then Unavailable
      else if Allocated(m.allocation, "memory").None? then Unverified
      else if
        || Allocated(m.allocation, "memory").value - RequestedMemory(m.requests, m.init) - units * MEMORY_UNIT
           < MEMORY_FLOOR
        || m.diskFree[0] - m.existingEphemeral[0] - units * SCRATCH_UNIT < DISK_FLOOR
        || m.dataFree[0] - m.existingStorage[0] - units * VOLUME_UNIT < DISK_FLOOR
        || m.rootInodes[0] < 100 || m.dataInodes[0] < 100
      then Unavailable
      else Admitted
  }

  // ----- The decision, in terms of the metrics alone -----

  /** One row, with a value in this range. */
  predicate Reads(values: seq<int>, high: int) { |values| == 1 && 0 <= values[0] <= high }

  /** The rows of a pod's container and init container requests name a pod and carry an amount of CPU or memory. */
  predicate Requesting(rows: seq<Row>) {
    forall i | 0 <= i < |rows| ::
      |rows[i].namespace.text| > 0 && |rows[i].pod.text| > 0 && rows[i].value >= 0
      && (rows[i].resource == Cpu || rows[i].resource == Memory)
  }

  /** Every query has an answer of the expected shape: two rows of allocatable amounts and three conditions of one
    * named node, some requests, metrics at most 90 seconds old with at least eight samples, and one value each for
    * use (in thousandths), free space, promised space and free inodes. */
  predicate Answered(m: Metrics) {
    && |m.allocation| == 2 && |m.allocation[0].node.text| > 0 && m.allocation[1].node == m.allocation[0].node
    && |m.conditions| == 3 && (forall i | 0 <= i < 3 :: m.conditions[i].node == m.allocation[0].node)
    && |m.requests| > 0 && Requesting(m.requests) && Requesting(m.init)
    && (forall i | 0 <= i < |m.ages| :: Reads(m.ages[i], 90))
    && Reads(m.dataAge, 90) && Reads(m.inodeAge, 90)
    && (forall i | 0 <= i < |m.samples| :: |m.samples[i]| == 1 && m.samples[i][0] > 7)
    && Reads(m.cpuUsed, 1000) && Reads(m.memoryUsed, 1000)
    && Reads(m.rootInodes, 1000) && Reads(m.dataInodes, 1000)
    && |m.diskFree| == |m.dataFree| == |m.existingStorage| == |m.existingEphemeral| == 1
    && m.diskFree[0] >= 0 && m.dataFree[0] >= 0 && m.existingStorage[0] >= 0 && m.existingEphemeral[0] >= 0
  }

  /** The account has pods that request something. */
  predicate Seen(m: Metrics, login: Login) {
    exists i | 0 <= i < |m.requests| :: m.requests[i].namespace.text == "user-" + login.text
  }

  /** Accounts that will need a unit: the one to be admitted, and reserved ones without requests yet. */
  function Counted(m: Metrics, pending: set<Login>, login: Login): set<Login> {
    {login} + set l | l in pending && !Seen(m, l)
  }

  /** The node is ready and under no pressure, and less than 70 per cent of CPU and memory are in use. */
  predicate Calm(m: Metrics)
    requires Answered(m)
  {
    && (forall i | 0 <= i < 3 :: m.conditions[i].name == "Ready" ==> m.conditions[i].value == 1)
    && (forall i | 0 <= i < 3 :: m.conditions[i].name != "Ready" ==> m.conditions[i].value == 0)
    && m.cpuUsed[0] < 700 && m.memoryUsed[0] < 700
  }

  /** Exactly one of the two rows gives the amount. */
  predicate Allocates(m: Metrics, name: string, amount: int)
    requires Answered(m)
  {
    exists i | 0 <= i < 2 ::
      m.allocation[i].name == name && m.allocation[i].value == amount && m.allocation[1 - i].name != name
  }

  /** After 200 millicores for each waiting account one core is left. */
  ghost predicate CpuFits(m: Metrics, waiting: nat)
    requires Answered(m)
  {
    exists cpu :: Allocates(m, "cpu", cpu) && cpu - RequestedCpu(m.requests, m.init) >= 1000 + 200 * waiting
  }

  /** After 512 MiB for each waiting account 4 GiB are left. */
  ghost predicate MemoryFits(m: Metrics, waiting: nat)
    requires Answered(m)
  {
    exists memory ::
      Allocates(m, "memory", memory)
      && memory - RequestedMemory(m.requests, m.init) >= (4096 + 512 * waiting) * 1048576
  }

  /** After 2 GiB of scratch space and 1 GiB of storage for each waiting account, and all that is promised, 5 GiB
    * and a tenth of the inodes are free on either disk. */
  predicate DisksFit(m: Metrics, waiting: nat)
    requires Answered(m)
  {
    && m.diskFree[0] >= m.existingEphemeral[0] + (5 + 2 * waiting) * 1073741824
    && m.dataFree[0] >= m.existingStorage[0] + (5 + waiting) * 1073741824
    && m.rootInodes[0] >= 100 && m.dataInodes[0] >= 100
  }

  lemma Unnamed(name: Name)
    ensures name == NO_NAME <==> |name.text| == 0
  {
    assert |name.text| == 0 ==> name.text == "";
  }

  lemma RequestingIff(rows: seq<Row>)
    ensures (forall r | r in rows :: !Malformed(r)) <==> Requesting(rows)
  {
    forall r: Row
      ensures (r.namespace == NO_NAME <==> |r.namespace.text| == 0) && (r.pod == NO_NAME <==> |r.pod.text| == 0)
    {
      Unnamed(r.namespace);
      Unnamed(r.pod);
    }
    if forall r | r in rows :: !Malformed(r) {
      forall i | 0 <= i < |rows| ensures !Malformed(rows[i]) { assert rows[i] in rows; }
    }
    if r :| r in rows && Malformed(r) {
      var i :| 0 <= i < |rows| && rows[i] == r;
      assert !(|rows[i].namespace.text| > 0 && |rows[i].pod.text| > 0 && rows[i].value >= 0
               && (rows[i].resource == Cpu || rows[i].resource == Memory));
    }
  }

  /** The values and nodes, row by row. */
  lemma GaugesIff(m: Metrics)
    ensures Gauges(m) && Requesting(m.requests) && Requesting(m.init) <==> Answered(m)
  {
    hide Requesting;
    if |m.allocation| == 2 {
      Unnamed(m.allocation[0].node);
      assert m.allocation[1] in m.allocation && m.allocation[0] in m.allocation;
    }
    if Gauges(m) {
      forall i | 0 <= i < 3 ensures m.conditions[i].node == m.allocation[0].node {
        assert m.conditions[i] in m.conditions;
      }
      forall i | 0 <= i < |m.ages| ensures Reads(m.ages[i], 90) { assert m.ages[i] in m.ages; }
      forall i | 0 <= i < |m.samples| ensures |m.samples[i]| == 1 && m.samples[i][0] > 7 {
        assert m.samples[i] in m.samples;
      }
    }
  }

  lemma AnsweredIff(m: Metrics)
    ensures Plausible(m) <==> Answered(m)
  {
    RequestingIff(m.requests);
    RequestingIff(m.init);
    GaugesIff(m);
    hide Malformed, Requesting, Gauges, Answered;
    assert forall r :: r in m.requests + m.init <==> r in m.requests || r in m.init;
  }

  lemma SeenIff(m: Metrics, login: Login)
    ensures UserNamespace(login) in Observed(m) <==> Seen(m, login)
  {
  }

  lemma CountedIs(m: Metrics, pending: set<Login>, login: Login)
    ensures |Unobserved(pending, Observed(m), login)| + 1 == |Counted(m, pending, login)|
  {
    forall l ensures UserNamespace(l) in Observed(m) <==> Seen(m, l) { SeenIff(m, l); }
    hide UserNamespace, Observed, Seen;
    assert Counted(m, pending, login) == Unobserved(pending, Observed(m), login) + {login};
  }

  lemma CalmIff(m: Metrics)
    requires Answered(m)
    ensures Calm(m) <==> !Blocked(m) && m.cpuUsed[0] < 700 && m.memoryUsed[0] < 700
  {
    assert m.conditions[0] in m.conditions && m.conditions[1] in m.conditions && m.conditions[2] in m.conditions;
  }

  lemma AllocatesIff(m: Metrics, name: string, amount: int)
    requires Answered(m)
    ensures Allocates(m, name, amount) <==> Allocated(m.allocation, name) == Some(amount)
  {
  }

  lemma FitsIff(m: Metrics, waiting: nat)
    requires Answered(m)
    ensures var cpu, memory := Allocated(m.allocation, "cpu"), Allocated(m.allocation, "memory");
      && (CpuFits(m, waiting) <==>
          cpu.Some? && cpu.value - RequestedCpu(m.requests, m.init) - waiting * CPU_UNIT >= CPU_FLOOR)
      && (MemoryFits(m, waiting) <==>
          memory.Some?
          && memory.value - RequestedMemory(m.requests, m.init) - waiting * MEMORY_UNIT >= MEMORY_FLOOR)
      && (cpu.None? <==> forall c :: !Allocates(m, "cpu", c))
      && (memory.None? <==> forall c :: !Allocates(m, "memory", c))
  {
    forall amount ensures Allocates(m, "cpu", amount) <==> Allocated(m.allocation, "cpu") == Some(amount)
      ensures Allocates(m, "memory", amount) <==> Allocated(m.allocation, "memory") == Some(amount)
    {
      AllocatesIff(m, "cpu", amount);
      AllocatesIff(m, "memory", amount);
    }
    hide RequestedCpu, RequestedMemory, Allocates, Allocated, Answered;
  }

  /** When each outcome is given. */
  lemma Outcomes(m: Metrics, pending: set<Login>, login: Login)
    ensures var outcome, waiting := Decide(m, pending, login), |Counted(m, pending, login)|;
      if !Answered(m) then outcome.Unverified?
      else if Seen(m, login) then outcome.NotCleared?
      else
        && (outcome.Admitted? <==>
            Calm(m) && CpuFits(m, waiting) && MemoryFits(m, waiting) && DisksFit(m, waiting))
        && (outcome.Unverified? <==>
            Calm(m) && ((forall cpu :: !Allocates(m, "cpu", cpu))
                        || (CpuFits(m, waiting) && forall memory :: !Allocates(m, "memory", memory))))
        && !outcome.NotCleared?
  {
    AnsweredIff(m);
    SeenIff(m, login);
    CountedIs(m, pending, login);
    if Answered(m) {
      CalmIff(m);
      FitsIff(m, |Counted(m, pending, login)|);
    }
    hide Plausible, Answered, Seen, Observed, Counted, Unobserved, Calm, Blocked, Allocates, Allocated, UserNamespace;
    hide RequestedCpu, RequestedMemory, CpuFits, MemoryFits;
  }

  function StillPending(reservations: map<Login, int>, observed: set<Name>): map<Login, int> {
    reservations - set l | l in reservations && UserNamespace(l) in observed
  }

  /** Reservations after an admission: observed accounts are released, the new one is added; an older
    * reservation of the same account keeps its time. */
  function AfterAdmission(reservations: map<Login, int>, observed: set<Name>, login: Login, at: int): map<Login, int> {
    var left := StillPending(reservations, observed);
    if login in left then left else left[login := at]
  }

  class AdmissionService {
    var reservations: map<Login, int>

    method Reserve(m: Metrics, login: Login, at: int) returns (outcome: Outcome)
      modifies this
      ensures outcome == Decide(m, old(reservations).Keys, login)
      ensures reservations == if outcome.Admitted? then AfterAdmission(old(reservations), Observed(m), login, at)
                              else old(reservations)
    {
      hide RequestedCpu, RequestedMemory, PodUsage, Blocked;
      if !Gauges(m) {
        return Unverified;
      }
      var pods := FoldPods(m.requests, m.init);
      if pods.None? {
        return Unverified;
      }
      if UserNamespace(login) in Observed(m) {
        return NotCleared;
      }
      var requestedCpu := Total(CpuCharges(pods.value));
      var requestedMemory := Total(MemoryCharges(pods.value));
      TotalsAreRequests(m.requests, m.init);
      var units := |Unobserved(reservations.Keys, Observed(m), login)| + 1;
      if Blocked(m) || m.cpuUsed[0] >= 700 || m.memoryUsed[0] >= 700 {
        return Unavailable;
      }
      var cpu := Allocated(m.allocation, "cpu");
      if cpu.None? { return Unverified; }
      if cpu.value - requestedCpu - units * CPU_UNIT < CPU_FLOOR { return Unavailable; }
      var memory := Allocated(m.allocation, "memory");
      if memory.None? { return Unverified; }
      if || memory.value - requestedMemory - units * MEMORY_UNIT < MEMORY_FLOOR
         || m.diskFree[0] - m.existingEphemeral[0] - units * SCRATCH_UNIT < DISK_FLOOR
         || m.dataFree[0] - m.existingStorage[0] - units * VOLUME_UNIT < DISK_FLOOR
         || m.rootInodes[0] < 100 || m.dataInodes[0] < 100 {
        return Unavailable;
      }
      Release(Observed(m));
      if login !in reservations {
        reservations := reservations[login := at];
      }
      return Admitted;
    }

    /** Reservations of accounts whose pods are observed are dropped one by one. */
    method Release(observed: set<Name>)
      modifies this
      ensures reservations == StillPending(old(reservations), observed)
    {
      var pending := reservations.Keys;
      while pending != {}
        invariant pending <= old(reservations).Keys
        invariant reservations == old(reservations)
                                  - set l | l in old(reservations) && l !in pending && UserNamespace(l) in observed
      {
        var l :| l in pending;
        pending := pending - {l};
        if UserNamespace(l) in observed {
          reservations := reservations - {l};
        }
      }
    }
  }

  lemma TotalsAreRequests(requests: seq<Row>, init: seq<Row>)
    ensures Sum(CpuCharges(PodUsage(requests, init))) == RequestedCpu(requests, init)
    ensures Sum(MemoryCharges(PodUsage(requests, init))) == RequestedMemory(requests, init)
  {
    var pods := PodUsage(requests, init);
    assert CpuCharges(pods)
        == map p | p in Pods(requests) + Pods(init) :: Max(SumRows(requests, p, Cpu), MaxRows(init, p, Cpu));
    assert MemoryCharges(pods)
        == map p | p in Pods(requests) + Pods(init) :: Max(SumRows(requests, p, Memory), MaxRows(init, p, Memory));
  }
}
