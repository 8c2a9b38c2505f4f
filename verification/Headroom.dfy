/** Runs of the cluster under admission.
  *
  * Accounts reserve, register, appear in the metrics, create and fill volumes, are rolled out again,
  * stopped and recreated, deleted and recovered, in any order. Metrics are sampled first and judged later:
  * they may be as old as the metrics store allows, so whatever other accounts do goes on in between.
  */
module Headroom {
  import opened Common
  import opened Sums
  import opened Admission

  /** One app and what its pods request at the moment; two pods of the template are one reserved unit. */
  datatype App = App(seen: bool, cpu: nat, memory: nat, scratchLimit: nat, scratchUsed: nat, volume: bool, written: nat)

  datatype Cluster = Cluster(cpu: int, memory: int, otherCpu: int, otherMemory: int, rootFree: int, dataFree: int,
                             apps: map<Login, App>, reservations: map<Login, int>)

  datatype Quantity = CpuTime | Memory | Scratch | Volume

  /** An amount of each quantity. */
  datatype Amounts = Amounts(cpu: int, memory: int, scratch: int, volume: int) {
    function At(q: Quantity): int {
      match q case CpuTime => cpu case Memory => memory case Scratch => scratch case Volume => volume
    }
  }

  const NOTHING := Amounts(0, 0, 0, 0)
  const UNREGISTERED := App(false, 0, 0, 0, 0, false, 0)

  function Unit(q: Quantity): nat {
    match q case CpuTime => CPU_UNIT case Memory => MEMORY_UNIT case Scratch => SCRATCH_UNIT case Volume => VOLUME_UNIT
  }

  function Floor(q: Quantity): int {
    match q case CpuTime => CPU_FLOOR case Memory => MEMORY_FLOOR case Scratch => DISK_FLOOR case Volume => DISK_FLOOR
  }

  function AppOf(s: Cluster, l: Login): App { if l in s.apps then s.apps[l] else UNREGISTERED }

  function Supply(s: Cluster, q: Quantity): int {
    match q
    case CpuTime => s.cpu - s.otherCpu
    case Memory => s.memory - s.otherMemory
    case Scratch => s.rootFree
    case Volume => s.dataFree
  }

  /** What an app requests of a quantity, with the part of it that is in use. */
  function Request(app: App, q: Quantity): nat {
    match q
    case CpuTime => app.cpu
    case Memory => app.memory
    case Scratch => app.scratchLimit
    case Volume => if app.volume then VOLUME_UNIT else 0
  }

  function Used(app: App, q: Quantity): nat {
    match q
    case CpuTime => 0
    case Memory => 0
    case Scratch => if app.seen then app.scratchUsed else 0
    case Volume => if app.volume then app.written else 0
  }

  /** What an account claims: a volume in full, what a seen app requests, and a full unit of everything
    * while the account is only reserved. */
  function Claim(s: Cluster, q: Quantity, l: Login): nat {
    var app := AppOf(s, l);
    if app.seen || (q.Volume? && app.volume) then Request(app, q) else if l in s.reservations then Unit(q) else 0
  }

  /** What an account may still take. */
  function Demand(s: Cluster, q: Quantity, l: Login): int { Claim(s, q, l) - Used(AppOf(s, l), q) }

  function Demands(s: Cluster, q: Quantity): map<Login, int> {
    map l | l in s.apps.Keys + s.reservations.Keys :: Demand(s, q, l)
  }

  ghost function Headroom(s: Cluster, q: Quantity): int { Supply(s, q) - Sum(Demands(s, q)) }

  /** Every promise can be met and the platform keeps its own share. */
  ghost predicate Safe(s: Cluster) { forall q :: Headroom(s, q) >= Floor(q) }

  predicate WellFormed(s: Cluster) {
    forall l | l in s.apps ::
      var app := s.apps[l];
      && app.cpu <= CPU_UNIT && app.memory <= MEMORY_UNIT && app.scratchLimit <= SCRATCH_UNIT
      && app.scratchUsed <= app.scratchLimit && app.written <= VOLUME_UNIT
  }

  // ----- Sampling and judging -----

  function SeenMap(s: Cluster, f: App -> int): map<Login, int> {
    map l | l in s.apps && s.apps[l].seen :: if l in s.apps && s.apps[l].seen then f(s.apps[l]) else 0
  }

  function VolumeRequests(s: Cluster): map<Login, int> {
    map l | l in s.apps && s.apps[l].volume :: if l in s.apps && s.apps[l].volume then VOLUME_UNIT else 0
  }

  /** The metrics describe the cluster: node totals, what is requested, stored and free, who is seen. */
  ghost predicate Accurate(s: Cluster, m: Metrics) {
    && Plausible(m)
    && (Allocated(m.allocation, "cpu").Some? ==> Allocated(m.allocation, "cpu").value == s.cpu)
    && (Allocated(m.allocation, "memory").Some? ==> Allocated(m.allocation, "memory").value == s.memory)
    && RequestedCpu(m.requests, m.init) == s.otherCpu + Sum(SeenMap(s, (a: App) => a.cpu))
    && RequestedMemory(m.requests, m.init) == s.otherMemory + Sum(SeenMap(s, (a: App) => a.memory))
    && m.existingEphemeral[0] == Sum(SeenMap(s, (a: App) => a.scratchLimit))
    && m.existingStorage[0] == Sum(VolumeRequests(s))
    && m.diskFree[0] == s.rootFree
    && m.dataFree[0] == s.dataFree
    && forall l :: UserNamespace(l) in Observed(m) <==> AppOf(s, l).seen
  }

  /** What the decision compares with a floor, for a number of reserved units. */
  ghost function Measured(m: Metrics, q: Quantity, units: nat): int
    requires Plausible(m) && Allocated(m.allocation, "cpu").Some? && Allocated(m.allocation, "memory").Some?
  {
    match q
    case CpuTime => Allocated(m.allocation, "cpu").value - RequestedCpu(m.requests, m.init) - units * CPU_UNIT
    case Memory => Allocated(m.allocation, "memory").value - RequestedMemory(m.requests, m.init) - units * MEMORY_UNIT
    case Scratch => m.diskFree[0] - m.existingEphemeral[0] - units * SCRATCH_UNIT
    case Volume => m.dataFree[0] - m.existingStorage[0] - units * VOLUME_UNIT
  }

  lemma AdmittedMeasures(m: Metrics, pending: set<Login>, login: Login)
    requires Decide(m, pending, login).Admitted?
    ensures Plausible(m) && Allocated(m.allocation, "cpu").Some? && Allocated(m.allocation, "memory").Some?
    ensures forall q :: Measured(m, q, |Unobserved(pending, Observed(m), login)| + 1) >= Floor(q)
  {
    hide RequestedCpu, RequestedMemory, Plausible, Unobserved;
  }

  // ----- Steps -----

  /** `pending` is what claims have grown by since the outstanding sample and what that sample no longer
    * charges; `owed` is the same of the last admission, grown since; neither influences a step. */
  datatype State = State(cluster: Cluster, sample: Option<(Metrics, Login)>, pending: Amounts, owed: Option<Amounts>)

  datatype Step =
    | Sample(m: Metrics, login: Login)
    | Judge(at: int)
    | Register(l: Login)
    | CreateVolume(l: Login)
    | Appear(l: Login, cpu: nat, memory: nat, scratchLimit: nat)
    | Rollout(l: Login, cpu: nat, memory: nat, scratchLimit: nat, scratchUsed: nat)
    | Stop(l: Login)
    | WriteVolume(l: Login, bytes: nat)
    | WriteScratch(l: Login, bytes: nat)
    | Unregister(l: Login)
    | Gone(l: Login)
    | Recover(l: Login)
    | OthersRelease(cpu: nat, memory: nat, root: nat, data: nat)

  /** Two pods of the template. */
  predicate WithinUnit(cpu: nat, memory: nat, scratchLimit: nat) {
    cpu <= CPU_UNIT && memory <= MEMORY_UNIT && scratchLimit <= SCRATCH_UNIT
  }

  /** What may happen. The reservation of an app goes with its registration, while the app may linger and still
    * be synced. The pods of a stateful app stop before new ones appear. An account to be admitted has no app
    * from its sample to its judgement, and one admission is judged before the next one's sample. */
  predicate Enabled(st: State, step: Step) {
    var s := st.cluster;
    match step
    case Sample(m, login) => st.sample.None? && login !in s.apps
    case Judge(_) => st.sample.Some?
    case Register(l) => l in s.reservations && l !in s.apps && (st.sample.Some? ==> st.sample.value.1 != l)
    case CreateVolume(l) => l in s.apps && !s.apps[l].volume
    case Appear(l, cpu, memory, scratchLimit) =>
      l in s.apps && !s.apps[l].seen && WithinUnit(cpu, memory, scratchLimit)
    case Rollout(l, cpu, memory, scratchLimit, scratchUsed) =>
      && l in s.apps && s.apps[l].seen && WithinUnit(cpu, memory, scratchLimit)
      && scratchUsed <= s.apps[l].scratchUsed && scratchUsed <= scratchLimit
    case Stop(l) => l in s.apps && s.apps[l].seen
    case WriteVolume(l, bytes) => l in s.apps && s.apps[l].volume && s.apps[l].written + bytes <= VOLUME_UNIT
    case WriteScratch(l, bytes) =>
      l in s.apps && s.apps[l].seen && s.apps[l].scratchUsed + bytes <= s.apps[l].scratchLimit
    case Unregister(l) => true
    case Gone(l) => l in s.apps && l !in s.reservations
    case Recover(l) => l !in s.apps
    case OthersRelease(_, _, _, _) => true
  }

  function WithApp(s: Cluster, l: Login, app: App): Cluster { s.(apps := s.apps[l := app]) }

  function Appeared(app: App, cpu: nat, memory: nat, scratchLimit: nat): App {
    app.(seen := true, cpu := cpu, memory := memory, scratchLimit := scratchLimit, scratchUsed := 0)
  }

  /** The cluster after any step but a judgement; a pod that ends gives its scratch space back. */
  function After(st: State, step: Step): Cluster
    requires Enabled(st, step) && !step.Judge?
  {
    var s := st.cluster;
    match step
    case Sample(_, _) => s
    case Register(l) => WithApp(s, l, UNREGISTERED)
    case CreateVolume(l) => WithApp(s, l, s.apps[l].(volume := true, written := 0))
    case Appear(l, cpu, memory, scratchLimit) => WithApp(s, l, Appeared(s.apps[l], cpu, memory, scratchLimit))
    case Rollout(l, cpu, memory, scratchLimit, scratchUsed) =>
      WithApp(s.(rootFree := s.rootFree + s.apps[l].scratchUsed - scratchUsed), l,
              s.apps[l].(cpu := cpu, memory := memory, scratchLimit := scratchLimit, scratchUsed := scratchUsed))
    case Stop(l) =>
      WithApp(s.(rootFree := s.rootFree + s.apps[l].scratchUsed), l, s.apps[l].(seen := false, scratchUsed := 0))
    case WriteVolume(l, bytes) =>
      WithApp(s.(dataFree := s.dataFree - bytes), l, s.apps[l].(written := s.apps[l].written + bytes))
    case WriteScratch(l, bytes) =>
      WithApp(s.(rootFree := s.rootFree - bytes), l, s.apps[l].(scratchUsed := s.apps[l].scratchUsed + bytes))
    case Unregister(l) => s.(reservations := s.reservations - {l})
    case Gone(l) =>
      s.(apps := s.apps - {l}, dataFree := s.dataFree + Used(s.apps[l], Volume),
         rootFree := s.rootFree + Used(s.apps[l], Scratch))
    case Recover(l) => s.(reservations := s.reservations - {l})
    case OthersRelease(cpu, memory, root, data) =>
      s.(otherCpu := s.otherCpu - cpu, otherMemory := s.otherMemory - memory,
         rootFree := s.rootFree + root, dataFree := s.dataFree + data)
  }

  /** No account claims more than one unit of anything, nor uses more than it claims once it is seen. */
  lemma ClaimsBounded(s: Cluster, l: Login, q: Quantity)
    requires WellFormed(s)
    ensures Claim(s, q, l) <= Unit(q)
    ensures 0 <= Demand(s, q, l) <= Claim(s, q, l)
  {
  }

  /** An app may fill its volume and its scratch space to the last byte it was promised. */
  lemma MayFill(st: State, l: Login)
    requires WellFormed(st.cluster) && l in st.cluster.apps
    ensures var app := st.cluster.apps[l];
      app.volume ==>
        var step := WriteVolume(l, VOLUME_UNIT - app.written);
        Enabled(st, step) && Demand(After(st, step), Volume, l) == 0
    ensures var app := st.cluster.apps[l];
      app.seen ==>
        var step := WriteScratch(l, app.scratchLimit - app.scratchUsed);
        Enabled(st, step) && Demand(After(st, step), Scratch, l) == 0
  {
  }

  /** By how much a step raises what is claimed, or lowers it if negative. */
  function Growth(st: State, step: Step, q: Quantity): int
    requires Enabled(st, step) && !step.Judge?
  {
    if step.Sample? then 0
    else if step.OthersRelease? then -Amounts(step.cpu, step.memory, step.root, step.data).At(q)
    else Claim(After(st, step), q, step.l) - Claim(st.cluster, q, step.l)
  }

  function Grown(a: Amounts, st: State, step: Step): Amounts
    requires Enabled(st, step) && !step.Judge?
  {
    Amounts(a.cpu + Growth(st, step, CpuTime), a.memory + Growth(st, step, Quantity.Memory),
            a.scratch + Growth(st, step, Scratch), a.volume + Growth(st, step, Volume))
  }

  /** An account that the sample did not see loses its reservation before the judgement, which then charges
    * nothing for it. */
  predicate Drops(st: State, step: Step) {
    && st.sample.Some? && (step.Unregister? || step.Recover?) && step.l in st.cluster.reservations
    && (UserNamespace(step.l) !in Observed(st.sample.value.0) || step.l == st.sample.value.1)
  }

  /** What the sample understates because of a step. */
  function Uncharged(st: State, step: Step, q: Quantity): nat { if Drops(st, step) then Unit(q) else 0 }

  /** What is claimed beyond the sample, after a step. */
  function Outgrown(a: Amounts, st: State, step: Step): Amounts
    requires Enabled(st, step) && !step.Judge?
  {
    var g := Grown(a, st, step);
    Amounts(g.cpu + Uncharged(st, step, CpuTime), g.memory + Uncharged(st, step, Quantity.Memory),
            g.scratch + Uncharged(st, step, Scratch), g.volume + Uncharged(st, step, Volume))
  }

  ghost function Next(st: State, step: Step): State
    requires Enabled(st, step)
  {
    var s := st.cluster;
    match step
    case Judge(at) =>
      var (m, login) := st.sample.value;
      if Decide(m, s.reservations.Keys, login).Admitted?
      then State(s.(reservations := AfterAdmission(s.reservations, Observed(m), login, at)), None, NOTHING,
                 Some(st.pending))
      else State(s, None, NOTHING, st.owed)
    case Sample(m, login) => st.(sample := Some((m, login)), pending := NOTHING)
    case _ =>
      State(After(st, step), st.sample, Outgrown(st.pending, st, step),
            if st.owed.Some? then Some(Grown(st.owed.value, st, step)) else None)
  }

  // ----- One account changes at a time -----

  lemma OthersSame(s: Cluster, s': Cluster, l: Login, q: Quantity, other: Login)
    requires s'.apps - {l} == s.apps - {l} && s'.reservations - {l} == s.reservations - {l} && other != l
    ensures (other in s'.apps <==> other in s.apps) && (other in s'.reservations <==> other in s.reservations)
    ensures Demand(s', q, other) == Demand(s, q, other)
  {
    assert other in s'.apps <==> other in s'.apps - {l};
    assert other in s.apps <==> other in s.apps - {l};
    assert other in s'.reservations <==> other in s'.reservations - {l};
    assert other in s.reservations <==> other in s.reservations - {l};
    assert other in s.apps ==> (s'.apps - {l})[other] == (s.apps - {l})[other];
  }

  lemma OneChanges(s: Cluster, s': Cluster, l: Login, q: Quantity)
    requires s'.apps - {l} == s.apps - {l} && s'.reservations - {l} == s.reservations - {l}
    ensures Headroom(s', q) - Supply(s', q) + Demand(s', q, l) == Headroom(s, q) - Supply(s, q) + Demand(s, q, l)
  {
    hide Demand, Supply;
    forall other | other != l
      ensures (other in s'.apps <==> other in s.apps) && (other in s'.reservations <==> other in s.reservations)
      ensures Demand(s', q, other) == Demand(s, q, other)
    {
      OthersSame(s, s', l, q, other);
    }
    NoDemand(s, q, l);
    NoDemand(s', q, l);
    assert Demands(s', q) - {l} == Demands(s, q) - {l};
    SumDiffer(Demands(s, q), Demands(s', q), l);
  }

  lemma NoDemand(s: Cluster, q: Quantity, l: Login)
    ensures l !in s.apps.Keys + s.reservations.Keys ==> Demand(s, q, l) == 0
  {
  }

  lemma WellFormedKept(st: State, step: Step)
    requires Enabled(st, step) && WellFormed(st.cluster)
    ensures WellFormed(Next(st, step).cluster)
  {
    hide Decide, AfterAdmission, Grown;
  }

  lemma OthersApart(st: State, step: Step)
    requires Enabled(st, step) && !step.Judge? && !step.Sample? && !step.OthersRelease?
    ensures After(st, step).apps - {step.l} == st.cluster.apps - {step.l}
    ensures After(st, step).reservations - {step.l} == st.cluster.reservations - {step.l}
  {
  }

  /** What is put into use comes out of the supply. */
  lemma SupplyFollowsUse(st: State, step: Step, q: Quantity)
    requires Enabled(st, step) && !step.Judge? && !step.Sample? && !step.OthersRelease?
    ensures var s, s' := st.cluster, After(st, step);
      Supply(s', q) + Used(AppOf(s', step.l), q) == Supply(s, q) + Used(AppOf(s, step.l), q)
  {
  }

  /** Every step but an admission lowers the headroom of each quantity by exactly what claims grow. */
  lemma HeadroomChanges(st: State, step: Step, q: Quantity)
    requires Enabled(st, step) && !step.Judge?
    ensures Headroom(After(st, step), q) == Headroom(st.cluster, q) - Growth(st, step, q)
  {
    var s, s' := st.cluster, After(st, step);
    if step.OthersRelease? {
      assert Demands(s', q) == Demands(s, q);
    } else if !step.Sample? {
      OthersApart(st, step);
      SupplyFollowsUse(st, step, q);
      OneChanges(s, s', step.l, q);
      hide Headroom, Demands, Supply, Used, Claim, After;
    }
  }

  // ----- The outstanding sample stays a lower bound -----

  /** What was measured still bounds what is left for everybody but the sampled account, up to what claims
    * have grown by since. */
  ghost predicate Bounds(s: Cluster, m: Metrics, login: Login, pending: Amounts) {
    && login !in s.apps
    && Plausible(m)
    && (Allocated(m.allocation, "cpu").Some? && Allocated(m.allocation, "memory").Some? ==>
        forall q :: Headroom(s, q) + Demand(s, q, login) + pending.At(q)
                    >= Measured(m, q, |Unobserved(s.reservations.Keys, Observed(m), login)|))
  }

  /** Every quantity has its floor but for what is owed. */
  ghost predicate Owes(s: Cluster, owed: Amounts) { forall q :: Headroom(s, q) + owed.At(q) >= Floor(q) }

  ghost predicate Inv(st: State) {
    && WellFormed(st.cluster)
    && (st.sample.Some? ==> Bounds(st.cluster, st.sample.value.0, st.sample.value.1, st.pending))
    && (st.owed.Some? ==> Owes(st.cluster, st.owed.value))
  }

  function Charges(s: Cluster, q: Quantity): map<Login, int> {
    match q
    case CpuTime => SeenMap(s, (a: App) => a.cpu)
    case Memory => SeenMap(s, (a: App) => a.memory)
    case Scratch => SeenMap(s, (a: App) => a.scratchLimit)
    case Volume => VolumeRequests(s)
  }

  /** What the other accounts may take is charged by the metrics or by a reserved unit each. */
  lemma OthersCharged(s: Cluster, m: Metrics, login: Login, q: Quantity, l: Login)
    requires WellFormed(s) && Accurate(s, m) && login !in s.apps && l != login
    ensures var units := Unobserved(s.reservations.Keys, Observed(m), login);
      Demand(s, q, l) <= if l in Charges(s, q) then Charges(s, q)[l] else if l in units then Unit(q) else 0
  {
    assert UserNamespace(l) in Observed(m) <==> AppOf(s, l).seen;
    hide UserNamespace, Observed, Plausible;
  }

  lemma ChargesMeasured(s: Cluster, m: Metrics, q: Quantity, units: nat)
    requires WellFormed(s) && Accurate(s, m)
    requires Allocated(m.allocation, "cpu").Some? && Allocated(m.allocation, "memory").Some?
    ensures Supply(s, q) - Sum(Charges(s, q)) - Unit(q) * units == Measured(m, q, units)
    ensures forall l | l in Charges(s, q) :: Charges(s, q)[l] >= 0
  {
    hide RequestedCpu, RequestedMemory, Plausible, Allocated;
  }

  lemma SampleBounds(s: Cluster, m: Metrics, login: Login)
    requires WellFormed(s) && Accurate(s, m) && login !in s.apps
    ensures Bounds(s, m, login, NOTHING)
  {
    if Allocated(m.allocation, "cpu").Some? && Allocated(m.allocation, "memory").Some? {
      var units := Unobserved(s.reservations.Keys, Observed(m), login);
      forall q ensures Headroom(s, q) + Demand(s, q, login) >= Measured(m, q, |units|) {
        OthersBounded(s, m, login, q);
      }
    }
  }

  lemma OthersBounded(s: Cluster, m: Metrics, login: Login, q: Quantity)
    requires WellFormed(s) && Accurate(s, m) && login !in s.apps
    requires Allocated(m.allocation, "cpu").Some? && Allocated(m.allocation, "memory").Some?
    ensures Headroom(s, q) + Demand(s, q, login)
         >= Measured(m, q, |Unobserved(s.reservations.Keys, Observed(m), login)|)
  {
    var units := Unobserved(s.reservations.Keys, Observed(m), login);
    var others := Demands(s, q) - {login};
    forall l | l in others
      ensures others[l] <= if l in Charges(s, q) then Charges(s, q)[l] else if l in units then Unit(q) else 0
    {
      OthersCharged(s, m, login, q, l);
    }
    NoDemand(s, q, login);
    ChargesMeasured(s, m, q, |units|);
    hide Demand, Accurate, Charges, Measured, Plausible, Unobserved, WellFormed;
    SumDiffer(Demands(s, q), others, login);
    SumCovered(others, Charges(s, q), Constant(units, Unit(q)));
    SumConstant(units, Unit(q));
  }

  // ----- Admission -----

  /** Judging keeps the sampled account's unit back: after an admission every quantity has its floor, but
    * for what claims have grown by since the sample, and what the sample no longer charges. */
  lemma AdmissionEstablishesFloors(st: State, at: int)
    requires Inv(st) && Enabled(st, Judge(at)) && Admits(st, Judge(at))
    ensures Owes(Next(st, Judge(at)).cluster, st.pending) && Inv(Next(st, Judge(at)))
  {
    hide Headroom, AfterAdmission, Observed, Plausible, Measured, Bounds;
    forall q ensures Headroom(Next(st, Judge(at)).cluster, q) + st.pending.At(q) >= Floor(q) {
      FloorLeft(st, at, q);
    }
  }

  lemma FloorLeft(st: State, at: int, q: Quantity)
    requires Inv(st) && Admits(st, Judge(at))
    ensures var s, m, login := st.cluster, st.sample.value.0, st.sample.value.1;
      var s' := s.(reservations := AfterAdmission(s.reservations, Observed(m), login, at));
      Headroom(s', q) + st.pending.At(q) >= Floor(q)
  {
    var s, m, login := st.cluster, st.sample.value.0, st.sample.value.1;
    var units := |Unobserved(s.reservations.Keys, Observed(m), login)|;
    AdmittedMeasures(m, s.reservations.Keys, login);
    Judged(s, m, login, st.pending, at, q);
    MeasuredUnits(m, q, units, units + 1);
    OneMore(Unit(q), units);
    hide Headroom, AfterAdmission, Observed, Plausible, Measured, Decide, Demand, Allocated, Unobserved;
  }

  /** Dropping reservations of observed accounts raises no demand; the new one takes one unit. */
  lemma Judged(s: Cluster, m: Metrics, login: Login, pending: Amounts, at: int, q: Quantity)
    requires WellFormed(s) && Bounds(s, m, login, pending)
    ensures var s' := s.(reservations := AfterAdmission(s.reservations, Observed(m), login, at));
      Headroom(s', q) >= Headroom(s, q) + Demand(s, q, login) - Unit(q)
  {
    var s' := s.(reservations := AfterAdmission(s.reservations, Observed(m), login, at));
    var others, others' := Demands(s, q) - {login}, Demands(s', q) - {login};
    hide AfterAdmission, Bounds, Observed, Supply, Claim, Used, WellFormed;
    forall l | l != login
      ensures 0 <= Demand(s', q, l) <= Demand(s, q, l)
      ensures l in s'.apps.Keys + s'.reservations.Keys ==> l in s.apps.Keys + s.reservations.Keys
    {
      OtherJudged(s, m, login, at, q, l);
    }
    OwnJudged(s, m, login, pending, at, q);
    NoDemand(s, q, login);
    NoDemand(s', q, login);
    assert forall l | l in others' :: l in others && others'[l] <= others[l];
    hide Demand, Demands;
    SumDiffer(Demands(s, q), others, login);
    SumDiffer(Demands(s', q), others', login);
    SumAtMost(others', others);
    assert Supply(s', q) == Supply(s, q) by { SupplyOnly(s, s'.reservations, q); }
  }

  lemma SupplyOnly(s: Cluster, reservations: map<Login, int>, q: Quantity)
    ensures Supply(s.(reservations := reservations), q) == Supply(s, q)
  {
  }

  lemma OtherJudged(s: Cluster, m: Metrics, login: Login, at: int, q: Quantity, l: Login)
    requires WellFormed(s) && l != login
    ensures var s' := s.(reservations := AfterAdmission(s.reservations, Observed(m), login, at));
      && 0 <= Demand(s', q, l) <= Demand(s, q, l)
      && (l in s'.apps.Keys + s'.reservations.Keys ==> l in s.apps.Keys + s.reservations.Keys)
  {
    var r := AfterAdmission(s.reservations, Observed(m), login, at);
    assert l in r ==> l in s.reservations;
    hide AfterAdmission, Observed;
  }

  lemma OwnJudged(s: Cluster, m: Metrics, login: Login, pending: Amounts, at: int, q: Quantity)
    requires Bounds(s, m, login, pending)
    ensures Demand(s.(reservations := AfterAdmission(s.reservations, Observed(m), login, at)), q, login) <= Unit(q)
  {
    hide Headroom, Measured, Plausible, AfterAdmission, Observed;
  }

  // ----- Whole runs -----

  /** A sampling step must bring accurate metrics. */
  ghost predicate Allowed(st: State, step: Step) {
    Enabled(st, step) && (step.Sample? ==> Accurate(st.cluster, step.m))
  }

  /** What is on the ledger follows the headroom. */
  lemma LedgerFollows(st: State, step: Step, a: Amounts, q: Quantity)
    requires Enabled(st, step) && !step.Judge?
    ensures Headroom(After(st, step), q) + Grown(a, st, step).At(q) == Headroom(st.cluster, q) + a.At(q)
  {
    HeadroomChanges(st, step, q);
    hide Headroom, Enabled, After, Growth;
  }

  lemma OwesChanges(st: State, step: Step, owed: Amounts)
    requires Enabled(st, step) && !step.Judge? && Owes(st.cluster, owed)
    ensures Owes(After(st, step), Grown(owed, st, step))
  {
    hide Headroom, Enabled, After, Grown;
    forall q ensures Headroom(After(st, step), q) + Grown(owed, st, step).At(q) >= Floor(q) {
      LedgerFollows(st, step, owed, q);
    }
  }

  /** While a sample is outstanding its account has no app, and reservations only go. */
  lemma SampledApart(st: State, step: Step)
    requires Inv(st) && Enabled(st, step) && st.sample.Some? && !step.Judge?
    ensures var s, s', login := st.cluster, After(st, step), st.sample.value.1;
      && login !in s.apps && login !in s'.apps
      && s'.reservations == if step.Unregister? || step.Recover? then s.reservations - {step.l} else s.reservations
  {
    hide Owes;
    assert st.sample.value.1 !in st.cluster.apps by { Unregistered(st); }
  }

  lemma Unregistered(st: State)
    ensures Inv(st) && st.sample.Some? ==> st.sample.value.1 !in st.cluster.apps
  {
  }

  lemma BoundsShift(s: Cluster, s': Cluster, m: Metrics, login: Login, pending: Amounts, pending': Amounts,
                    units: nat, units': nat)
    requires Bounds(s, m, login, pending) && login !in s'.apps
    requires units == |Unobserved(s.reservations.Keys, Observed(m), login)|
    requires units' == |Unobserved(s'.reservations.Keys, Observed(m), login)|
    requires forall q ::
      Headroom(s', q) + Demand(s', q, login) + pending'.At(q) + Unit(q) * units'
      == Headroom(s, q) + Demand(s, q, login) + pending.At(q) + Unit(q) * units
    ensures Bounds(s', m, login, pending')
  {
    if Allocated(m.allocation, "cpu").Some? && Allocated(m.allocation, "memory").Some? {
      forall q ensures Headroom(s', q) + Demand(s', q, login) + pending'.At(q) >= Measured(m, q, units') {
        MeasuredUnits(m, q, units, units');
      }
    }
    hide Headroom, Demand, Plausible, Observed, Measured, Unobserved, Allocated;
  }

  lemma MeasuredUnits(m: Metrics, q: Quantity, units: nat, units': nat)
    requires Plausible(m) && Allocated(m.allocation, "cpu").Some? && Allocated(m.allocation, "memory").Some?
    ensures Measured(m, q, units) + Unit(q) * units == Measured(m, q, units') + Unit(q) * units'
  {
    hide RequestedCpu, RequestedMemory, Plausible, Allocated;
  }

  /** A reservation that goes takes its unit out of what is charged exactly if the sample did not see it. */
  lemma UnitsLeft(reservations: map<Login, int>, observed: set<Name>, login: Login, l: Login)
    ensures var units, left := Unobserved(reservations.Keys, observed, login),
                               Unobserved((reservations - {l}).Keys, observed, login);
      |left| == |units| - if l in reservations && UserNamespace(l) !in observed && l != login then 1 else 0
  {
    var units, left := Unobserved(reservations.Keys, observed, login),
                       Unobserved((reservations - {l}).Keys, observed, login);
    hide UserNamespace;
    assert left == units - {l};
  }

  /** A sampled account without an app claims its unit exactly while it is reserved. */
  lemma SampledDemand(s: Cluster, q: Quantity, login: Login)
    ensures login !in s.apps ==> Demand(s, q, login) == if login in s.reservations then Unit(q) else 0
  {
  }

  lemma OutgrownFollows(st: State, step: Step, q: Quantity)
    requires Enabled(st, step) && !step.Judge?
    ensures Headroom(After(st, step), q) + Outgrown(st.pending, st, step).At(q)
         == Headroom(st.cluster, q) + st.pending.At(q) + Uncharged(st, step, q)
  {
    LedgerFollows(st, step, st.pending, q);
    hide Headroom, Enabled, After, Grown, Uncharged;
  }

  /** What is charged to the sampled account, and in units to the others, changes by what the sample
    * understates. */
  lemma UnitsFollow(st: State, step: Step, q: Quantity)
    requires Inv(st) && Enabled(st, step) && st.sample.Some? && !step.Judge?
    ensures var s, s', m, login := st.cluster, After(st, step), st.sample.value.0, st.sample.value.1;
      Demand(s', q, login) + Uncharged(st, step, q)
      + Unit(q) * |Unobserved(s'.reservations.Keys, Observed(m), login)|
      == Demand(s, q, login) + Unit(q) * |Unobserved(s.reservations.Keys, Observed(m), login)|
  {
    var s, s', m, login := st.cluster, After(st, step), st.sample.value.0, st.sample.value.1;
    SampledApart(st, step);
    SampledDemand(s, q, login);
    SampledDemand(s', q, login);
    hide Inv, Enabled, After, Demand, Unobserved, Observed, UserNamespace;
    if step.Unregister? || step.Recover? {
      UnitsLeft(s.reservations, Observed(m), login, step.l);
      var units' := |Unobserved(s'.reservations.Keys, Observed(m), login)|;
      OneMore(Unit(q), units');
    }
  }

  lemma SampleOutlasts(st: State, step: Step)
    requires Inv(st) && Allowed(st, step) && st.sample.Some? && !step.Judge?
    ensures Bounds(After(st, step), st.sample.value.0, st.sample.value.1, Outgrown(st.pending, st, step))
  {
    var s, s' := st.cluster, After(st, step);
    var (m, login) := st.sample.value;
    var units := |Unobserved(s.reservations.Keys, Observed(m), login)|;
    var units' := |Unobserved(s'.reservations.Keys, Observed(m), login)|;
    SampledApart(st, step);
    hide Enabled, After, Accurate, Owes, Bounds, Headroom, Outgrown, Demand, Unobserved, Observed, Uncharged;
    forall q ensures Headroom(s', q) + Demand(s', q, login) + Outgrown(st.pending, st, step).At(q) + Unit(q) * units'
                  == Headroom(s, q) + Demand(s, q, login) + st.pending.At(q) + Unit(q) * units
    {
      OutgrownFollows(st, step, q);
      UnitsFollow(st, step, q);
    }
    BoundsShift(s, s', m, login, st.pending, Outgrown(st.pending, st, step), units, units');
  }

  ghost predicate Admits(st: State, step: Step) {
    step.Judge? && st.sample.Some?
    && Decide(st.sample.value.0, st.cluster.reservations.Keys, st.sample.value.1).Admitted?
  }

  lemma InvKept(st: State, step: Step)
    requires Inv(st) && Allowed(st, step)
    ensures Inv(Next(st, step))
    ensures st.owed.Some? || Admits(st, step) ==> Next(st, step).owed.Some?
  {
    WellFormedKept(st, step);
    if Admits(st, step) {
      AdmissionEstablishesFloors(st, step.at);
    } else if step.Sample? {
      SampleBounds(st.cluster, step.m, step.login);
    } else if !step.Judge? {
      if st.sample.Some? { SampleOutlasts(st, step); }
      if st.owed.Some? { OwesChanges(st, step, st.owed.value); }
    }
    hide Bounds, Owes, Accurate, Grown, Outgrown;
  }

  ghost predicate Runs(st: State, steps: seq<Step>, end: State)
    decreases |steps|
  {
    if steps == [] then st == end
    else Allowed(st, steps[0]) && Runs(Next(st, steps[0]), steps[1..], end)
  }

  ghost predicate SomeAdmission(st: State, steps: seq<Step>)
    decreases |steps|
  {
    steps != [] && Allowed(st, steps[0]) && (Admits(st, steps[0]) || SomeAdmission(Next(st, steps[0]), steps[1..]))
  }

  /** Over every run that contains an admission, or starts safe, each quantity ends at its floor but for what
    * claims have grown by, on balance, since the sample of the last admission, or since the start. */
  lemma {:induction false} RunOwes(st: State, steps: seq<Step>, end: State)
    requires Inv(st) && Runs(st, steps, end)
    ensures Inv(end)
    ensures st.owed.Some? || SomeAdmission(st, steps) ==> end.owed.Some? && Owes(end.cluster, end.owed.value)
    decreases |steps|
  {
    hide Next, Admits, Owes, Enabled, Accurate;
    if steps != [] {
      InvKept(st, steps[0]);
      RunOwes(Next(st, steps[0]), steps[1..], end);
    }
  }

  predicate NothingAbove(a: Amounts) { a.cpu <= 0 && a.memory <= 0 && a.scratch <= 0 && a.volume <= 0 }

  /** Admission has foreseen a step: a rollout adds nothing, what appears or gets its volume has been reserved,
    * and whoever the sample did not see takes nothing when its reservation goes. A stopped app that still has
    * its reservation is charged a unit again. */
  predicate Foreseen(st: State, step: Step) {
    var s := st.cluster;
    match step
    case Rollout(l, cpu, memory, scratchLimit, _) =>
      l in s.apps && cpu <= s.apps[l].cpu && memory <= s.apps[l].memory && scratchLimit <= s.apps[l].scratchLimit
    case CreateVolume(l) => l in s.reservations && !AppOf(s, l).seen
    case Appear(l, cpu, memory, scratchLimit) => l in s.reservations || (cpu == 0 && memory == 0 && scratchLimit == 0)
    case Stop(l) =>
      var app := AppOf(s, l);
      l in s.reservations ==>
        app.cpu >= CPU_UNIT && app.memory >= MEMORY_UNIT && app.scratchLimit >= SCRATCH_UNIT && app.volume
    case Unregister(l) => Drops(st, step) ==> !AppOf(s, l).seen && !AppOf(s, l).volume
    case _ => true
  }

  /** Exactly these steps raise neither a claim nor what the sample understates. */
  lemma ForeseenIff(st: State, step: Step)
    requires Enabled(st, step) && !step.Judge?
    ensures Foreseen(st, step) <==> NothingAbove(Outgrown(NOTHING, st, step))
    ensures Foreseen(st, step) ==> NothingAbove(Grown(NOTHING, st, step))
  {
    assert NOTHING == Amounts(0, 0, 0, 0);
    hide Observed, UserNamespace;
  }

  /** No rollout of the run adds anything, no app that is not reserved appears, no app gets a volume that was
    * not reserved, and no app loses its reservation after a sample that did not see it. */
  ghost predicate AllForeseen(st: State, steps: seq<Step>)
    decreases |steps|
  {
    steps == []
    || (Allowed(st, steps[0]) && Foreseen(st, steps[0]) && AllForeseen(Next(st, steps[0]), steps[1..]))
  }

  lemma OwesNothing(st: State, step: Step)
    requires Allowed(st, step) && Foreseen(st, step)
    requires NothingAbove(st.pending) && (st.owed.Some? ==> NothingAbove(st.owed.value))
    ensures NothingAbove(Next(st, step).pending)
    ensures Next(st, step).owed.Some? ==> NothingAbove(Next(st, step).owed.value)
  {
    if !step.Judge? { ForeseenIff(st, step); }
    hide Enabled, Growth, After, Decide, AfterAdmission, Accurate, Foreseen, Uncharged;
  }

  lemma {:induction false} RunOwesNothing(st: State, steps: seq<Step>, end: State)
    requires Runs(st, steps, end) && AllForeseen(st, steps)
    requires NothingAbove(st.pending) && (st.owed.Some? ==> NothingAbove(st.owed.value))
    ensures end.owed.Some? ==> NothingAbove(end.owed.value)
    decreases |steps|
  {
    hide Next, Enabled, Accurate, Foreseen, NothingAbove;
    if steps != [] {
      OwesNothing(st, steps[0]);
      RunOwesNothing(Next(st, steps[0]), steps[1..], end);
    }
  }

  /** From a cluster without an outstanding sample, safe or not: a run of foreseen steps ends safe if it starts
    * safe or contains an admission. */
  lemma RunIsSafe(s: Cluster, steps: seq<Step>, end: State)
    requires WellFormed(s)
    requires var st := State(s, None, NOTHING, if Safe(s) then Some(NOTHING) else None);
      Runs(st, steps, end) && AllForeseen(st, steps) && (Safe(s) || SomeAdmission(st, steps))
    ensures Safe(end.cluster)
  {
    var st := State(s, None, NOTHING, if Safe(s) then Some(NOTHING) else None);
    RunOwes(st, steps, end);
    RunOwesNothing(st, steps, end);
    hide Headroom, Runs, AllForeseen, SomeAdmission;
    forall q ensures Headroom(end.cluster, q) >= Floor(q) { assert end.owed.value.At(q) <= 0; }
  }

  // ----- Steps that raise a claim -----

  /** Exactly when a step keeps every quantity at its floor. */
  lemma StepSafeIff(st: State, step: Step)
    requires Enabled(st, step) && !step.Judge?
    ensures Safe(After(st, step)) <==> forall q :: Headroom(st.cluster, q) >= Floor(q) + Growth(st, step, q)
  {
    forall q ensures Headroom(After(st, step), q) == Headroom(st.cluster, q) - Growth(st, step, q) {
      HeadroomChanges(st, step, q);
    }
    hide Headroom, After, Growth, Enabled;
  }

  lemma GrowthSafeIff(st: State, step: Step, growth: Amounts)
    requires Enabled(st, step) && !step.Judge? && Safe(st.cluster)
    requires forall q :: Growth(st, step, q) == growth.At(q)
    ensures Safe(After(st, step)) <==>
      && (growth.cpu == 0 || Headroom(st.cluster, CpuTime) >= CPU_FLOOR + growth.cpu)
      && (growth.memory == 0 || Headroom(st.cluster, Quantity.Memory) >= MEMORY_FLOOR + growth.memory)
      && (growth.scratch == 0 || Headroom(st.cluster, Scratch) >= DISK_FLOOR + growth.scratch)
      && (growth.volume == 0 || Headroom(st.cluster, Volume) >= DISK_FLOOR + growth.volume)
    ensures Headroom(st.cluster, CpuTime) >= CPU_FLOOR && Headroom(st.cluster, Quantity.Memory) >= MEMORY_FLOOR
    ensures Headroom(st.cluster, Scratch) >= DISK_FLOOR && Headroom(st.cluster, Volume) >= DISK_FLOOR
  {
    StepSafeIff(st, step);
    EachQuantity(st.cluster, growth);
    EachQuantity(st.cluster, NOTHING);
    hide Headroom, Enabled, After, Growth;
    assert forall q :: NOTHING.At(q) == 0;
  }

  lemma GrowthOfRollout(st: State, l: Login, cpu: nat, memory: nat, scratchLimit: nat, scratchUsed: nat, q: Quantity)
    requires Enabled(st, Rollout(l, cpu, memory, scratchLimit, scratchUsed))
    ensures var app := st.cluster.apps[l];
      Growth(st, Rollout(l, cpu, memory, scratchLimit, scratchUsed), q) ==
        Amounts(cpu - app.cpu, memory - app.memory, scratchLimit - app.scratchLimit, 0).At(q)
  {
  }

  lemma GrowthOfVolume(st: State, l: Login, q: Quantity)
    requires Enabled(st, CreateVolume(l))
    requires st.cluster.apps[l].seen || l !in st.cluster.reservations
    ensures Growth(st, CreateVolume(l), q) == Amounts(0, 0, 0, VOLUME_UNIT).At(q)
  {
  }

  lemma GrowthOfAppearance(st: State, l: Login, cpu: nat, memory: nat, scratchLimit: nat, q: Quantity)
    requires Enabled(st, Appear(l, cpu, memory, scratchLimit)) && l !in st.cluster.reservations
    ensures Growth(st, Appear(l, cpu, memory, scratchLimit), q) == Amounts(cpu, memory, scratchLimit, 0).At(q)
  {
  }

  /** The quantities one by one. */
  lemma EachQuantity(s: Cluster, growth: Amounts)
    ensures (forall q :: Headroom(s, q) >= Floor(q) + growth.At(q)) <==>
      && Headroom(s, CpuTime) >= CPU_FLOOR + growth.cpu
      && Headroom(s, Quantity.Memory) >= MEMORY_FLOOR + growth.memory
      && Headroom(s, Scratch) >= DISK_FLOOR + growth.scratch
      && Headroom(s, Volume) >= DISK_FLOOR + growth.volume
  {
    hide Headroom;
    assert Floor(CpuTime) + growth.At(CpuTime) == CPU_FLOOR + growth.cpu;
  }

  /** A rollout runs the new pod beside the old one, and is not admitted again. It keeps the cluster safe
    * exactly when what it adds was free above the floors. */
  lemma RolloutSafeIff(st: State, l: Login, cpu: nat, memory: nat, scratchLimit: nat, scratchUsed: nat)
    requires Safe(st.cluster)
    requires Enabled(st, Rollout(l, cpu, memory, scratchLimit, scratchUsed))
    ensures var s, app := st.cluster, st.cluster.apps[l];
      Safe(After(st, Rollout(l, cpu, memory, scratchLimit, scratchUsed))) <==>
      && Headroom(s, CpuTime) >= CPU_FLOOR + cpu - app.cpu
      && Headroom(s, Quantity.Memory) >= MEMORY_FLOOR + memory - app.memory
      && Headroom(s, Scratch) >= DISK_FLOOR + scratchLimit - app.scratchLimit
  {
    var step, app := Rollout(l, cpu, memory, scratchLimit, scratchUsed), st.cluster.apps[l];
    var growth := Amounts(cpu - app.cpu, memory - app.memory, scratchLimit - app.scratchLimit, 0);
    forall q ensures Growth(st, step, q) == growth.At(q) {
      GrowthOfRollout(st, l, cpu, memory, scratchLimit, scratchUsed, q);
    }
    GrowthSafeIff(st, step, growth);
    hide *;
  }

  /** Redeploys are not admitted again, so an app already seen may still gain its first volume; and an app
    * without its reservation may still be synced. Either volume keeps the cluster safe exactly when a whole
    * unit was free above the floor. */
  lemma LateVolumeSafeIff(st: State, l: Login)
    requires Safe(st.cluster) && Enabled(st, CreateVolume(l))
    requires st.cluster.apps[l].seen || l !in st.cluster.reservations
    ensures Safe(After(st, CreateVolume(l))) <==> Headroom(st.cluster, Volume) >= DISK_FLOOR + VOLUME_UNIT
  {
    forall q ensures Growth(st, CreateVolume(l), q) == Amounts(0, 0, 0, VOLUME_UNIT).At(q) {
      GrowthOfVolume(st, l, q);
    }
    GrowthSafeIff(st, CreateVolume(l), Amounts(0, 0, 0, VOLUME_UNIT));
    hide *;
  }

  /** The pods of an app without a reservation may still appear: its deletion gave the reservation back, or they
    * were stopped to be created anew. They keep the cluster safe exactly when what they request was free above
    * the floors. */
  lemma LateAppearanceSafeIff(st: State, l: Login, cpu: nat, memory: nat, scratchLimit: nat)
    requires Safe(st.cluster) && Enabled(st, Appear(l, cpu, memory, scratchLimit))
    requires l !in st.cluster.reservations
    ensures var s := st.cluster;
      Safe(After(st, Appear(l, cpu, memory, scratchLimit))) <==>
      && Headroom(s, CpuTime) >= CPU_FLOOR + cpu
      && Headroom(s, Quantity.Memory) >= MEMORY_FLOOR + memory
      && Headroom(s, Scratch) >= DISK_FLOOR + scratchLimit
  {
    var step, growth := Appear(l, cpu, memory, scratchLimit), Amounts(cpu, memory, scratchLimit, 0);
    forall q ensures Growth(st, step, q) == growth.At(q) {
      GrowthOfAppearance(st, l, cpu, memory, scratchLimit, q);
    }
    GrowthSafeIff(st, step, growth);
    hide *;
  }

  // ----- What safety means -----

  /** Accounts that are charged a whole unit of a quantity. */
  function Waiting(s: Cluster, q: Quantity): set<Login> {
    set l | l in s.reservations && !AppOf(s, l).seen && !(q.Volume? && AppOf(s, l).volume)
  }

  predicate Holds(app: App, q: Quantity) { app.seen || (q.Volume? && app.volume) }

  /** What apps may still take of their requests and volumes. */
  function Open(s: Cluster, q: Quantity): map<Login, int> {
    map l | l in s.apps && Holds(s.apps[l], q) ::
      if l in s.apps && Holds(s.apps[l], q) then Request(s.apps[l], q) - Used(s.apps[l], q) else 0
  }

  /** The headroom of a quantity, spelled out: supply minus what apps may still take minus a unit for each
    * waiting account. */
  lemma HeadroomIs(s: Cluster, q: Quantity)
    ensures Headroom(s, q) == Supply(s, q) - Sum(Open(s, q)) - Unit(q) * |Waiting(s, q)|
  {
    var all, open, waiting := Demands(s, q), Open(s, q), Waiting(s, q);
    var inside := all - (all.Keys - waiting);
    SumSplit(all, waiting);
    SumConstant(waiting, Unit(q));
    forall l | l in waiting ensures l in all && all[l] == Unit(q) {
      WaitingDemand(s, q, l);
    }
    assert inside == Constant(waiting, Unit(q));
    OpenIsRest(s, q);
  }

  lemma WaitingDemand(s: Cluster, q: Quantity, l: Login)
    ensures l in Waiting(s, q) ==> l in Demands(s, q) && Demands(s, q)[l] == Unit(q)
  {
  }

  lemma OpenIsRest(s: Cluster, q: Quantity)
    ensures Sum(Demands(s, q) - Waiting(s, q)) == Sum(Open(s, q))
  {
    var rest, open := Demands(s, q) - Waiting(s, q), Open(s, q);
    forall l | l in rest ensures rest[l] == if l in open then open[l] else 0 { }
    assert open.Keys <= rest.Keys;
    SumPlus(rest, Constant(rest.Keys, 0), open);
    SumConstant(rest.Keys, 0);
  }

  /** Safe means: what is allocatable, less what is requested and a unit for each reserved account not yet
    * seen, leaves one CPU and 4 GiB; and free disk space, less everything promised and not yet written,
    * leaves 5 GiB on either disk. */
  lemma SafeIff(s: Cluster)
    ensures Safe(s) <==>
      && s.cpu - s.otherCpu - Sum(SeenMap(s, (a: App) => a.cpu)) - 200 * |Waiting(s, CpuTime)| >= 1000
      && s.memory - s.otherMemory - Sum(SeenMap(s, (a: App) => a.memory))
         - 536870912 * |Waiting(s, Quantity.Memory)| >= 4294967296
      && s.rootFree - Sum(Open(s, Scratch)) - 2147483648 * |Waiting(s, Scratch)| >= 5368709120
      && s.dataFree - Sum(Open(s, Volume)) - 1073741824 * |Waiting(s, Volume)| >= 5368709120
  {
    assert Open(s, CpuTime) == SeenMap(s, (a: App) => a.cpu);
    assert Open(s, Quantity.Memory) == SeenMap(s, (a: App) => a.memory);
    EachQuantity(s, NOTHING);
    SafeIsEach(s);
    hide Headroom, Open, Waiting, SeenMap, Safe;
    HeadroomIs(s, CpuTime);
    HeadroomIs(s, Quantity.Memory);
    HeadroomIs(s, Scratch);
    HeadroomIs(s, Volume);
  }

  lemma SafeIsEach(s: Cluster)
    ensures Safe(s) <==> forall q :: Headroom(s, q) >= Floor(q) + NOTHING.At(q)
  {
    hide Headroom;
    assert forall q :: NOTHING.At(q) == 0;
  }

  /** If every volume is filled, up to one GiB each, the data disk still has 5 GiB free. */
  lemma FillingVolumesLeavesFloor(s: Cluster, filling: map<Login, int>)
    requires WellFormed(s) && Safe(s)
    requires forall l :: l in filling <==> l in s.apps && s.apps[l].volume
    requires forall l | l in filling :: filling[l] + s.apps[l].written == 1073741824
    ensures s.dataFree - Sum(filling) >= 5368709120
  {
    assert Headroom(s, Volume) >= Floor(Volume);
    forall l | l in Demands(s, Volume) ensures Demands(s, Volume)[l] >= 0 { }
    forall l | l in filling ensures l in Demands(s, Volume) && filling[l] <= Demands(s, Volume)[l] { }
    SumAtMost(filling, Demands(s, Volume));
  }

  // ----- Examples -----

  /** One app with one pod of the template, on a node with exactly the floors left. */
  function OnePodNode(l: Login): Cluster {
    Cluster(CPU_FLOOR + 100, MEMORY_FLOOR + 256 * Mi, 0, 0, DISK_FLOOR + Gi, DISK_FLOOR,
            map[l := App(true, 100, 256 * Mi, Gi, 0, false, 0)], map[])
  }

  const Mi := 1024 * 1024

  lemma OneApp(s: Cluster, l: Login, q: Quantity)
    requires s.apps.Keys + s.reservations.Keys == {l}
    ensures Headroom(s, q) == Supply(s, q) - Demand(s, q, l)
  {
    assert Demands(s, q) == map[l := Demand(s, q, l)];
    SumTake(Demands(s, q), l);
    assert Demands(s, q) - {l} == map[];
  }

  /** A stateless app runs two pods during a redeploy: a safe node is then below its floors of CPU, memory
    * and scratch space, although every app keeps within its unit. */
  lemma RolloutExample(l: Login)
    ensures var s := OnePodNode(l);
      var st := State(s, None, NOTHING, Some(NOTHING));
      var step := Rollout(l, CPU_UNIT, MEMORY_UNIT, SCRATCH_UNIT, 0);
      && WellFormed(s) && Safe(s) && Enabled(st, step)
      && Headroom(After(st, step), CpuTime) < CPU_FLOOR
      && Headroom(After(st, step), Quantity.Memory) < MEMORY_FLOOR
      && Headroom(After(st, step), Scratch) < DISK_FLOOR
  {
    var s := OnePodNode(l);
    var st := State(s, None, NOTHING, Some(NOTHING));
    var step := Rollout(l, CPU_UNIT, MEMORY_UNIT, SCRATCH_UNIT, 0);
    forall q ensures Headroom(s, q) == Floor(q) {
      OneApp(s, l, q);
    }
    HeadroomChanges(st, step, CpuTime);
    HeadroomChanges(st, step, Quantity.Memory);
    HeadroomChanges(st, step, Scratch);
    hide Headroom;
  }

  /** The same node, whose data disk has exactly 5 GiB free: a late volume breaks the promise. */
  lemma LateVolumeExample(l: Login)
    ensures var s := OnePodNode(l);
      var st := State(s, None, NOTHING, Some(NOTHING));
      WellFormed(s) && Safe(s) && Enabled(st, CreateVolume(l)) && !Safe(After(st, CreateVolume(l)))
  {
    var s := OnePodNode(l);
    var st := State(s, None, NOTHING, Some(NOTHING));
    forall q ensures Headroom(s, q) == Floor(q) {
      OneApp(s, l, q);
    }
    hide Headroom;
    LateVolumeSafeIff(st, l);
  }

  ghost predicate BelowFloors(s: Cluster) { forall q :: Headroom(s, q) < Floor(q) }

  /** A run that ends right after an admission with a safe cluster, and goes on to one that is not. */
  ghost predicate LosesFloors(st: State, first: seq<Step>, mid: State, rest: seq<Step>, end: State) {
    && Inv(st) && Runs(st, first, mid) && SomeAdmission(st, first) && Safe(mid.cluster)
    && Runs(mid, rest, end) && !Safe(end.cluster)
  }

  lemma RunsMore(st: State, step: Step, steps: seq<Step>, end: State)
    requires Allowed(st, step) && Runs(Next(st, step), steps, end)
    ensures Runs(st, [step] + steps, end)
    ensures SomeAdmission(Next(st, step), steps) || Admits(st, step) ==> SomeAdmission(st, [step] + steps)
  {
    hide Allowed, Next, Admits;
    assert ([step] + steps)[1..] == steps;
  }

  /** A node with room for exactly one more account, next to what is stored. */
  function RoomForOne(apps: map<Login, App>, reservations: map<Login, int>, stored: nat): Cluster {
    Cluster(CPU_FLOOR + CPU_UNIT, MEMORY_FLOOR + MEMORY_UNIT, 0, 0, DISK_FLOOR + SCRATCH_UNIT,
            DISK_FLOOR + VOLUME_UNIT + stored, apps, reservations)
  }

  /** What the metrics of that node say while no app is seen; one pod of the platform requests nothing. */
  function QuietMetrics(stored: nat): Metrics {
    var node, row := Name("node"), Row(Name("kube-system"), Name("pod"), Cpu, 0);
    Metrics([NodeRow(node, "cpu", CPU_FLOOR + CPU_UNIT), NodeRow(node, "memory", MEMORY_FLOOR + MEMORY_UNIT)],
            [NodeRow(node, "Ready", 1), NodeRow(node, "MemoryPressure", 0), NodeRow(node, "DiskPressure", 0)],
            [row], [], [0], [0], [DISK_FLOOR + SCRATCH_UNIT], [[0], [0], [0]], [[8], [8]],
            [stored], [DISK_FLOOR + VOLUME_UNIT + stored], [0], [1000], [1000], [0], [0])
  }

  lemma OneRow(row: Row, pod: Pod, resource: Resource)
    requires row.value == 0
    ensures SumRows([row], pod, resource) == 0 && MaxRows([], pod, resource) == 0
  {
    var none: seq<Row> := [row][..0];
    assert none == [];
    assert SumRows(none, pod, resource) == 0;
  }

  lemma NothingRequested(row: Row)
    requires row.value == 0
    ensures RequestedCpu([row], []) == 0 && RequestedMemory([row], []) == 0
  {
    var pod := PodOf(row);
    assert Pods([row]) + Pods([]) == {pod};
    OneRow(row, pod, Cpu);
    OneRow(row, pod, Resource.Memory);
    hide SumRows, MaxRows;
    var none: map<Pod, int> := map[pod := 0];
    assert (map p | p in Pods([row]) + Pods([]) :: Max(SumRows([row], p, Cpu), MaxRows([], p, Cpu))) == none;
    assert (map p | p in Pods([row]) + Pods([]) ::
              Max(SumRows([row], p, Resource.Memory), MaxRows([], p, Resource.Memory))) == none;
    SumTake(none, pod);
    assert none - {pod} == map[];
  }

  lemma QuietRequests(stored: nat)
    ensures RequestedCpu(QuietMetrics(stored).requests, QuietMetrics(stored).init) == 0
    ensures RequestedMemory(QuietMetrics(stored).requests, QuietMetrics(stored).init) == 0
    ensures Plausible(QuietMetrics(stored))
    ensures Observed(QuietMetrics(stored)) == {Name("kube-system")}
  {
    NothingRequested(QuietMetrics(stored).requests[0]);
    hide RequestedCpu, RequestedMemory;
  }

  lemma NotUser(l: Login)
    ensures UserNamespace(l) != Name("kube-system")
  {
    assert UserNamespace(l).text[0] == 'u';
  }

  /** The metrics describe the node while its one app is not seen, whatever is reserved. */
  lemma QuietAccurate(a: Login, app: App, reservations: map<Login, int>, stored: nat)
    requires !app.seen && stored == if app.volume then VOLUME_UNIT else 0
    ensures Accurate(RoomForOne(map[a := app], reservations, stored), QuietMetrics(stored))
  {
    var s, m := RoomForOne(map[a := app], reservations, stored), QuietMetrics(stored);
    QuietRequests(stored);
    forall l ensures UserNamespace(l) !in Observed(m) { NotUser(l); }
    hide RequestedCpu, RequestedMemory, Plausible, Observed, UserNamespace;
    assert SeenMap(s, (x: App) => x.cpu) == map[];
    assert SeenMap(s, (x: App) => x.memory) == map[];
    assert SeenMap(s, (x: App) => x.scratchLimit) == map[];
    QuietVolumes(s, a);
  }

  lemma QuietVolumes(s: Cluster, a: Login)
    requires s.apps.Keys == {a}
    ensures Sum(VolumeRequests(s)) == if s.apps[a].volume then VOLUME_UNIT else 0
  {
    if s.apps[a].volume {
      SumTake(VolumeRequests(s), a);
      assert VolumeRequests(s) - {a} == map[];
    } else {
      assert VolumeRequests(s) == map[];
    }
  }

  lemma QuietAdmits(b: Login, stored: nat)
    ensures Decide(QuietMetrics(stored), {}, b).Admitted?
    ensures AfterAdmission(map[], Observed(QuietMetrics(stored)), b, 1) == map[b := 1]
  {
    QuietRequests(stored);
    NotUser(b);
    assert Unobserved({}, Observed(QuietMetrics(stored)), b) == {};
    hide RequestedCpu, RequestedMemory, Plausible, Observed, UserNamespace, Unobserved;
  }

  /** The last step of each admission below: nobody else is reserved, and b is admitted. */
  lemma QuietJudged(st: State, b: Login, stored: nat)
    requires st.sample == Some((QuietMetrics(stored), b)) && st.cluster.reservations == map[]
    ensures Admits(st, Judge(1)) && Allowed(st, Judge(1))
    ensures Next(st, Judge(1)) == State(st.cluster.(reservations := map[b := 1]), None, NOTHING, Some(st.pending))
  {
    QuietAdmits(b, stored);
    assert st.cluster.reservations.Keys == {};
    hide Decide, AfterAdmission, QuietMetrics, Observed;
  }

  lemma TwoAccounts(s: Cluster, a: Login, b: Login, q: Quantity)
    requires a != b && s.apps.Keys == {a} && s.reservations.Keys == {b}
    ensures Headroom(s, q) == Supply(s, q) - Demand(s, q, a) - Demand(s, q, b)
  {
    var demands := Demands(s, q);
    hide Demand, Supply;
    assert demands.Keys == {a, b};
    SumTake(demands, b);
    SumTake(demands - {b}, a);
    assert demands - {b} - {a} == map[];
  }

  /** Steps: the account's registration and reservation go before its pods are seen, another account is
    * admitted to the room, and then the lingering app is synced. */
  function LingeringBegins(a: Login, b: Login): seq<Step> {
    [Register(a)] + ([Unregister(a)] + ([Sample(QuietMetrics(0), b)] + ([Judge(1)] + [])))
  }

  function LingeringSyncs(a: Login): seq<Step> { [CreateVolume(a)] + ([Appear(a, 100, 256 * Mi, Gi)] + []) }

  function Lingering(a: Login, b: Login): Cluster { RoomForOne(map[a := UNREGISTERED], map[b := 1], 0) }

  lemma LingeringUnregisters(a: Login)
    ensures var st := State(RoomForOne(map[], map[a := 0], 0), None, NOTHING, None);
      && Inv(st) && Allowed(st, Register(a)) && Allowed(Next(st, Register(a)), Unregister(a))
      && Next(Next(st, Register(a)), Unregister(a)).sample.None?
      && Next(Next(st, Register(a)), Unregister(a)).cluster == RoomForOne(map[a := UNREGISTERED], map[], 0)
  {
    hide Outgrown, Grown;
    assert map[a := 0] - {a} == map[];
  }

  lemma LingeringAdmits(a: Login, b: Login)
    requires a != b
    ensures var st := State(RoomForOne(map[], map[a := 0], 0), None, NOTHING, None);
      exists mid :: Inv(st) && Runs(st, LingeringBegins(a, b), mid) && SomeAdmission(st, LingeringBegins(a, b))
                    && mid.cluster == Lingering(a, b)
  {
    var st0 := State(RoomForOne(map[], map[a := 0], 0), None, NOTHING, None);
    LingeringUnregisters(a);
    hide Outgrown, Grown, Decide, AfterAdmission;
    var sample, st1 := Sample(QuietMetrics(0), b), Next(st0, Register(a));
    var st2 := Next(st1, Unregister(a));
    QuietAccurate(a, UNREGISTERED, map[], 0);
    var st3 := Next(st2, sample);
    QuietJudged(st3, b, 0);
    var mid := Next(st3, Judge(1));
    assert Runs(mid, [], mid) && Allowed(st2, sample);
    hide Next, Allowed, Admits, Accurate;
    RunsMore(st3, Judge(1), [], mid);
    RunsMore(st2, sample, [Judge(1)] + [], mid);
    RunsMore(st1, Unregister(a), [sample] + ([Judge(1)] + []), mid);
    RunsMore(st0, Register(a), [Unregister(a)] + ([sample] + ([Judge(1)] + [])), mid);
  }

  lemma LingeringTakes(a: Login, b: Login, mid: State, q: Quantity)
    requires a != b && mid.cluster == Lingering(a, b)
    ensures var create, appear := CreateVolume(a), Appear(a, 100, 256 * Mi, Gi);
      && Headroom(mid.cluster, q) == Floor(q)
      && Allowed(mid, create) && Allowed(Next(mid, create), appear)
      && Headroom(Next(Next(mid, create), appear).cluster, q) < Floor(q)
  {
    var create, appear := CreateVolume(a), Appear(a, 100, 256 * Mi, Gi);
    TwoAccounts(mid.cluster, a, b, q);
    HeadroomChanges(mid, create, q);
    HeadroomChanges(Next(mid, create), appear, q);
    hide Headroom, Outgrown, Grown;
  }

  lemma LingeringLoses(a: Login, b: Login, mid: State)
    requires a != b && mid.cluster == Lingering(a, b)
    ensures Safe(mid.cluster)
    ensures exists end :: Runs(mid, LingeringSyncs(a), end) && BelowFloors(end.cluster)
  {
    var create, appear := CreateVolume(a), Appear(a, 100, 256 * Mi, Gi);
    var end := Next(Next(mid, create), appear);
    forall q
      ensures Allowed(mid, create) && Allowed(Next(mid, create), appear)
      ensures Headroom(mid.cluster, q) == Floor(q) && Headroom(end.cluster, q) < Floor(q)
    {
      LingeringTakes(a, b, mid, q);
    }
    assert Headroom(mid.cluster, CpuTime) == Floor(CpuTime);
    assert Runs(end, [], end) && BelowFloors(end.cluster);
    hide Headroom, Next, Allowed, Admits, Lingering, BelowFloors;
    RunsMore(Next(mid, create), appear, [], end);
    RunsMore(mid, create, [appear] + [], end);
  }

  /** An account registers, is deleted before its pods are seen, and its application lingers. Another account
    * is admitted to the last free unit; then the lingering application is synced. */
  lemma LateAppearanceExample(a: Login, b: Login)
    requires a != b
    ensures exists st, first, mid, rest, end :: LosesFloors(st, first, mid, rest, end) && BelowFloors(end.cluster)
  {
    var st := State(RoomForOne(map[], map[a := 0], 0), None, NOTHING, None);
    LingeringAdmits(a, b);
    hide Headroom, Inv, Runs, SomeAdmission, Lingering, LingeringBegins, LingeringSyncs, Safe, BelowFloors;
    var mid :| Inv(st) && Runs(st, LingeringBegins(a, b), mid) && SomeAdmission(st, LingeringBegins(a, b))
               && mid.cluster == Lingering(a, b);
    LingeringLoses(a, b, mid);
    var end :| Runs(mid, LingeringSyncs(a), end) && BelowFloors(end.cluster);
    BelowIsUnsafe(end.cluster);
    assert LosesFloors(st, LingeringBegins(a, b), mid, LingeringSyncs(a), end);
  }

  lemma BelowIsUnsafe(s: Cluster)
    ensures BelowFloors(s) ==> !Safe(s)
  {
    hide Headroom;
    assert BelowFloors(s) ==> Headroom(s, CpuTime) < Floor(CpuTime);
  }

  // ----- Old metrics -----

  /** Two pods of the template and a volume. */
  function WholeUnit(): App { App(true, CPU_UNIT, MEMORY_UNIT, SCRATCH_UNIT, 0, true, 0) }

  /** Steps: a registered account appears after the metrics were scraped, and is unregistered before they are
    * judged for another account. */
  function StaleSteps(a: Login, b: Login): seq<Step> {
    [Sample(QuietMetrics(0), b)] + ([Appear(a, CPU_UNIT, MEMORY_UNIT, SCRATCH_UNIT)] + ([CreateVolume(a)]
    + ([Unregister(a)] + ([Judge(1)] + []))))
  }

  lemma StaleBegins(a: Login, b: Login)
    requires a != b
    ensures var s := RoomForOne(map[a := UNREGISTERED], map[a := 0], 0);
      var st, sample := State(s, None, NOTHING, None), Sample(QuietMetrics(0), b);
      && Inv(st) && Safe(s) && Allowed(st, sample)
      && Next(st, sample) == State(s, Some((QuietMetrics(0), b)), NOTHING, None)
  {
    var s := RoomForOne(map[a := UNREGISTERED], map[a := 0], 0);
    QuietAccurate(a, UNREGISTERED, map[a := 0], 0);
    forall q ensures Headroom(s, q) == Floor(q) { OneApp(s, a, q); }
    hide Headroom, QuietMetrics, Accurate;
  }

  lemma StaleUnregisters(a: Login, b: Login)
    requires a != b
    ensures var s := RoomForOne(map[a := UNREGISTERED], map[a := 0], 0);
      var st' := State(s, Some((QuietMetrics(0), b)), NOTHING, None);
      var appear, create := Appear(a, CPU_UNIT, MEMORY_UNIT, SCRATCH_UNIT), CreateVolume(a);
      && Allowed(st', appear) && Allowed(Next(st', appear), create)
      && Allowed(Next(Next(st', appear), create), Unregister(a))
      && var end := Next(Next(Next(st', appear), create), Unregister(a));
         end.sample == Some((QuietMetrics(0), b)) && end.cluster == RoomForOne(map[a := WholeUnit()], map[], 0)
  {
    hide Outgrown, Grown, QuietMetrics;
    assert map[a := 0] - {a} == map[];
    assert map[a := UNREGISTERED][a := WholeUnit()] == map[a := WholeUnit()];
  }

  /** From a safe cluster, an admission that ends below every floor. */
  ghost predicate AdmitsBelowFloors(st: State, steps: seq<Step>, end: State) {
    Inv(st) && Safe(st.cluster) && Runs(st, steps, end) && SomeAdmission(st, steps) && BelowFloors(end.cluster)
  }

  lemma StaleBelow(a: Login, b: Login)
    requires a != b
    ensures BelowFloors(RoomForOne(map[a := WholeUnit()], map[b := 1], 0))
  {
    var s := RoomForOne(map[a := WholeUnit()], map[b := 1], 0);
    forall q ensures Headroom(s, q) < Floor(q) { TwoAccounts(s, a, b, q); }
    hide Headroom;
  }

  /** What the sample understates is exactly a unit: the admission ends a unit below every floor. */
  lemma StaleMetricsExample(a: Login, b: Login)
    requires a != b
    ensures exists st, steps, end :: AdmitsBelowFloors(st, steps, end)
  {
    var st0 := State(RoomForOne(map[a := UNREGISTERED], map[a := 0], 0), None, NOTHING, None);
    var appear, sample := Appear(a, CPU_UNIT, MEMORY_UNIT, SCRATCH_UNIT), Sample(QuietMetrics(0), b);
    StaleBegins(a, b);
    StaleUnregisters(a, b);
    StaleBelow(a, b);
    hide Headroom, RoomForOne, QuietMetrics, Outgrown, Grown, Accurate, Decide, AfterAdmission, BelowFloors, Inv, Safe;
    var st1 := Next(st0, sample);
    var st2 := Next(st1, appear);
    var st3 := Next(st2, CreateVolume(a));
    var st4 := Next(st3, Unregister(a));
    QuietJudged(st4, b, 0);
    RoomReserved(map[a := WholeUnit()], map[], map[b := 1], 0);
    var end := Next(st4, Judge(1));
    assert Runs(end, [], end);
    hide Next, Allowed, Admits;
    RunsMore(st4, Judge(1), [], end);
    RunsMore(st3, Unregister(a), [Judge(1)] + [], end);
    RunsMore(st2, CreateVolume(a), [Unregister(a)] + ([Judge(1)] + []), end);
    RunsMore(st1, appear, [CreateVolume(a)] + ([Unregister(a)] + ([Judge(1)] + [])), end);
    RunsMore(st0, sample, [appear] + ([CreateVolume(a)] + ([Unregister(a)] + ([Judge(1)] + []))), end);
    assert AdmitsBelowFloors(st0, StaleSteps(a, b), end);
  }

  lemma RoomReserved(apps: map<Login, App>, was: map<Login, int>, now: map<Login, int>, stored: nat)
    ensures RoomForOne(apps, was, stored).(reservations := now) == RoomForOne(apps, now, stored)
    ensures RoomForOne(apps, was, stored).reservations == was
  {
  }

  // ----- Recreated pods -----

  /** One stateful app on the node, which has room for one more. */
  function Running(a: Login): State {
    State(RoomForOne(map[a := WholeUnit()], map[], VOLUME_UNIT), None, NOTHING, None)
  }

  /** Its pod is stopped before the new one starts, and another account is admitted. */
  function RecreateBegins(a: Login, b: Login): seq<Step> {
    [Stop(a)] + ([Sample(QuietMetrics(VOLUME_UNIT), b)] + ([Judge(1)] + []))
  }

  function Recreating(a: Login, b: Login): Cluster {
    RoomForOne(map[a := WholeUnit().(seen := false)], map[b := 1], VOLUME_UNIT)
  }

  function Reappears(a: Login): Step { Appear(a, CPU_UNIT, MEMORY_UNIT, SCRATCH_UNIT) }

  lemma RecreateStops(a: Login)
    ensures var st := Running(a);
      && Inv(st) && Safe(st.cluster) && Allowed(st, Stop(a)) && Next(st, Stop(a)).sample.None?
      && Next(st, Stop(a)).cluster == RoomForOne(map[a := WholeUnit().(seen := false)], map[], VOLUME_UNIT)
  {
    forall q ensures Headroom(RoomForOne(map[a := WholeUnit()], map[], VOLUME_UNIT), q) >= Floor(q) {
      OneApp(RoomForOne(map[a := WholeUnit()], map[], VOLUME_UNIT), a, q);
    }
    hide Headroom, Outgrown, Grown;
    assert map[a := WholeUnit()][a := WholeUnit().(seen := false)] == map[a := WholeUnit().(seen := false)];
  }

  lemma RecreateAppears(a: Login, b: Login, mid: State, q: Quantity)
    requires a != b && mid.cluster == Recreating(a, b)
    ensures Headroom(mid.cluster, q) == Floor(q) && Allowed(mid, Reappears(a))
    ensures Headroom(Next(mid, Reappears(a)).cluster, q) == Floor(q) - if q.Volume? then 0 else Unit(q)
  {
    var appear := Reappears(a);
    TwoAccounts(mid.cluster, a, b, q);
    HeadroomChanges(mid, appear, q);
    hide Headroom, Outgrown, Grown;
  }

  lemma RecreateAdmits(a: Login, b: Login)
    requires a != b
    ensures exists mid :: Runs(Running(a), RecreateBegins(a, b), mid) && mid.cluster == Recreating(a, b)
    ensures SomeAdmission(Running(a), RecreateBegins(a, b))
  {
    var app, sample := WholeUnit().(seen := false), Sample(QuietMetrics(VOLUME_UNIT), b);
    RecreateStops(a);
    QuietAccurate(a, app, map[], VOLUME_UNIT);
    RoomReserved(map[a := app], map[], map[b := 1], VOLUME_UNIT);
    hide Headroom, RoomForOne, QuietMetrics, Outgrown, Grown, Accurate, Decide, AfterAdmission, Inv, Safe, Running;
    var st1 := Next(Running(a), Stop(a));
    assert b !in st1.cluster.apps by { RoomApps(map[a := app], map[], VOLUME_UNIT); }
    var st2 := Next(st1, sample);
    QuietJudged(st2, b, VOLUME_UNIT);
    var mid := Next(st2, Judge(1));
    assert Runs(mid, [], mid) && Allowed(st1, sample);
    hide Next, Allowed, Admits;
    RunsMore(st2, Judge(1), [], mid);
    RunsMore(st1, sample, [Judge(1)] + [], mid);
    RunsMore(Running(a), Stop(a), [sample] + ([Judge(1)] + []), mid);
  }

  lemma RoomApps(apps: map<Login, App>, reservations: map<Login, int>, stored: nat)
    ensures RoomForOne(apps, reservations, stored).apps == apps
  {
  }

  /** A stateful app's pod is stopped before the new one starts. Another account is admitted in between; when
    * the new pod appears, requesting what the old one did, CPU, memory and scratch space are below their
    * floors. */
  lemma RecreateExample(a: Login, b: Login)
    requires a != b
    ensures exists st, first, mid, rest, end :: LosesFloors(st, first, mid, rest, end)
  {
    hide Running, RecreateBegins, Recreating, Reappears, Inv, Next, Allowed, Runs, SomeAdmission, Safe;
    RecreateStops(a);
    RecreateAdmits(a, b);
    var mid :| Runs(Running(a), RecreateBegins(a, b), mid) && mid.cluster == Recreating(a, b);
    RecreateLoses(a, b, mid);
    var end :| Runs(mid, [Reappears(a)], end) && !Safe(end.cluster);
    assert LosesFloors(Running(a), RecreateBegins(a, b), mid, [Reappears(a)], end);
  }

  lemma RecreateLoses(a: Login, b: Login, mid: State)
    requires a != b && mid.cluster == Recreating(a, b)
    ensures Safe(mid.cluster)
    ensures exists end :: Runs(mid, [Reappears(a)], end) && !Safe(end.cluster)
  {
    var end := Next(mid, Reappears(a));
    hide Headroom, Recreating, Reappears, Next, Enabled, Accurate;
    forall q ensures Headroom(mid.cluster, q) == Floor(q) && Allowed(mid, Reappears(a))
      ensures Headroom(end.cluster, q) == Floor(q) - if q.Volume? then 0 else Unit(q)
    {
      RecreateAppears(a, b, mid, q);
    }
    assert Headroom(mid.cluster, CpuTime) == Floor(CpuTime);
    assert Headroom(end.cluster, CpuTime) < Floor(CpuTime);
    assert Runs(end, [], end) && [Reappears(a)][1..] == [];
    assert Runs(mid, [Reappears(a)], end);
  }
}
