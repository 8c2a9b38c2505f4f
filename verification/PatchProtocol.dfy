/** Proposing a security patch (apps/backend/src/deploy/security-patch.service.ts and
  * security-patch.repository.ts).
  *
  * Operations of one user exclude each other, operations of different users interleave, a restart drops
  * all of them, and every request to the code host may fail, or succeed with its reply lost. Each step
  * below is one such request together with the code up to the next one.
  *
  * Commits are values, so equal identifiers mean equal contents. A plan's branch is named after the plan
  * and lives in its user's repository; the clock is left out, so any stored plan may expire, or give way to a
  * new one, at any time.
  */
module PatchProtocol {
  import opened Common
  import PatchAudit
  import PatchPolicy

  type User = nat
  type Id = nat
  type Base = nat
  type Lock = PatchPolicy.Lock
  type Evidence = PatchAudit.Evidence

  datatype Path = Path(text: string)
  datatype Blob = LockFile(lock: Lock) | Other(content: int)
  type Tree = map<Path, Blob>
  datatype Commit = Commit(parents: seq<Commit>, tree: Tree, salt: int)

  const LOCKFILE := Path("package-lock.json")

  datatype Phase = Preparing | Ready | Blocked | Failed | Creating | Proposed

  /** What a plan is about; it never changes. */
  datatype Core = Core(user: User, base: Base, sha: Commit, original: Lock)

  datatype Plan = Plan(id: Id, core: Core, phase: Phase, evidence: Option<Evidence>, lockfile: Option<Lock>,
                       before: int, after: int)

  /** Where an operation is: it has read the plan, found no proposal, stored the plan as being created,
    * built its commit, been told that the branch exists, checked or made the branch, lost the reply of
    * its proposal, or found a proposal. `touched` says whether anyone moved the branch since the check. */
  datatype Place = Started | Missing | Announced | Built(commit: Commit) | Conflict(commit: Commit)
    | Checked(tip: Commit, touched: bool) | Lost | Found

  datatype Op = Op(plan: Plan, place: Place)

  /** How this service opened a proposal: for which plan, the tip of the branch at that moment, the tip it
    * had checked, and whether someone moved the branch in between. */
  datatype Origin = Origin(plan: Plan, tip: Commit, checked: Commit, touched: bool)

  /** A pull request. Those of other origin have none. `moved` and `reopened` record what people did. */
  datatype Pull = Pull(branch: Id, user: User, base: Base, open: bool, moved: bool, reopened: bool,
                       origin: Option<Origin>)

  datatype State = State(rows: map<User, Plan>, ops: map<User, Op>, known: map<Id, Core>,
                         branches: map<Id, Commit>, pulls: seq<Pull>)

  // ----- Plans -----

  predicate Reviewed(p: Plan, valid: Lock -> bool) {
    && PatchAudit.Validate(p.evidence).None?
    && p.lockfile.Some?
    && PatchPolicy.Accepts(p.core.original, p.lockfile.value, p.before, p.after, valid)
  }

  predicate Offered(phase: Phase) { phase == Ready || phase == Creating || phase == Proposed }

  /** The tree the plan proposes: the reviewed commit's, with the new lockfile. */
  function Target(p: Plan): Tree
    requires p.lockfile.Some?
  {
    p.core.sha.tree[LOCKFILE := LockFile(p.lockfile.value)]
  }

  /** Nothing but the lockfile, directly on the reviewed commit. */
  predicate Proper(c: Commit, p: Plan) { p.lockfile.Some? && c.parents == [p.core.sha] && c.tree == Target(p) }

  /** The first answer of the query for this plan's proposals, open or not. */
  predicate HasPull(s: State, p: Plan) { exists q | q in s.pulls :: q.branch == p.id && q.base == p.core.base }

  predicate OpenOn(q: Pull, user: User, base: Base) { q.open && q.user == user && q.base == base }

  // ----- Steps -----

  datatype Step =
    | Prepare(user: User, plan: Plan)
    | Begin(user: User)
    | RetireLegacy(user: User)
    | Settle(user: User, result: Plan)
    | Find(user: User)
    | TooLong(user: User)
    | CheckBase(user: User, head: Commit, base: Base)
    | Build(user: User, salt: int)
    | PostRef(user: User, landed: bool, replied: bool)
    | ReadRef(user: User)
    | PostPull(user: User, landed: bool, replied: bool)
    | FindAgain(user: User)
    | Finish(user: User)
    | GiveUp(user: User)
    | Restart
    | Expire(users: set<User>)
    | Push(id: Id, commit: Commit)
    | DropBranch(id: Id)
    | OpenOther(pull: Pull)
    | ClosePull(i: nat)
    | ReopenPull(i: nat)
    | Retarget(i: nat, base: Base)

  predicate At(s: State, user: User, place: Place) { user in s.ops && s.ops[user].place == place }

  /** What the status check may store for a plan being prepared: a result both validators accept, a
    * result that is held back, or a failure. */
  predicate Settles(p: Plan, q: Plan, valid: Lock -> bool) {
    && p.phase == Preparing && q.id == p.id && q.core == p.core
    && match q.phase
       case Ready => q.evidence.Some? && q.before == q.evidence.value.before.total &&
                     q.after == q.evidence.value.after.total && Reviewed(q, valid)
       case Blocked => q.lockfile.None?
       case Failed => q.lockfile.None? && q.evidence.None?
       case _ => false
  }

  /** The code host accepts one open proposal for each branch and base. */
  predicate MayOpen(s: State, p: Plan) {
    forall q | q in s.pulls :: !(q.branch == p.id && q.base == p.core.base && q.open)
  }

  predicate Enabled(s: State, step: Step, valid: Lock -> bool) {
    match step
    case Prepare(u, p) =>
      && u !in s.ops && p.id !in s.known && p.core.user == u
      && p.phase == Preparing && p.evidence.None? && p.lockfile.None?
      && (forall q | q in s.pulls :: !OpenOn(q, u, p.core.base))
    case Begin(u) => u !in s.ops && u in s.rows
    case RetireLegacy(u) =>
      && At(s, u, Started) && (s.ops[u].plan.phase == Ready || s.ops[u].plan.phase == Creating)
      && s.ops[u].plan.evidence.None?
    case Settle(u, q) => At(s, u, Started) && Settles(s.ops[u].plan, q, valid)
    case Find(u) =>
      && At(s, u, Started) && (s.ops[u].plan.phase == Ready || s.ops[u].plan.phase == Creating)
      && Reviewed(s.ops[u].plan, valid)
    case TooLong(u) =>
      && At(s, u, Started) && (s.ops[u].plan.phase == Ready || s.ops[u].plan.phase == Creating)
      && Reviewed(s.ops[u].plan, valid)
    case CheckBase(u, _, _) => At(s, u, Missing)
    case Build(u, _) => At(s, u, Announced) && s.ops[u].plan.lockfile.Some?
    case PostRef(u, landed, replied) =>
      && u in s.ops && s.ops[u].place.Built?
      && (landed ==> s.ops[u].plan.id !in s.branches)
      && (replied && !landed ==> s.ops[u].plan.id in s.branches)
    case ReadRef(u) => u in s.ops && s.ops[u].place.Conflict? && s.ops[u].plan.id in s.branches
    case PostPull(u, landed, replied) =>
      && u in s.ops && s.ops[u].place.Checked?
      && (landed ==> s.ops[u].plan.id in s.branches && MayOpen(s, s.ops[u].plan))
      && (replied ==> landed)
    case FindAgain(u) => At(s, u, Lost)
    case Finish(u) => At(s, u, Found)
    case GiveUp(u) => u in s.ops
    case Restart => true
    case Expire(_) => true
    case Push(_, _) => true
    case DropBranch(_) => true
    case OpenOther(q) => q.origin.None? && !q.reopened
    case ClosePull(i) => i < |s.pulls|
    case ReopenPull(i) => i < |s.pulls|
    case Retarget(i, _) => i < |s.pulls|
  }

  function Move(s: State, u: User, place: Place): State
    requires u in s.ops
  {
    s.(ops := s.ops[u := s.ops[u].(place := place)])
  }

  function End(s: State, u: User): State { s.(ops := s.ops - {u}) }

  function Save(s: State, u: User, p: Plan): State { s.(rows := s.rows[u := p]) }

  /** Somebody else moved or removed this branch. */
  function Touch(ops: map<User, Op>, id: Id): map<User, Op> {
    map u | u in ops :: if u in ops && ops[u].plan.id == id && ops[u].place.Checked? then
      ops[u].(place := ops[u].place.(touched := true)) else ops[u]
  }

  function Apply(s: State, step: Step, valid: Lock -> bool): State
    requires Enabled(s, step, valid)
  {
    match step
    case Prepare(u, p) => Save(s, u, p).(known := s.known[p.id := p.core])
    case Begin(u) => s.(ops := s.ops[u := Op(s.rows[u], Started)])
    case RetireLegacy(u) => End(Save(s, u, s.ops[u].plan.(phase := Blocked)), u)
    case Settle(u, q) => End(Save(s, u, q), u)
    case Find(u) => Move(s, u, if HasPull(s, s.ops[u].plan) then Found else Missing)
    case TooLong(u) => End(Save(s, u, s.ops[u].plan.(phase := Blocked)), u)
    case CheckBase(u, head, base) =>
      var p := s.ops[u].plan;
      if head == p.core.sha && base == p.core.base then
        var q := p.(phase := Creating);
        Save(s, u, q).(ops := s.ops[u := Op(q, Announced)])
      else End(Save(s, u, p.(phase := Blocked)), u)
    case Build(u, salt) =>
      var p := s.ops[u].plan;
      Move(s, u, Built(Commit([p.core.sha], Target(p), salt)))
    case PostRef(u, landed, replied) =>
      var id, c := s.ops[u].plan.id, s.ops[u].place.commit;
      var t := if landed then s.(branches := s.branches[id := c]) else s;
      if !replied then End(t, u)
      else if landed then Move(t, u, Checked(c, false))
      else Move(t, u, Conflict(c))
    case ReadRef(u) =>
      var p, c := s.ops[u].plan, s.ops[u].place.commit;
      var tip := s.branches[p.id];
      if tip.tree == c.tree && |tip.parents| == 1 && tip.parents[0] == p.core.sha then Move(s, u, Checked(tip, false))
      else End(Save(s, u, p.(phase := Blocked)), u)
    case PostPull(u, landed, replied) =>
      var p, place := s.ops[u].plan, s.ops[u].place;
      var t := if landed then
        s.(pulls := s.pulls + [Pull(p.id, u, p.core.base, true, false, false,
                                    Some(Origin(p, s.branches[p.id], place.tip, place.touched)))])
      else s;
      Move(t, u, if replied then Found else Lost)
    case FindAgain(u) => if HasPull(s, s.ops[u].plan) then Move(s, u, Found) else End(s, u)
    case Finish(u) => End(Save(s, u, s.ops[u].plan.(phase := Proposed)), u)
    case GiveUp(u) => End(s, u)
    case Restart => s.(ops := map[])
    case Expire(users) => s.(rows := s.rows - users)
    case Push(id, c) => s.(branches := s.branches[id := c], ops := Touch(s.ops, id))
    case DropBranch(id) => s.(branches := s.branches - {id}, ops := Touch(s.ops, id))
    case OpenOther(q) => s.(pulls := s.pulls + [q])
    case ClosePull(i) => s.(pulls := s.pulls[i := s.pulls[i].(open := false)])
    case ReopenPull(i) => s.(pulls := s.pulls[i := s.pulls[i].(open := true, reopened := true)])
    case Retarget(i, base) => s.(pulls := s.pulls[i := s.pulls[i].(base := base, moved := true)])
  }

  // ----- Every plan is registered, under its user -----

  predicate Known(s: State, p: Plan) { p.id in s.known && s.known[p.id] == p.core }

  predicate KnownUnder(s: State, u: User, p: Plan) { Known(s, p) && p.core.user == u }

  predicate PullKnown(s: State, q: Pull) {
    q.origin.Some? ==>
      && q.branch == q.origin.value.plan.id && KnownUnder(s, q.user, q.origin.value.plan)
      && (!q.moved ==> q.base == q.origin.value.plan.core.base)
  }

  ghost predicate Registered(s: State) {
    && (forall u | u in s.rows :: KnownUnder(s, u, s.rows[u]))
    && (forall u | u in s.ops :: KnownUnder(s, u, s.ops[u].plan))
    && (forall i | 0 <= i < |s.pulls| :: PullKnown(s, s.pulls[i]))
  }

  lemma RegisteredKept(s: State, step: Step, valid: Lock -> bool)
    requires Registered(s) && Enabled(s, step, valid)
    ensures Registered(Apply(s, step, valid))
  {
    hide Apply, Enabled, Reviewed;
    var t := Apply(s, step, valid);
    KnownAfter(s, step, valid);
    forall u | u in t.rows ensures KnownUnder(t, u, t.rows[u]) {
      RowAfter(s, step, valid, u);
      hide OpFrom, PullKnown;
    }
    forall u | u in t.ops ensures KnownUnder(t, u, t.ops[u].plan) {
      OpAfter(s, step, valid, u);
      hide RowFrom, PullKnown, Settles;
    }
    forall i | 0 <= i < |t.pulls| ensures PullKnown(t, t.pulls[i]) {
      PullAfter(s, step, valid, i);
      PostedByOp(s, step, valid);
      hide RowFrom, OpFrom, MayOpen, Settles;
    }
    hide *;
  }

  lemma PostedByOp(s: State, step: Step, valid: Lock -> bool)
    requires Enabled(s, step, valid)
    ensures step.PostPull? ==> step.user in s.ops && s.ops[step.user].place.Checked?
  {
  }

  // ----- Only reviewed patches are offered -----

  /** A plan stored by an older version, before evidence was kept, or one that has passed both checks
    * whenever it is offered. */
  predicate SoundPlan(p: Plan, legacy: set<Id>, valid: Lock -> bool) {
    if p.id in legacy then p.evidence.None? && p.phase != Preparing else Offered(p.phase) ==> Reviewed(p, valid)
  }

  predicate SoundOp(op: Op, legacy: set<Id>, valid: Lock -> bool) {
    SoundPlan(op.plan, legacy, valid) && (!op.place.Started? ==> Reviewed(op.plan, valid))
  }

  predicate SoundPull(q: Pull, valid: Lock -> bool) { q.origin.Some? ==> Reviewed(q.origin.value.plan, valid) }

  ghost predicate Sound(s: State, legacy: set<Id>, valid: Lock -> bool) {
    && legacy <= s.known.Keys
    && (forall u | u in s.rows :: SoundPlan(s.rows[u], legacy, valid))
    && (forall u | u in s.ops :: SoundOp(s.ops[u], legacy, valid))
    && (forall i | 0 <= i < |s.pulls| :: SoundPull(s.pulls[i], valid))
  }

  lemma ReviewedInAnyPhase(p: Plan, phase: Phase, valid: Lock -> bool)
    ensures Reviewed(p.(phase := phase), valid) == Reviewed(p, valid)
    ensures Reviewed(p, valid) ==> p.evidence.Some?
  {
  }

  lemma SoundKept(s: State, step: Step, legacy: set<Id>, valid: Lock -> bool)
    requires Sound(s, legacy, valid) && Enabled(s, step, valid)
    ensures Sound(Apply(s, step, valid), legacy, valid)
  {
    hide Apply, Enabled, Reviewed;
    var t := Apply(s, step, valid);
    KnownAfter(s, step, valid);
    forall u | u in t.rows ensures SoundPlan(t.rows[u], legacy, valid) {
      RowAfter(s, step, valid, u);
      if u in s.ops { ReviewedInAnyPhase(s.ops[u].plan, t.rows[u].phase, valid); }
      hide OpFrom, PullKnown;
    }
    forall u | u in t.ops ensures SoundOp(t.ops[u], legacy, valid) {
      OpAfter(s, step, valid, u);
      if u in s.ops { ReviewedInAnyPhase(s.ops[u].plan, t.ops[u].plan.phase, valid); }
      hide RowFrom, PullKnown, Settles;
    }
    forall i | 0 <= i < |t.pulls| ensures SoundPull(t.pulls[i], valid) {
      PullAfter(s, step, valid, i);
      PostedByOp(s, step, valid);
      hide RowFrom, OpFrom, MayOpen, Settles;
    }
    hide *;
  }

  // ----- What a proposal points at -----

  predicate PlaceSound(s: State, op: Op) {
    match op.place
    case Built(c) => Proper(c, op.plan)
    case Conflict(c) => Proper(c, op.plan)
    case Checked(tip, touched) =>
      Proper(tip, op.plan) && (!touched ==> op.plan.id in s.branches && s.branches[op.plan.id] == tip)
    case _ => true
  }

  predicate TipSound(q: Pull) {
    q.origin.Some? ==>
      && Proper(q.origin.value.checked, q.origin.value.plan)
      && (!q.origin.value.touched ==> q.origin.value.tip == q.origin.value.checked)
  }

  ghost predicate Tips(s: State) {
    && (forall u | u in s.ops :: PlaceSound(s, s.ops[u]))
    && (forall i | 0 <= i < |s.pulls| :: TipSound(s.pulls[i]))
  }

  lemma TipsKept(s: State, step: Step, valid: Lock -> bool)
    requires Tips(s) && Enabled(s, step, valid)
    ensures Tips(Apply(s, step, valid))
  {
    hide Apply, Enabled;
    var t := Apply(s, step, valid);
    forall u | u in t.ops ensures PlaceSound(t, t.ops[u]) {
      OpAfter(s, step, valid, u);
      if u in s.ops {
        PlaceSoundKept(s, step, valid, u);
      }
      hide RowFrom, PullKnown, Settles;
    }
    forall i | 0 <= i < |t.pulls| ensures TipSound(t.pulls[i]) {
      PullAfter(s, step, valid, i);
      PostedByOp(s, step, valid);
      hide RowFrom, OpFrom, MayOpen, Settles;
    }
    hide *;
  }

  // ----- One proposal for a plan -----

  /** Opened here, and still aimed where it was opened. */
  predicate Standing(q: Pull) { q.origin.Some? && !q.moved }

  predicate Searching(op: Op) {
    op.place.Missing? || op.place.Announced? || op.place.Built? || op.place.Conflict? || op.place.Checked?
  }

  ghost predicate NoneFor(pulls: seq<Pull>, id: Id) {
    forall i | 0 <= i < |pulls| :: Standing(pulls[i]) ==> pulls[i].branch != id
  }

  ghost predicate OneEach(s: State) {
    && (forall u | u in s.ops && Searching(s.ops[u]) :: NoneFor(s.pulls, s.ops[u].plan.id))
    && (forall i, j | 0 <= i < j < |s.pulls| && Standing(s.pulls[i]) && Standing(s.pulls[j]) ::
      s.pulls[i].branch != s.pulls[j].branch)
  }

  lemma NothingFound(s: State, p: Plan)
    requires Registered(s) && Known(s, p) && !HasPull(s, p)
    ensures NoneFor(s.pulls, p.id)
  {
    forall i | 0 <= i < |s.pulls| && Standing(s.pulls[i]) ensures s.pulls[i].branch != p.id {
    }
  }

  lemma NoneForKept(s: State, step: Step, valid: Lock -> bool, u: User)
    requires Registered(s) && OneEach(s) && Enabled(s, step, valid)
    requires u in Apply(s, step, valid).ops && Searching(Apply(s, step, valid).ops[u])
    ensures NoneFor(Apply(s, step, valid).pulls, Apply(s, step, valid).ops[u].plan.id)
  {
    hide Apply, Enabled;
    var t := Apply(s, step, valid);
    SearchingAfter(s, step, valid, u);
    if !Searching(s.ops[u]) {
      NothingFound(s, s.ops[u].plan);
    }
    PostedByOp(s, step, valid);
    forall i | 0 <= i < |t.pulls| && Standing(t.pulls[i]) ensures t.pulls[i].branch != t.ops[u].plan.id {
      PullAfter(s, step, valid, i);
      hide HasPull, MayOpen, PullKnown;
    }
    hide *;
  }

  lemma OneEachKept(s: State, step: Step, valid: Lock -> bool)
    requires Registered(s) && OneEach(s) && Enabled(s, step, valid)
    ensures OneEach(Apply(s, step, valid))
  {
    hide Apply, Enabled, Registered;
    var t := Apply(s, step, valid);
    forall u | u in t.ops && Searching(t.ops[u]) ensures NoneFor(t.pulls, t.ops[u].plan.id) {
      NoneForKept(s, step, valid, u);
      hide *;
    }
    forall i, j | 0 <= i < j < |t.pulls| && Standing(t.pulls[i]) && Standing(t.pulls[j])
      ensures t.pulls[i].branch != t.pulls[j].branch
    {
      PullAfter(s, step, valid, i);
      PullAfter(s, step, valid, j);
      PostedByOp(s, step, valid);
      hide MayOpen;
    }
    hide Searching, NoneFor, Standing;
  }

  // ----- One open proposal at a time -----

  /** Open since it was made here, and where it was made. */
  predicate Live(q: Pull) { Standing(q) && q.open && !q.reopened }

  /** The user's only live proposal for this base is this plan's. */
  ghost predicate Clear(s: State, u: User, p: Plan) {
    forall i | 0 <= i < |s.pulls| ::
      Live(s.pulls[i]) && s.pulls[i].user == u && s.pulls[i].base == p.core.base ==> s.pulls[i].branch == p.id
  }

  ghost predicate OneOpen(s: State) {
    && (forall u | u in s.rows :: Clear(s, u, s.rows[u]))
    && (forall u | u in s.ops :: Clear(s, u, s.ops[u].plan))
    && (forall u | u in s.rows && u in s.ops :: s.rows[u].id == s.ops[u].plan.id)
    && (forall i, j | 0 <= i < j < |s.pulls| && Live(s.pulls[i]) && Live(s.pulls[j]) ::
      !(s.pulls[i].user == s.pulls[j].user && s.pulls[i].base == s.pulls[j].base))
  }

  lemma ClearKept(s: State, step: Step, valid: Lock -> bool, u: User, p: Plan)
    requires Enabled(s, step, valid) && Clear(s, u, p)
    requires u in s.ops ==> s.ops[u].plan.id == p.id
    ensures Clear(Apply(s, step, valid), u, p)
  {
    hide Apply, Enabled;
    var t := Apply(s, step, valid);
    PostedByOp(s, step, valid);
    forall i | 0 <= i < |t.pulls| && Live(t.pulls[i]) && t.pulls[i].user == u && t.pulls[i].base == p.core.base
      ensures t.pulls[i].branch == p.id
    {
      PullAfter(s, step, valid, i);
      hide MayOpen;
    }
  }

  lemma RowClear(s: State, step: Step, valid: Lock -> bool, u: User)
    requires Registered(s) && OneOpen(s) && Enabled(s, step, valid) && u in Apply(s, step, valid).rows
    ensures Clear(Apply(s, step, valid), u, Apply(s, step, valid).rows[u])
  {
    hide Apply, Enabled, Reviewed;
    var p := Apply(s, step, valid).rows[u];
    RowAfter(s, step, valid, u);
    assert forall i | 0 <= i < |s.pulls| :: s.pulls[i] in s.pulls;
    assert Clear(s, u, p) && (u in s.ops ==> s.ops[u].plan.id == p.id);
    ClearKept(s, step, valid, u, p);
    hide *;
  }

  lemma OpClear(s: State, step: Step, valid: Lock -> bool, u: User)
    requires Registered(s) && OneOpen(s) && Enabled(s, step, valid) && u in Apply(s, step, valid).ops
    ensures Clear(Apply(s, step, valid), u, Apply(s, step, valid).ops[u].plan)
  {
    hide Apply, Enabled, Reviewed;
    var p := Apply(s, step, valid).ops[u].plan;
    OpAfter(s, step, valid, u);
    assert Clear(s, u, p) && (u in s.ops ==> s.ops[u].plan.id == p.id);
    ClearKept(s, step, valid, u, p);
    hide *;
  }

  lemma OneOpenKept(s: State, step: Step, valid: Lock -> bool)
    requires Registered(s) && OneEach(s) && OneOpen(s) && Enabled(s, step, valid)
    ensures OneOpen(Apply(s, step, valid))
  {
    hide Apply, Enabled;
    var t := Apply(s, step, valid);
    forall u | u in t.rows ensures Clear(t, u, t.rows[u]) { RowClear(s, step, valid, u); hide *; }
    forall u | u in t.ops ensures Clear(t, u, t.ops[u].plan) { OpClear(s, step, valid, u); hide *; }
    forall u | u in t.rows && u in t.ops ensures t.rows[u].id == t.ops[u].plan.id {
      SamePlanKept(s, step, valid, u);
      hide *;
    }
    forall i, j | 0 <= i < j < |t.pulls| && Live(t.pulls[i]) && Live(t.pulls[j])
      ensures !(t.pulls[i].user == t.pulls[j].user && t.pulls[i].base == t.pulls[j].base)
    {
      PullAfter(s, step, valid, i);
      PullAfter(s, step, valid, j);
      PostedByOp(s, step, valid);
      hide MayOpen, Registered;
    }
    hide *;
  }

  // ----- Whole runs -----

  ghost predicate Inv(s: State, legacy: set<Id>, valid: Lock -> bool) {
    Registered(s) && Sound(s, legacy, valid) && Tips(s) && OneEach(s) && OneOpen(s)
  }

  /** Nothing is running, nothing was proposed by this service, and plans without evidence are from before. */
  ghost predicate Init(s: State, legacy: set<Id>, valid: Lock -> bool) {
    && s.ops == map[] && (forall q | q in s.pulls :: q.origin.None?) && legacy <= s.known.Keys
    && (forall u | u in s.rows :: KnownUnder(s, u, s.rows[u]) && SoundPlan(s.rows[u], legacy, valid))
  }

  ghost predicate Run(s: State, steps: seq<Step>, t: State, valid: Lock -> bool)
    decreases |steps|
  {
    if steps == [] then s == t
    else Enabled(s, steps[0], valid) && Run(Apply(s, steps[0], valid), steps[1..], t, valid)
  }

  lemma {:induction false} RunKeeps(s: State, steps: seq<Step>, t: State, legacy: set<Id>, valid: Lock -> bool)
    requires Inv(s, legacy, valid) && Run(s, steps, t, valid)
    ensures Inv(t, legacy, valid)
    decreases |steps|
  {
    hide Apply, Enabled, Registered, Sound, Tips, OneEach, OneOpen;
    if steps != [] {
      RegisteredKept(s, steps[0], valid);
      SoundKept(s, steps[0], legacy, valid);
      TipsKept(s, steps[0], valid);
      OneEachKept(s, steps[0], valid);
      OneOpenKept(s, steps[0], valid);
      RunKeeps(Apply(s, steps[0], valid), steps[1..], t, legacy, valid);
    }
  }

  lemma FromInit(s: State, steps: seq<Step>, t: State, legacy: set<Id>, valid: Lock -> bool)
    requires Init(s, legacy, valid) && Run(s, steps, t, valid)
    ensures Inv(t, legacy, valid)
  {
    assert Inv(s, legacy, valid) by {
      assert forall i | 0 <= i < |s.pulls| :: s.pulls[i] in s.pulls;
    }
    RunKeeps(s, steps, t, legacy, valid);
  }

  /** However operations crash, fail and are retried, a plan is proposed once, unless somebody aims its
    * proposal at another base: of two proposals of one plan, one was moved. */
  lemma ProposedOnce(s: State, steps: seq<Step>, t: State, legacy: set<Id>, valid: Lock -> bool, i: nat, j: nat)
    requires Init(s, legacy, valid) && Run(s, steps, t, valid)
    requires i < j < |t.pulls| && t.pulls[i].origin.Some? && t.pulls[j].origin.Some?
    requires t.pulls[i].origin.value.plan.id == t.pulls[j].origin.value.plan.id
    ensures t.pulls[i].moved || t.pulls[j].moved
  {
    FromInit(s, steps, t, legacy, valid);
    assert PullKnown(t, t.pulls[i]) && PullKnown(t, t.pulls[j]);
    hide Run, Init, Sound, Tips, OneOpen;
  }

  /** At most one proposal of a user is open on a base, unless somebody reopened or moved one. */
  lemma OneOpenProposal(s: State, steps: seq<Step>, t: State, legacy: set<Id>, valid: Lock -> bool, i: nat, j: nat)
    requires Init(s, legacy, valid) && Run(s, steps, t, valid)
    requires i < j < |t.pulls| && t.pulls[i].origin.Some? && t.pulls[j].origin.Some?
    requires t.pulls[i].open && t.pulls[j].open
    requires t.pulls[i].user == t.pulls[j].user && t.pulls[i].base == t.pulls[j].base
    ensures t.pulls[i].moved || t.pulls[j].moved || t.pulls[i].reopened || t.pulls[j].reopened
  {
    FromInit(s, steps, t, legacy, valid);
    hide Run, Init, Sound, Tips, Registered, OneEach;
  }

  /** Nothing but the lockfile differs, directly on top of the reviewed commit. */
  ghost predicate OnlyLockfile(c: Commit, p: Plan) {
    && p.lockfile.Some?
    && c.parents == [p.core.sha]
    && LOCKFILE in c.tree && c.tree[LOCKFILE] == LockFile(p.lockfile.value)
    && forall path | path != LOCKFILE ::
      (path in c.tree <==> path in p.core.sha.tree) && (path in c.tree ==> c.tree[path] == p.core.sha.tree[path])
  }

  /** Every proposal is of a plan both checks accepted, and was opened when its branch had been seen to
    * hold nothing but the new lockfile on the reviewed commit; it points there unless somebody moved the
    * branch between that look and the opening. */
  lemma ProposalsProper(s: State, steps: seq<Step>, t: State, legacy: set<Id>, valid: Lock -> bool, i: nat)
    requires Init(s, legacy, valid) && Run(s, steps, t, valid)
    requires i < |t.pulls| && t.pulls[i].origin.Some?
    ensures var o := t.pulls[i].origin.value;
      && Reviewed(o.plan, valid)
      && OnlyLockfile(o.checked, o.plan)
      && (!o.touched ==> OnlyLockfile(o.tip, o.plan))
  {
    FromInit(s, steps, t, legacy, valid);
    assert SoundPull(t.pulls[i], valid) && TipSound(t.pulls[i]);
    hide Run, Init, OneOpen, Registered, OneEach, Sound, Tips, Reviewed;
  }

  /** A stored plan that is ready, being proposed or proposed has evidence and a lockfile that pass both
    * checks, unless it was stored before evidence was kept. */
  lemma StoredPlansReviewed(s: State, steps: seq<Step>, t: State, legacy: set<Id>, valid: Lock -> bool, u: User)
    requires Init(s, legacy, valid) && Run(s, steps, t, valid)
    requires u in t.rows && t.rows[u].phase in {Ready, Creating, Proposed} && t.rows[u].id !in legacy
    ensures Reviewed(t.rows[u], valid)
    ensures PatchPolicy.AcceptedFrom(t.rows[u].core.original, t.rows[u].lockfile.value, valid)
  {
    FromInit(s, steps, t, legacy, valid);
    hide Run, Init, OneOpen, Registered, OneEach, Tips;
    assert Reviewed(t.rows[u], valid);
    var row := t.rows[u];
    assert PatchPolicy.Accepts(row.core.original, row.lockfile.value, row.before, row.after, valid);
    hide PatchPolicy.Accepts, PatchAudit.Validate;
  }

  /** The service makes branches and never moves or removes one. */
  lemma BranchesOnlyAppear(s: State, step: Step, valid: Lock -> bool, id: Id)
    requires Enabled(s, step, valid) && !step.Push? && !step.DropBranch? && id in s.branches
    ensures id in Apply(s, step, valid).branches && Apply(s, step, valid).branches[id] == s.branches[id]
  {
    hide Reviewed, HasPull, MayOpen, OpenOn, Touch, Target, Proper, Offered, Settles;
  }

  // ----- What one step does to a row, an operation or a proposal -----

  /** A row after a step: it was there, an operation stored its plan in a new phase, a preparation was
    * settled, or it is new. */
  predicate RowFrom(s: State, t: State, u: User, p: Plan, valid: Lock -> bool) {
    || (u in s.rows && p == s.rows[u])
    || (u in s.ops && p == s.ops[u].plan.(phase := p.phase) && p.phase != Failed
        && (p.phase == Blocked || !s.ops[u].place.Started?))
    || (u in s.ops && Settles(s.ops[u].plan, p, valid))
    || (p.id !in s.known && Known(t, p) && p.core.user == u && p.phase == Preparing && p.evidence.None?
        && p.lockfile.None? && u !in s.ops && forall q | q in s.pulls :: !OpenOn(q, u, p.core.base))
  }

  lemma RowAfter(s: State, step: Step, valid: Lock -> bool, u: User)
    requires Enabled(s, step, valid) && u in Apply(s, step, valid).rows
    ensures var t := Apply(s, step, valid); RowFrom(s, t, u, t.rows[u], valid)
  {
    hide Reviewed, Target, HasPull, MayOpen, OpenOn, Settles, Touch;
  }

  /** An operation after a step: it has just read its row, or it was there, with the same plan but perhaps
    * another phase. */
  predicate OpFrom(s: State, u: User, op: Op, valid: Lock -> bool) {
    || (u in s.rows && op == Op(s.rows[u], Started))
    || (u in s.ops && op.plan == s.ops[u].plan.(phase := op.plan.phase) &&
        if s.ops[u].place.Started?
        then op.plan.phase == s.ops[u].plan.phase && (op.place.Started? || Reviewed(op.plan, valid))
        else !op.place.Started?)
  }

  lemma TouchAt(ops: map<User, Op>, id: Id, u: User)
    ensures u in Touch(ops, id) <==> u in ops
    ensures u in ops ==> var op := Touch(ops, id)[u];
      && op.plan == ops[u].plan
      && if ops[u].place.Checked? then op.place == Checked(ops[u].place.tip, ops[u].place.touched || op.plan.id == id)
         else op.place == ops[u].place
  {
  }

  lemma OpAfter(s: State, step: Step, valid: Lock -> bool, u: User)
    requires Enabled(s, step, valid) && u in Apply(s, step, valid).ops
    ensures OpFrom(s, u, Apply(s, step, valid).ops[u], valid)
  {
    if step.Push? || step.DropBranch? {
      assert Apply(s, step, valid).ops == Touch(s.ops, step.id);
      TouchAt(s.ops, step.id, u);
    } else {
      OpAfterOthers(s, step, valid, u);
    }
    hide *;
  }

  /** The steps up to the check of the base. */
  predicate EarlyStep(step: Step) {
    step.Prepare? || step.Begin? || step.RetireLegacy? || step.Settle? || step.Find? || step.TooLong? || step.CheckBase?
  }

  /** The steps of an operation from there on. */
  predicate LateStep(step: Step) {
    step.Build? || step.PostRef? || step.ReadRef? || step.PostPull? || step.FindAgain? || step.Finish? || step.GiveUp?
  }

  /** The user has an operation after the step. */
  predicate Works(s: State, step: Step, valid: Lock -> bool, u: User) {
    Enabled(s, step, valid) && u in Apply(s, step, valid).ops
  }

  lemma OpAfterEarly(s: State, step: Step, valid: Lock -> bool, u: User)
    ensures Works(s, step, valid, u) && EarlyStep(step) ==> OpFrom(s, u, Apply(s, step, valid).ops[u], valid)
  {
    hide Reviewed, Target, HasPull, MayOpen, OpenOn, Settles, Touch;
  }

  lemma OpAfterOthers(s: State, step: Step, valid: Lock -> bool, u: User)
    requires Enabled(s, step, valid) && u in Apply(s, step, valid).ops && !step.Push? && !step.DropBranch?
    ensures OpFrom(s, u, Apply(s, step, valid).ops[u], valid)
  {
    if EarlyStep(step) {
      OpAfterEarly(s, step, valid, u);
      hide *;
    } else {
      hide Reviewed, Target, HasPull, MayOpen, OpenOn, Settles, Touch;
    }
  }

  /** The proposal that posting opens. */
  function Opened(s: State, u: User): Pull
    requires u in s.ops && s.ops[u].place.Checked? && s.ops[u].plan.id in s.branches
  {
    var p, place := s.ops[u].plan, s.ops[u].place;
    Pull(p.id, u, p.core.base, true, false, false, Some(Origin(p, s.branches[p.id], place.tip, place.touched)))
  }

  /** The same proposal, whatever people did to it. */
  predicate Later(q: Pull, r: Pull) {
    && q.branch == r.branch && q.user == r.user && q.origin == r.origin
    && (q.moved ==> r.moved) && (q.reopened ==> r.reopened)
    && (!r.moved ==> q.base == r.base)
    && (!r.reopened && r.open ==> q.open)
  }

  lemma PullAfter(s: State, step: Step, valid: Lock -> bool, i: nat)
    requires Enabled(s, step, valid) && i < |Apply(s, step, valid).pulls|
    ensures |s.pulls| <= |Apply(s, step, valid).pulls| <= |s.pulls| + 1
    ensures i < |s.pulls| ==> Later(s.pulls[i], Apply(s, step, valid).pulls[i])
    ensures var q := Apply(s, step, valid).pulls[i];
      i >= |s.pulls| && q.origin.Some? ==>
        && step.PostPull? && s.ops[step.user].plan.id in s.branches
        && MayOpen(s, s.ops[step.user].plan) && q == Opened(s, step.user)
  {
    hide Reviewed, Target, HasPull, MayOpen, OpenOn, Settles, Touch;
  }

  lemma KnownAfter(s: State, step: Step, valid: Lock -> bool)
    requires Enabled(s, step, valid)
    ensures var t := Apply(s, step, valid); forall id | id in s.known :: id in t.known && t.known[id] == s.known[id]
  {
    hide Reviewed, Target, HasPull, MayOpen, OpenOn, Settles, Touch;
  }

  lemma PlaceSoundKept(s: State, step: Step, valid: Lock -> bool, u: User)
    requires Enabled(s, step, valid) && u in Apply(s, step, valid).ops
    requires u in s.ops ==> PlaceSound(s, s.ops[u])
    ensures PlaceSound(Apply(s, step, valid), Apply(s, step, valid).ops[u])
  {
    if step.Push? || step.DropBranch? {
      assert Apply(s, step, valid).ops == Touch(s.ops, step.id);
      TouchAt(s.ops, step.id, u);
      hide Touch, Proper;
    } else {
      if step.PostRef? {
        PlaceSoundPosting(s, step, valid, u);
      } else {
        PlaceSoundOthers(s, step, valid, u);
      }
      hide Enabled, Apply, PlaceSound;
    }
  }

  predicate PlaceKept(s: State, step: Step, valid: Lock -> bool, u: User) {
    Works(s, step, valid, u) && (u in s.ops ==> PlaceSound(s, s.ops[u])) ==>
      PlaceSound(Apply(s, step, valid), Apply(s, step, valid).ops[u])
  }

  lemma PlaceSoundPosting(s: State, step: Step, valid: Lock -> bool, u: User)
    ensures step.PostRef? ==> PlaceKept(s, step, valid, u)
  {
    hide Proper;
  }

  lemma PlaceSoundEarly(s: State, step: Step, valid: Lock -> bool, u: User)
    ensures EarlyStep(step) ==> PlaceKept(s, step, valid, u)
  {
    hide Reviewed, HasPull, MayOpen, OpenOn, Settles, Touch, Target;
  }

  lemma PlaceSoundOthers(s: State, step: Step, valid: Lock -> bool, u: User)
    ensures !step.Push? && !step.DropBranch? && !step.PostRef? ==> PlaceKept(s, step, valid, u)
  {
    if EarlyStep(step) {
      PlaceSoundEarly(s, step, valid, u);
      hide PlaceKept;
    } else {
      hide Reviewed, HasPull, MayOpen, OpenOn, Settles, Touch, Target;
    }
  }

  predicate SearchedBefore(s: State, step: Step, valid: Lock -> bool, u: User) {
    Works(s, step, valid, u) && Searching(Apply(s, step, valid).ops[u]) ==>
      && u in s.ops && s.ops[u].plan.id == Apply(s, step, valid).ops[u].plan.id
      && (!Searching(s.ops[u]) ==> Apply(s, step, valid).pulls == s.pulls && !HasPull(s, s.ops[u].plan))
      && !(step.PostPull? && step.user == u)
  }

  lemma SearchingAfterEarly(s: State, step: Step, valid: Lock -> bool, u: User)
    ensures EarlyStep(step) ==> SearchedBefore(s, step, valid, u)
  {
    hide Reviewed, HasPull, MayOpen, OpenOn, Settles, Touch, Target, Proper, Offered;
  }

  lemma SearchingAfterLate(s: State, step: Step, valid: Lock -> bool, u: User)
    ensures LateStep(step) ==> SearchedBefore(s, step, valid, u)
  {
    hide Reviewed, HasPull, MayOpen, OpenOn, Settles, Touch, Target, Proper, Offered;
  }

  /** An operation that is past its search was so before, or has just found nothing. */
  lemma SearchingAfter(s: State, step: Step, valid: Lock -> bool, u: User)
    requires Enabled(s, step, valid) && u in Apply(s, step, valid).ops && Searching(Apply(s, step, valid).ops[u])
    ensures u in s.ops && s.ops[u].plan.id == Apply(s, step, valid).ops[u].plan.id
    ensures !Searching(s.ops[u]) ==> Apply(s, step, valid).pulls == s.pulls && !HasPull(s, s.ops[u].plan)
    ensures !(step.PostPull? && step.user == u)
  {
    if step.Push? || step.DropBranch? {
      assert Apply(s, step, valid).ops == Touch(s.ops, step.id);
      TouchAt(s.ops, step.id, u);
      hide Touch;
    } else if EarlyStep(step) {
      SearchingAfterEarly(s, step, valid, u);
      hide Enabled, Apply, HasPull;
    } else if LateStep(step) {
      SearchingAfterLate(s, step, valid, u);
      hide Enabled, Apply, HasPull;
    } else {
      hide Reviewed, HasPull, MayOpen, OpenOn, Settles, Touch, Target, Proper, Offered;
    }
  }

  predicate SamePlan(s: State, u: User) { u in s.rows && u in s.ops ==> s.rows[u].id == s.ops[u].plan.id }

  lemma SamePlanKeptEarly(s: State, step: Step, valid: Lock -> bool, u: User)
    ensures EarlyStep(step) && Enabled(s, step, valid) && SamePlan(s, u) ==> SamePlan(Apply(s, step, valid), u)
  {
    hide Reviewed, HasPull, MayOpen, OpenOn, Touch, Target, Proper, Offered;
  }

  /** The stored plan is the one being worked on. */
  lemma SamePlanKept(s: State, step: Step, valid: Lock -> bool, u: User)
    requires SamePlan(s, u) && Enabled(s, step, valid)
    ensures SamePlan(Apply(s, step, valid), u)
  {
    if step.Push? || step.DropBranch? {
      assert Apply(s, step, valid).ops == Touch(s.ops, step.id);
      TouchAt(s.ops, step.id, u);
      hide Touch;
    } else if EarlyStep(step) {
      SamePlanKeptEarly(s, step, valid, u);
      hide *;
    } else {
      hide Reviewed, HasPull, MayOpen, OpenOn, Touch, Target, Proper, Offered, Settles;
    }
  }
}
