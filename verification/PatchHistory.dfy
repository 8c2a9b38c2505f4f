/** What the past of a run says about its proposals (apps/backend/src/deploy/security-patch.service.ts).
  *
  * A proposal is opened only by an operation that has compared the base branch with the reviewed commit before, and
  * a plan counts as proposed only when there is a proposal of it. Every refusal blocks the plan and does nothing else.
  */
module PatchHistory {
  import opened Common
  import PatchAudit
  import PatchPolicy
  import opened PatchProtocol

  // ----- The comparison with the base -----

  /** Step c found the user's base branch at the reviewed commit, and the operation went on until step n. */
  ghost predicate CheckedAt(steps: seq<Step>, c: nat, n: nat, u: User, core: Core) {
    && c < n <= |steps|
    && steps[c] == CheckBase(u, core.sha, core.base)
    && forall k | c < k < n :: steps[k] != Restart && steps[k] != Begin(u)
  }

  ghost predicate Checked(steps: seq<Step>, n: nat, u: User, core: Core) {
    exists c: nat :: CheckedAt(steps, c, n, u, core)
  }

  /** Step n opened the proposal, in an operation that had compared the base. */
  ghost predicate OpenedAt(steps: seq<Step>, n: nat, q: Pull)
    requires q.origin.Some?
  {
    && n < |steps| && steps[n].PostPull? && steps[n].user == q.user && steps[n].landed
    && Checked(steps, n, q.user, q.origin.value.plan.core)
  }

  ghost predicate Justified(steps: seq<Step>, q: Pull) {
    q.origin.Some? ==> exists n: nat :: OpenedAt(steps, n, q)
  }

  /** The operation has compared the base and has not ended. */
  predicate PastCheck(place: Place) {
    place.Announced? || place.Built? || place.Conflict? || place.Checked? || place.Lost?
  }

  ghost predicate History(s: State, done: seq<Step>) {
    && (forall u | u in s.ops && PastCheck(s.ops[u].place) :: Checked(done, |done|, u, s.ops[u].plan.core))
    && (forall i | 0 <= i < |s.pulls| :: Justified(done, s.pulls[i]))
  }

  lemma CheckedMore(done: seq<Step>, step: Step, n: nat, u: User, core: Core)
    requires Checked(done, n, u, core)
    ensures Checked(done + [step], n, u, core)
    ensures n == |done| && step != Restart && step != Begin(u) ==> Checked(done + [step], n + 1, u, core)
  {
    var c: nat :| CheckedAt(done, c, n, u, core);
    var more := done + [step];
    assert forall k | 0 <= k < |done| :: more[k] == done[k];
    assert CheckedAt(more, c, n, u, core);
    if n == |done| && step != Restart && step != Begin(u) {
      assert more[n] == step;
      assert CheckedAt(more, c, n + 1, u, core);
    }
  }

  lemma JustifiedMore(done: seq<Step>, step: Step, q: Pull, r: Pull)
    requires Justified(done, q) && q.user == r.user && q.origin == r.origin
    ensures Justified(done + [step], r)
  {
    if q.origin.Some? {
      var n: nat :| OpenedAt(done, n, q);
      CheckedMore(done, step, n, q.user, q.origin.value.plan.core);
      assert (done + [step])[n] == done[n];
      assert OpenedAt(done + [step], n, r);
    }
  }

  /** An operation past the comparison was there before, or has just made it. */
  predicate PastBefore(s: State, step: Step, valid: Lock -> bool, u: User) {
    Works(s, step, valid, u) && PastCheck(Apply(s, step, valid).ops[u].place) ==>
      var core := Apply(s, step, valid).ops[u].plan.core;
      && u in s.ops && s.ops[u].plan.core == core && step != Restart && step != Begin(u)
      && (PastCheck(s.ops[u].place) || step == CheckBase(u, core.sha, core.base))
  }

  lemma PastAfterEarly(s: State, step: Step, valid: Lock -> bool, u: User)
    ensures EarlyStep(step) ==> PastBefore(s, step, valid, u)
  {
    hide Reviewed, HasPull, MayOpen, OpenOn, Settles, Touch, Target;
  }

  lemma PastAfterLate(s: State, step: Step, valid: Lock -> bool, u: User)
    ensures LateStep(step) ==> PastBefore(s, step, valid, u)
  {
    hide Reviewed, HasPull, MayOpen, OpenOn, Settles, Touch, Target;
  }

  lemma PastAfter(s: State, step: Step, valid: Lock -> bool, u: User)
    ensures PastBefore(s, step, valid, u)
  {
    if step.Push? || step.DropBranch? {
      TouchAt(s.ops, step.id, u);
      hide Touch;
    } else if EarlyStep(step) {
      PastAfterEarly(s, step, valid, u);
      hide *;
    } else if LateStep(step) {
      PastAfterLate(s, step, valid, u);
      hide *;
    } else {
      hide Touch;
    }
  }

  lemma HistoryKept(s: State, done: seq<Step>, step: Step, valid: Lock -> bool)
    requires History(s, done) && Enabled(s, step, valid)
    ensures History(Apply(s, step, valid), done + [step])
  {
    var t, more := Apply(s, step, valid), done + [step];
    hide Enabled, Apply, Checked, Justified;
    forall u | u in t.ops && PastCheck(t.ops[u].place) ensures Checked(more, |more|, u, t.ops[u].plan.core) {
      PastAfter(s, step, valid, u);
      var core := t.ops[u].plan.core;
      if PastCheck(s.ops[u].place) {
        CheckedMore(done, step, |done|, u, core);
      } else {
        JustChecked(done, u, core);
      }
    }
    forall i | 0 <= i < |t.pulls| ensures Justified(more, t.pulls[i]) {
      PullAfter(s, step, valid, i);
      if i < |s.pulls| {
        JustifiedMore(done, step, s.pulls[i], t.pulls[i]);
      } else {
        JustOpened(s, done, step, valid, i);
      }
    }
  }

  lemma JustChecked(done: seq<Step>, u: User, core: Core)
    ensures Checked(done + [CheckBase(u, core.sha, core.base)], |done| + 1, u, core)
  {
    assert CheckedAt(done + [CheckBase(u, core.sha, core.base)], |done|, |done| + 1, u, core);
  }

  lemma JustOpened(s: State, done: seq<Step>, step: Step, valid: Lock -> bool, i: nat)
    requires History(s, done) && Enabled(s, step, valid) && |s.pulls| <= i < |Apply(s, step, valid).pulls|
    ensures Justified(done + [step], Apply(s, step, valid).pulls[i])
  {
    var q := Apply(s, step, valid).pulls[i];
    PullAfter(s, step, valid, i);
    if q.origin.Some? {
      var op := s.ops[step.user];
      assert PastCheck(op.place) && step.landed;
      assert q.user == step.user && q.origin.value.plan == op.plan;
      CheckedMore(done, step, |done|, step.user, op.plan.core);
      assert (done + [step])[|done|] == step;
      assert OpenedAt(done + [step], |done|, q);
    }
    hide Checked;
  }

  lemma {:induction false} HistoryRuns(s: State, done: seq<Step>, steps: seq<Step>, t: State, valid: Lock -> bool)
    requires History(s, done) && Run(s, steps, t, valid)
    ensures History(t, done + steps)
    decreases |steps|
  {
    hide Apply, Enabled, History;
    if steps == [] {
      assert done + steps == done;
    } else {
      HistoryKept(s, done, steps[0], valid);
      assert done + [steps[0]] + steps[1..] == done + steps;
      HistoryRuns(Apply(s, steps[0], valid), done + [steps[0]], steps[1..], t, valid);
    }
  }

  /** In every run each proposal this service opened was opened by an operation that had found the base branch of
    * the plan at the reviewed commit, without a restart in between. */
  lemma ProposedOnReviewedBase(s: State, steps: seq<Step>, t: State, legacy: set<Id>, valid: Lock -> bool, i: nat)
    requires Init(s, legacy, valid) && Run(s, steps, t, valid)
    requires i < |t.pulls| && t.pulls[i].origin.Some?
    ensures exists n: nat :: OpenedAt(steps, n, t.pulls[i])
  {
    assert History(s, []) by {
      assert forall j | 0 <= j < |s.pulls| :: s.pulls[j] in s.pulls;
    }
    assert [] + steps == steps;
    hide Init, Run;
    HistoryRuns(s, [], steps, t, valid);
    assert Justified(steps, t.pulls[i]);
  }

  // ----- Refusals -----

  /** The user's row now holds this plan, and the rows of others are as they were. */
  predicate Stored(s: State, t: State, u: User, p: Plan) {
    u in t.rows && t.rows[u] == p && t.rows - {u} == s.rows - {u}
  }

  /** The user's operation is over; the operations of others, branches and proposals are as they were. */
  predicate Ended(s: State, t: State, u: User) {
    u !in t.ops && t.ops == s.ops - {u} && t.branches == s.branches && t.pulls == s.pulls && t.known == s.known
  }

  /** The plan is blocked, the operation ends, and nothing else happens. */
  predicate Refused(s: State, t: State, u: User)
    requires u in s.ops
  {
    Stored(s, t, u, s.ops[u].plan.(phase := Blocked)) && Ended(s, t, u)
  }

  /** A base branch that has moved past the reviewed commit, or is another one, refuses the plan. */
  lemma OtherBaseRefused(s: State, u: User, head: Commit, base: Base, valid: Lock -> bool)
    requires Enabled(s, CheckBase(u, head, base), valid)
    ensures var core, t := s.ops[u].plan.core, Apply(s, CheckBase(u, head, base), valid);
      if head != core.sha || base != core.base then Refused(s, t, u)
      else
        && u in t.ops && t.ops[u] == Op(s.ops[u].plan.(phase := Creating), Announced)
        && Stored(s, t, u, s.ops[u].plan.(phase := Creating))
        && t.branches == s.branches && t.pulls == s.pulls
  {
  }

  /** So does a branch of the plan's name that holds anything but the plan's tree directly on the reviewed commit. */
  lemma OtherBranchRefused(s: State, u: User, valid: Lock -> bool)
    requires Enabled(s, ReadRef(u), valid)
    ensures var p, built, t := s.ops[u].plan, s.ops[u].place.commit, Apply(s, ReadRef(u), valid);
      var tip := s.branches[p.id];
      if tip.tree != built.tree || tip.parents != [p.core.sha] then Refused(s, t, u)
      else t == s.(ops := s.ops[u := Op(p, PatchProtocol.Checked(tip, false))])
  {
    hide Reviewed;
  }

  /** A plan from before evidence was kept, or whose proposal would be too long a text, is refused as well. */
  lemma UnfitRefused(s: State, step: Step, valid: Lock -> bool)
    requires Enabled(s, step, valid) && (step.RetireLegacy? || step.TooLong?)
    ensures Refused(s, Apply(s, step, valid), step.user)
  {
    hide Reviewed;
  }

  // ----- What counts as proposed -----

  ghost predicate PullOf(s: State, id: Id) { exists i | 0 <= i < |s.pulls| :: s.pulls[i].branch == id }

  /** Plans marked as proposed, and those about to be, have a proposal. */
  ghost predicate Shown(s: State) {
    && (forall u | u in s.rows && s.rows[u].phase == Proposed :: PullOf(s, s.rows[u].id))
    && (forall u | u in s.ops && s.ops[u].place.Found? :: PullOf(s, s.ops[u].plan.id))
  }

  lemma PullStays(s: State, step: Step, valid: Lock -> bool, id: Id)
    requires Enabled(s, step, valid) && PullOf(s, id)
    ensures PullOf(Apply(s, step, valid), id)
  {
    var i :| 0 <= i < |s.pulls| && s.pulls[i].branch == id;
    hide Enabled, Apply;
    PullAfter(s, step, valid, 0);
    PullAfter(s, step, valid, i);
    assert Apply(s, step, valid).pulls[i].branch == id;
  }

  predicate FoundBefore(s: State, step: Step, valid: Lock -> bool, u: User) {
    Works(s, step, valid, u) && Apply(s, step, valid).ops[u].place.Found? ==>
      && u in s.ops && s.ops[u].plan.id == Apply(s, step, valid).ops[u].plan.id
      && (s.ops[u].place.Found? || HasPull(s, s.ops[u].plan) || (step.PostPull? && step.user == u && step.landed))
  }

  lemma FoundAfterEarly(s: State, step: Step, valid: Lock -> bool, u: User)
    ensures EarlyStep(step) ==> FoundBefore(s, step, valid, u)
  {
    hide Reviewed, HasPull, MayOpen, OpenOn, Settles, Touch, Target;
  }

  lemma FoundAfter(s: State, step: Step, valid: Lock -> bool, u: User)
    ensures FoundBefore(s, step, valid, u)
  {
    if step.Push? || step.DropBranch? {
      TouchAt(s.ops, step.id, u);
      hide Touch;
    } else if EarlyStep(step) {
      FoundAfterEarly(s, step, valid, u);
      hide *;
    } else {
      hide Reviewed, HasPull, MayOpen, OpenOn, Settles, Touch, Target;
    }
  }

  /** Only the end of an operation that has found a proposal marks a plan as proposed. */
  lemma ProposedFrom(s: State, step: Step, valid: Lock -> bool, u: User)
    requires Enabled(s, step, valid) && u in Apply(s, step, valid).rows
    ensures var p := Apply(s, step, valid).rows[u];
      p.phase == Proposed ==>
      || (u in s.rows && s.rows[u] == p)
      || (step == Finish(u) && At(s, u, Found) && s.ops[u].plan.id == p.id)
  {
    hide Reviewed, HasPull, MayOpen, OpenOn, Touch, Target;
  }

  lemma FinishProposes(s: State, u: User, valid: Lock -> bool)
    requires Enabled(s, Finish(u), valid)
    ensures var t := Apply(s, Finish(u), valid); Stored(s, t, u, s.ops[u].plan.(phase := Proposed)) && Ended(s, t, u)
  {
    hide Reviewed;
  }

  lemma FoundShown(s: State, step: Step, valid: Lock -> bool, u: User)
    requires Shown(s) && Enabled(s, step, valid) && At(Apply(s, step, valid), u, Found)
    ensures PullOf(Apply(s, step, valid), Apply(s, step, valid).ops[u].plan.id)
  {
    FoundAfter(s, step, valid, u);
    var id := Apply(s, step, valid).ops[u].plan.id;
    if step.PostPull? && step.user == u && step.landed {
      assert Apply(s, step, valid).pulls[|s.pulls|].branch == id;
    } else {
      assert s.ops[u].place.Found? || HasPull(s, s.ops[u].plan);
      hide Enabled, Apply;
      assert PullOf(s, id);
      PullStays(s, step, valid, id);
    }
  }

  lemma ShownKept(s: State, step: Step, valid: Lock -> bool)
    requires Shown(s) && Enabled(s, step, valid)
    ensures Shown(Apply(s, step, valid))
  {
    var t := Apply(s, step, valid);
    hide Enabled, Apply, PullOf;
    forall u | u in t.rows && t.rows[u].phase == Proposed ensures PullOf(t, t.rows[u].id) {
      ProposedFrom(s, step, valid, u);
      PullStays(s, step, valid, t.rows[u].id);
    }
    forall u | u in t.ops && t.ops[u].place.Found? ensures PullOf(t, t.ops[u].plan.id) {
      FoundShown(s, step, valid, u);
    }
  }

  /** In every run a plan marked as proposed has a proposal, if that was so at the start. */
  lemma ProposedHasPull(s: State, steps: seq<Step>, t: State, valid: Lock -> bool)
    requires s.ops == map[] && forall u | u in s.rows && s.rows[u].phase == Proposed :: PullOf(s, s.rows[u].id)
    requires Run(s, steps, t, valid)
    ensures forall u | u in t.rows && t.rows[u].phase == Proposed :: PullOf(t, t.rows[u].id)
  {
    hide PullOf, Run;
    ShownRuns(s, steps, t, valid);
  }

  lemma {:induction false} ShownRuns(s: State, steps: seq<Step>, t: State, valid: Lock -> bool)
    requires Shown(s) && Run(s, steps, t, valid)
    ensures Shown(t)
    decreases |steps|
  {
    hide Apply, Enabled, Shown;
    if steps != [] {
      ShownKept(s, steps[0], valid);
      ShownRuns(Apply(s, steps[0], valid), steps[1..], t, valid);
    }
  }

  // ----- What a stored plan tells -----

  /** A lockfile is kept only with the evidence that passed both checks, and the counts shown are that evidence's. */
  predicate Backed(p: Plan, legacy: set<Id>, valid: Lock -> bool) {
    p.id !in legacy && p.lockfile.Some? ==>
      && Reviewed(p, valid) && p.evidence.Some?
      && p.before == p.evidence.value.before.total && p.after == p.evidence.value.after.total
  }

  predicate FailedEmpty(p: Plan, legacy: set<Id>) {
    p.id !in legacy && p.phase == Failed ==> p.evidence.None? && p.lockfile.None?
  }

  ghost predicate Telling(s: State, legacy: set<Id>, valid: Lock -> bool) {
    && (forall u | u in s.rows :: Backed(s.rows[u], legacy, valid) && FailedEmpty(s.rows[u], legacy))
    && (forall u | u in s.ops :: Backed(s.ops[u].plan, legacy, valid))
  }

  lemma BackedInAnyPhase(p: Plan, phase: Phase, legacy: set<Id>, valid: Lock -> bool)
    ensures Backed(p.(phase := phase), legacy, valid) == Backed(p, legacy, valid)
  {
    ReviewedInAnyPhase(p, phase, valid);
    hide Reviewed;
  }

  lemma TellingKept(s: State, step: Step, legacy: set<Id>, valid: Lock -> bool)
    requires Telling(s, legacy, valid) && Enabled(s, step, valid)
    ensures Telling(Apply(s, step, valid), legacy, valid)
  {
    hide Apply, Enabled, Reviewed;
    var t := Apply(s, step, valid);
    forall u | u in t.rows ensures Backed(t.rows[u], legacy, valid) && FailedEmpty(t.rows[u], legacy) {
      RowAfter(s, step, valid, u);
      if u in s.ops { BackedInAnyPhase(s.ops[u].plan, t.rows[u].phase, legacy, valid); }
    }
    forall u | u in t.ops ensures Backed(t.ops[u].plan, legacy, valid) {
      OpAfter(s, step, valid, u);
      if u in s.ops { BackedInAnyPhase(s.ops[u].plan, t.ops[u].plan.phase, legacy, valid); }
    }
    hide *;
  }

  lemma {:induction false} TellingRuns(s: State, steps: seq<Step>, t: State, legacy: set<Id>, valid: Lock -> bool)
    requires Telling(s, legacy, valid) && Run(s, steps, t, valid)
    ensures Telling(t, legacy, valid)
    decreases |steps|
  {
    hide Apply, Enabled, Telling;
    if steps != [] {
      TellingKept(s, steps[0], legacy, valid);
      TellingRuns(Apply(s, steps[0], valid), steps[1..], t, legacy, valid);
    }
  }

  /** In every run a stored plan holds a lockfile only if it passed both checks with the evidence stored beside it,
    * whose totals are the counts shown, even when it was blocked later; a failed plan holds neither. */
  lemma PlansTell(s: State, steps: seq<Step>, t: State, legacy: set<Id>, valid: Lock -> bool, u: User)
    requires s.ops == map[] && Run(s, steps, t, valid)
    requires forall w | w in s.rows :: Backed(s.rows[w], legacy, valid) && FailedEmpty(s.rows[w], legacy)
    requires u in t.rows && t.rows[u].id !in legacy
    ensures t.rows[u].lockfile.Some? ==>
      && Reviewed(t.rows[u], valid) && t.rows[u].evidence.Some?
      && t.rows[u].before == t.rows[u].evidence.value.before.total
      && t.rows[u].after == t.rows[u].evidence.value.after.total
    ensures t.rows[u].phase == Failed ==> t.rows[u].evidence.None? && t.rows[u].lockfile.None?
  {
    hide Run, Reviewed;
    assert Telling(s, legacy, valid);
    TellingRuns(s, steps, t, legacy, valid);
    assert Backed(t.rows[u], legacy, valid) && FailedEmpty(t.rows[u], legacy);
  }

  // ----- What changes a stored plan -----

  /** This step blocks the plan the user's operation works on: it has no evidence, its text is too long, its base is
    * another one or has moved, or its branch holds something else. */
  predicate Refuses(s: State, step: Step, u: User)
    requires u in s.ops
  {
    var p, place := s.ops[u].plan, s.ops[u].place;
    || (step == RetireLegacy(u) && place == Started && (p.phase == Ready || p.phase == Creating) && p.evidence.None?)
    || (step == TooLong(u) && place == Started && (p.phase == Ready || p.phase == Creating) && p.evidence.Some?)
    || (step.CheckBase? && step.user == u && place == Missing && (step.head != p.core.sha || step.base != p.core.base))
    || (step == ReadRef(u) && place.Conflict? && p.id in s.branches &&
        (s.branches[p.id].parents != [p.core.sha] || s.branches[p.id].tree != place.commit.tree))
  }

  /** This step stores this plan for the user. */
  predicate Stores(s: State, step: Step, u: User, p: Plan) {
    match p.phase
    case Preparing => step == Prepare(u, p) && p.id !in s.known && u !in s.ops && p.core.user == u
    case Ready => step == Settle(u, p)
    case Failed => step == Settle(u, p)
    case Blocked =>
      || step == Settle(u, p)
      || (u in s.ops && p == s.ops[u].plan.(phase := Blocked) && Refuses(s, step, u))
    case Creating =>
      At(s, u, Missing) && p == s.ops[u].plan.(phase := Creating) && step == CheckBase(u, p.core.sha, p.core.base)
    case Proposed => At(s, u, Found) && p == s.ops[u].plan.(phase := Proposed) && step == Finish(u)
  }

  /** A stored plan changes exactly when its own preparation or operation says so, and goes only when it expires. */
  lemma RowsFollow(s: State, step: Step, u: User, valid: Lock -> bool)
    requires Enabled(s, step, valid)
    ensures RowFollows(s, step, Apply(s, step, valid), u)
  {
    if step.CheckBase? {
      OtherBaseRefused(s, step.user, step.head, step.base, valid);
      assert At(s, step.user, Missing);
      hide Enabled, Apply;
    } else {
      RowsFollowOther(s, step, u, valid);
      hide *;
    }
  }

  /** The row stays, or goes because it expires, or is what this step stores. */
  predicate RowFollows(s: State, step: Step, t: State, u: User) {
    && (u in s.rows && u !in t.rows ==> step.Expire? && u in step.users)
    && (step.Expire? && u in step.users ==> u !in t.rows)
    && (u in t.rows ==> (u in s.rows && s.rows[u] == t.rows[u]) || Stores(s, step, u, t.rows[u]))
  }

  lemma RowsFollowOther(s: State, step: Step, u: User, valid: Lock -> bool)
    requires Enabled(s, step, valid) && !step.CheckBase?
    ensures RowFollows(s, step, Apply(s, step, valid), u)
  {
    if step.TooLong? { ReviewedInAnyPhase(s.ops[step.user].plan, Blocked, valid); }
    hide Reviewed, HasPull, MayOpen, OpenOn, Touch, Target;
  }

  lemma StoresIt(s: State, step: Step, u: User, p: Plan, valid: Lock -> bool)
    requires Enabled(s, step, valid) && Stores(s, step, u, p)
    ensures var t := Apply(s, step, valid); u in t.rows && t.rows[u] == p
  {
    if step.CheckBase? {
      OtherBaseRefused(s, step.user, step.head, step.base, valid);
      hide Enabled, Apply;
    } else if step.ReadRef? {
      OtherBranchRefused(s, step.user, valid);
      hide Enabled, Apply;
    } else {
      StoresOther(s, step, u, p, valid);
      hide *;
    }
  }

  lemma StoresOther(s: State, step: Step, u: User, p: Plan, valid: Lock -> bool)
    requires Enabled(s, step, valid) && Stores(s, step, u, p) && !step.CheckBase? && !step.ReadRef?
    ensures var t := Apply(s, step, valid); u in t.rows && t.rows[u] == p
  {
    hide Reviewed, HasPull, MayOpen, OpenOn, Touch, Target;
  }

  /** What an operation that has read its plan can do with it: settle one that is being prepared, as ready if the result
    * passes both checks; retire one without evidence; search for the proposal of one both checks accept. */
  lemma AfterReading(s: State, u: User, valid: Lock -> bool)
    requires At(s, u, Started)
    ensures var p := s.ops[u].plan;
      var offered := p.phase == Ready || p.phase == Creating;
      && (Enabled(s, RetireLegacy(u), valid) <==> offered && p.evidence.None?)
      && (Enabled(s, Find(u), valid) ==> offered && p.evidence.Some? && p.lockfile.Some?)
      && (Enabled(s, TooLong(u), valid) <==> Enabled(s, Find(u), valid))
      && (offered && Reviewed(p, valid) ==> Enabled(s, Find(u), valid))
    ensures var p := s.ops[u].plan;
      p.phase == Preparing && p.evidence.None? && p.lockfile.None? ==>
        && Enabled(s, Settle(u, p.(phase := Failed)), valid)
        && forall e: Option<Evidence> :: Enabled(s, Settle(u, p.(phase := Blocked, evidence := e)), valid)
  {
  }

  lemma ReadyResult(s: State, u: User, e: Evidence, lock: Lock, valid: Lock -> bool)
    requires At(s, u, Started) && s.ops[u].plan.phase == Preparing
    ensures var p := s.ops[u].plan;
      Enabled(s, Settle(u, p.(phase := Ready, evidence := Some(e), lockfile := Some(lock),
                              before := e.before.total, after := e.after.total)), valid) <==>
        && PatchAudit.Validate(Some(e)).None?
        && PatchPolicy.Accepts(p.core.original, lock, e.before.total, e.after.total, valid)
  {
    hide PatchAudit.Validate, PatchPolicy.Accepts;
  }

  /** A reply about a new branch says whether there was none; without a reply it may have been made or not. */
  lemma BranchReplies(s: State, u: User, landed: bool, replied: bool, valid: Lock -> bool)
    requires u in s.ops && s.ops[u].place.Built?
    ensures Enabled(s, PostRef(u, landed, replied), valid) <==>
      if s.ops[u].plan.id in s.branches then !landed else landed || !replied
  {
  }

  /** After a lost reply the operation goes on exactly when there is a proposal from the plan's branch to its base, in
    * whatever state. */
  lemma LostReply(s: State, u: User, valid: Lock -> bool)
    requires At(s, u, Lost)
    ensures Enabled(s, FindAgain(u), valid)
    ensures var p, t := s.ops[u].plan, Apply(s, FindAgain(u), valid);
      && t.rows == s.rows
      && if exists i | 0 <= i < |s.pulls| :: s.pulls[i].branch == p.id && s.pulls[i].base == p.core.base
         then t == s.(ops := s.ops[u := Op(p, Found)])
         else Ended(s, t, u)
  {
    assert HasPull(s, s.ops[u].plan) <==>
      exists i | 0 <= i < |s.pulls| ::
        s.pulls[i].branch == s.ops[u].plan.id && s.pulls[i].base == s.ops[u].plan.core.base;
  }

  /** An operation may fail anywhere, which leaves everything but itself. */
  lemma MayFail(s: State, u: User, valid: Lock -> bool)
    requires u in s.ops
    ensures Enabled(s, GiveUp(u), valid)
    ensures var t := Apply(s, GiveUp(u), valid); t.rows == s.rows && Ended(s, t, u)
  {
  }

  /** Plans may expire, and branches may be moved and removed, at any time; operations notice only that. */
  lemma OthersMay(s: State, step: Step, valid: Lock -> bool)
    requires step.Expire? || step.Push? || step.DropBranch?
    ensures Enabled(s, step, valid)
    ensures var t := Apply(s, step, valid);
      && t.pulls == s.pulls && t.known == s.known && t.ops.Keys == s.ops.Keys
      && (forall u | u in s.ops :: t.ops[u].plan == s.ops[u].plan)
      && match step
         case Expire(users) => t == s.(rows := s.rows - users)
         case Push(id, c) => t.rows == s.rows && t.branches == s.branches[id := c]
         case DropBranch(id) => t.rows == s.rows && id !in t.branches && t.branches == s.branches - {id}
  {
    if step.Push? || step.DropBranch? {
      forall u | u in s.ops ensures u in Touch(s.ops, step.id) && Touch(s.ops, step.id)[u].plan == s.ops[u].plan {
        TouchAt(s.ops, step.id, u);
      }
      hide Touch;
    }
  }

  /** What people do to a proposal changes that one alone. */
  lemma OthersMayChange(s: State, step: Step, valid: Lock -> bool)
    requires Enabled(s, step, valid) && (step.OpenOther? || step.ClosePull? || step.ReopenPull?)
    ensures var t := Apply(s, step, valid); t == s.(pulls := t.pulls)
    ensures var t := Apply(s, step, valid);
      if step.OpenOther? then t.pulls == s.pulls + [step.pull]
      else
        && |t.pulls| == |s.pulls| && t.pulls[step.i].open == step.ReopenPull?
        && forall j | 0 <= j < |s.pulls| && j != step.i :: t.pulls[j] == s.pulls[j]
  {
  }
}
