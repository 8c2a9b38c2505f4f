/** Runs of the protocol of PatchProtocol: what an operation does if nothing fails, and what other people can still do
  * to a proposal.
  *
  * Somebody pushes to the branch between its check and the opening of the proposal; and somebody aims an open
  * proposal at another base, so that a retry after a restart does not find it.
  */
module PatchRaces {
  import opened Common
  import opened PatchProtocol

  lemma {:induction false} RunThen(s: State, a: seq<Step>, t: State, b: seq<Step>, r: State, valid: Lock -> bool)
    requires Run(s, a, t, valid) && Run(t, b, r, valid)
    ensures Run(s, a + b, r, valid)
    decreases |a|
  {
    hide Apply, Enabled;
    if a == [] {
      assert a + b == b;
    } else {
      RunThen(Apply(s, a[0], valid), a[1..], t, b, r, valid);
      assert (a + b)[1..] == a[1..] + b;
    }
  }

  lemma RunOne(s: State, step: Step, valid: Lock -> bool)
    requires Enabled(s, step, valid)
    ensures Run(s, [step], Apply(s, step, valid), valid)
  {
    hide Apply, Enabled;
    assert [step][1..] == [];
  }

  function Making(p: Plan, salt: int): Commit
    requires p.lockfile.Some?
  {
    Commit([p.core.sha], Target(p), salt)
  }

  /** The user's plan may be proposed, and nothing is going on for the user. */
  predicate Waiting(s: State, p: Plan, valid: Lock -> bool) {
    && p.core.user in s.rows && s.rows[p.core.user] == p && p.core.user !in s.ops
    && (p.phase == Ready || p.phase == Creating) && Reviewed(p, valid)
  }

  predicate CanStart(s: State, p: Plan, valid: Lock -> bool) { Waiting(s, p, valid) && !HasPull(s, p) }

  function Underway(s: State, p: Plan, place: Place): State { s.(ops := s.ops[p.core.user := Op(p, place)]) }

  function Noted(s: State, p: Plan): State { s.(rows := s.rows[p.core.user := p.(phase := Creating)]) }

  lemma GetStarted(s: State, p: Plan, valid: Lock -> bool)
    requires CanStart(s, p, valid)
    ensures Run(s, [Begin(p.core.user), Find(p.core.user)], Underway(s, p, Missing), valid)
  {
    var u, m := p.core.user, Underway(s, p, Started);
    assert Apply(s, Begin(u), valid) == m;
    assert HasPull(m, p) == HasPull(s, p);
    assert Enabled(m, Find(u), valid);
    assert Apply(m, Find(u), valid).ops == Underway(s, p, Missing).ops;
    hide *;
    RunOne(s, Begin(u), valid);
    RunOne(m, Find(u), valid);
    RunThen(s, [Begin(u)], m, [Find(u)], Underway(s, p, Missing), valid);
    assert [Begin(u)] + [Find(u)] == [Begin(u), Find(u)];
  }

  lemma GetAnnounced(s: State, p: Plan, valid: Lock -> bool)
    requires p.lockfile.Some?
    ensures Run(Underway(s, p, Missing), [CheckBase(p.core.user, p.core.sha, p.core.base)],
                Underway(Noted(s, p), p.(phase := Creating), Announced), valid)
  {
    var l, check := Underway(s, p, Missing), CheckBase(p.core.user, p.core.sha, p.core.base);
    var m := Underway(Noted(s, p), p.(phase := Creating), Announced);
    assert Enabled(l, check, valid) && Apply(l, check, valid).ops == m.ops;
    RunOne(l, check, valid);
  }

  lemma GetBuilt(s: State, p: Plan, salt: int, valid: Lock -> bool)
    requires p.lockfile.Some?
    ensures Run(Underway(s, p, Announced), [Build(p.core.user, salt)], Underway(s, p, Built(Making(p, salt))), valid)
  {
    var m, build := Underway(s, p, Announced), Build(p.core.user, salt);
    assert Enabled(m, build, valid) && Apply(m, build, valid).ops == Underway(s, p, Built(Making(p, salt))).ops;
    RunOne(m, build, valid);
  }

  lemma RefLands(s: State, p: Plan, c: Commit, valid: Lock -> bool)
    requires p.id !in s.branches
    ensures Run(Underway(s, p, Built(c)), [PostRef(p.core.user, true, true)],
                Underway(s.(branches := s.branches[p.id := c]), p, Checked(c, false)), valid)
  {
    var m, post := Underway(s, p, Built(c)), PostRef(p.core.user, true, true);
    var n := Underway(s.(branches := s.branches[p.id := c]), p, Checked(c, false));
    assert Enabled(m, post, valid) && Apply(m, post, valid).ops == n.ops;
    RunOne(m, post, valid);
  }

  lemma RefRefused(s: State, p: Plan, c: Commit, valid: Lock -> bool)
    requires p.id in s.branches
    ensures Run(Underway(s, p, Built(c)), [PostRef(p.core.user, false, true)], Underway(s, p, Conflict(c)), valid)
  {
    var m, post := Underway(s, p, Built(c)), PostRef(p.core.user, false, true);
    assert Enabled(m, post, valid) && Apply(m, post, valid).ops == Underway(s, p, Conflict(c)).ops;
    RunOne(m, post, valid);
  }

  lemma RefAgrees(s: State, p: Plan, c: Commit, valid: Lock -> bool)
    requires p.id in s.branches && s.branches[p.id].tree == c.tree && s.branches[p.id].parents == [p.core.sha]
    ensures Run(Underway(s, p, Conflict(c)), [ReadRef(p.core.user)],
                Underway(s, p, Checked(s.branches[p.id], false)), valid)
  {
    var m, read := Underway(s, p, Conflict(c)), ReadRef(p.core.user);
    assert Enabled(m, read, valid) && Apply(m, read, valid).ops == Underway(s, p, Checked(s.branches[p.id], false)).ops;
    RunOne(m, read, valid);
  }

  function Opening(s: State, p: Plan, checked: Commit, touched: bool): Pull
    requires p.id in s.branches
  {
    Pull(p.id, p.core.user, p.core.base, true, false, false, Some(Origin(p, s.branches[p.id], checked, touched)))
  }

  lemma PullLands(s: State, p: Plan, checked: Commit, touched: bool, valid: Lock -> bool)
    requires p.id in s.branches && MayOpen(s, p)
    ensures Run(Underway(s, p, Checked(checked, touched)), [PostPull(p.core.user, true, true)],
                Underway(s.(pulls := s.pulls + [Opening(s, p, checked, touched)]), p, Found), valid)
  {
    var m, post := Underway(s, p, Checked(checked, touched)), PostPull(p.core.user, true, true);
    var n := Underway(s.(pulls := s.pulls + [Opening(s, p, checked, touched)]), p, Found);
    assert MayOpen(m, p) == MayOpen(s, p);
    hide MayOpen;
    assert Enabled(m, post, valid) && Apply(m, post, valid).ops == n.ops;
    RunOne(m, post, valid);
  }

  lemma OthersPush(s: State, p: Plan, tip: Commit, other: Commit, valid: Lock -> bool)
    requires s.ops == map[]
    ensures Run(Underway(s, p, Checked(tip, false)), [Push(p.id, other)],
                Underway(s.(branches := s.branches[p.id := other]), p, Checked(tip, true)), valid)
  {
    var m, push := Underway(s, p, Checked(tip, false)), Push(p.id, other);
    var n := Underway(s.(branches := s.branches[p.id := other]), p, Checked(tip, true));
    assert Enabled(m, push, valid) && Apply(m, push, valid).ops == n.ops;
    RunOne(m, push, valid);
  }

  lemma RestartAndAim(s: State, p: Plan, place: Place, base: Base, valid: Lock -> bool)
    requires s.ops == map[] && s.pulls != []
    ensures Run(Underway(s, p, place), [Restart, Retarget(0, base)],
                s.(pulls := s.pulls[0 := s.pulls[0].(base := base, moved := true)]), valid)
  {
    var m, aim := Underway(s, p, place), Retarget(0, base);
    var t := s.(pulls := s.pulls[0 := s.pulls[0].(base := base, moved := true)]);
    assert Apply(m, Restart, valid) == s;
    assert Enabled(s, aim, valid) && Apply(s, aim, valid) == t;
    hide *;
    RunOne(m, Restart, valid);
    RunOne(s, aim, valid);
    RunThen(m, [Restart], s, [aim], t, valid);
    assert [Restart] + [aim] == [Restart, aim];
  }

  /** Some run leads there. */
  ghost predicate Reaches(s: State, t: State, valid: Lock -> bool) {
    exists steps: seq<Step> :: Run(s, steps, t, valid)
  }

  lemma ReachesBy(s: State, a: seq<Step>, t: State, valid: Lock -> bool)
    ensures Run(s, a, t, valid) ==> Reaches(s, t, valid)
  {
  }

  lemma ReachesThen(s: State, t: State, b: seq<Step>, r: State, valid: Lock -> bool)
    requires Reaches(s, t, valid) && Run(t, b, r, valid)
    ensures Reaches(s, r, valid)
  {
    hide Run;
    var a: seq<Step> :| Run(s, a, t, valid);
    RunThen(s, a, t, b, r, valid);
  }

  lemma GetHalfway(s: State, p: Plan, salt: int, valid: Lock -> bool)
    requires CanStart(s, p, valid)
    ensures Reaches(s, Underway(Noted(s, p), p.(phase := Creating), Built(Making(p, salt))), valid)
  {
    var u, q := p.core.user, p.(phase := Creating);
    assert q.lockfile.Some? && Making(q, salt) == Making(p, salt);
    hide *;
    GetStarted(s, p, valid);
    GetAnnounced(s, p, valid);
    GetBuilt(Noted(s, p), q, salt, valid);
    ReachesBy(s, [Begin(u), Find(u)], Underway(s, p, Missing), valid);
    ReachesThen(s, Underway(s, p, Missing), [CheckBase(u, p.core.sha, p.core.base)],
                Underway(Noted(s, p), q, Announced), valid);
    ReachesThen(s, Underway(Noted(s, p), q, Announced), [Build(q.core.user, salt)],
                Underway(Noted(s, p), q, Built(Making(p, salt))), valid);
  }

  /** The last proposal opened is this plan's, and showed this commit. */
  predicate ShowsLast(s: State, id: Id, tip: Commit) {
    s.pulls != [] && var o := s.pulls[|s.pulls| - 1].origin; o.Some? && o.value.plan.id == id && o.value.tip == tip
  }

  /** Somebody who moves the branch between its creation and the opening of the proposal decides what the
    * proposal shows. */
  lemma PushedInBetween(s: State, p: Plan, other: Commit, valid: Lock -> bool)
    requires CanStart(s, p, valid) && s.ops == map[] && p.id !in s.branches && MayOpen(s, p)
    ensures exists t :: Reaches(s, t, valid) && ShowsLast(t, p.id, other)
  {
    var u, q, c := p.core.user, p.(phase := Creating), Making(p, 0);
    var s1 := Noted(s, p);
    var s2 := s1.(branches := s1.branches[p.id := c]);
    var s3 := s2.(branches := s2.branches[p.id := other]);
    var t := Underway(s3.(pulls := s3.pulls + [Opening(s3, q, c, true)]), q, Found);
    assert ShowsLast(t, p.id, other) && MayOpen(s3, q) && s2.ops == map[] && q.id !in s1.branches && q.core.user == u;
    hide *;
    GetHalfway(s, p, 0, valid);
    RefLands(s1, q, c, valid);
    OthersPush(s2, q, c, other, valid);
    PullLands(s3, q, c, true, valid);
    ReachesThen(s, Underway(s1, q, Built(c)), [PostRef(u, true, true)], Underway(s2, q, Checked(c, false)), valid);
    ReachesThen(s, Underway(s2, q, Checked(c, false)), [Push(q.id, other)], Underway(s3, q, Checked(c, true)), valid);
    ReachesThen(s, Underway(s3, q, Checked(c, true)), [PostPull(u, true, true)], t, valid);
  }

  /** If a restart comes between the opening of a proposal and the note of it, and its owner aims it at
    * another base meanwhile, the retry does not find it and proposes the same plan again. */
  lemma RetargetedProposedTwice(s: State, p: Plan, other: Base, valid: Lock -> bool)
    requires CanStart(s, p, valid) && s.ops == map[] && p.id !in s.branches && s.pulls == [] && other != p.core.base
    ensures exists t :: Reaches(s, t, valid) && |t.pulls| == 2 && ShowsLast(t, p.id, Making(p, 0)) &&
                        t.pulls[0].origin.Some? && t.pulls[0].origin.value.plan.id == p.id
  {
    var q := p.(phase := Creating);
    var t := AfterRetarget(s, p, other);
    FirstProposal(s, p, other, valid);
    assert CanStart(t, q, valid);
    SecondProposal(t, q, valid);
    var r :| Reaches(t, r, valid) && |r.pulls| == 2 && ShowsLast(r, q.id, Making(q, 0)) && r.pulls[0] == t.pulls[0];
    hide Run, CanStart, ShowsLast;
    var more: seq<Step> :| Run(t, more, r, valid);
    ReachesThen(s, t, more, r, valid);
  }

  function AfterRetarget(s: State, p: Plan, other: Base): State
    requires p.lockfile.Some?
  {
    var q, c := p.(phase := Creating), Making(p, 0);
    Noted(s, p).(branches := s.branches[p.id := c],
      pulls := [Pull(p.id, p.core.user, other, true, true, false, Some(Origin(q, c, c, false)))])
  }

  lemma FirstProposal(s: State, p: Plan, other: Base, valid: Lock -> bool)
    requires CanStart(s, p, valid) && s.ops == map[] && p.id !in s.branches && s.pulls == []
    ensures Reaches(s, AfterRetarget(s, p, other), valid)
  {
    var u, q, c := p.core.user, p.(phase := Creating), Making(p, 0);
    var s1 := Noted(s, p);
    var s2 := s1.(branches := s1.branches[p.id := c]);
    var s3 := s2.(pulls := s2.pulls + [Opening(s2, q, c, false)]);
    assert s3.(pulls := s3.pulls[0 := s3.pulls[0].(base := other, moved := true)]) == AfterRetarget(s, p, other);
    assert MayOpen(s2, q) && s3.ops == map[] && q.id !in s1.branches && q.core.user == u;
    hide *;
    GetHalfway(s, p, 0, valid);
    RefLands(s1, q, c, valid);
    PullLands(s2, q, c, false, valid);
    RestartAndAim(s3, q, Found, other, valid);
    ReachesThen(s, Underway(s1, q, Built(c)), [PostRef(u, true, true)], Underway(s2, q, Checked(c, false)), valid);
    ReachesThen(s, Underway(s2, q, Checked(c, false)), [PostPull(u, true, true)], Underway(s3, q, Found), valid);
    ReachesThen(s, Underway(s3, q, Found), [Restart, Retarget(0, other)], AfterRetarget(s, p, other), valid);
  }

  lemma SecondProposal(s: State, p: Plan, valid: Lock -> bool)
    requires CanStart(s, p, valid) && s.ops == map[] && |s.pulls| == 1
    requires p.id in s.branches && s.branches[p.id] == Making(p, 0)
    ensures exists t ::
      Reaches(s, t, valid) && |t.pulls| == 2 && ShowsLast(t, p.id, Making(p, 0)) && t.pulls[0] == s.pulls[0]
  {
    var u, q, c := p.core.user, p.(phase := Creating), Making(p, 1);
    var s1 := Noted(s, p);
    var tip := s1.branches[p.id];
    var t := Underway(s1.(pulls := s1.pulls + [Opening(s1, q, tip, false)]), q, Found);
    assert |t.pulls| == 2 && ShowsLast(t, p.id, Making(p, 0)) && t.pulls[0] == s.pulls[0];
    assert MayOpen(s1, q) && q.id in s1.branches && q.core == p.core;
    assert tip.tree == c.tree && tip.parents == [p.core.sha];
    hide *;
    GetHalfway(s, p, 1, valid);
    RefRefused(s1, q, c, valid);
    RefAgrees(s1, q, c, valid);
    PullLands(s1, q, tip, false, valid);
    ReachesThen(s, Underway(s1, q, Built(c)), [PostRef(u, false, true)], Underway(s1, q, Conflict(c)), valid);
    ReachesThen(s, Underway(s1, q, Conflict(c)), [ReadRef(u)], Underway(s1, q, Checked(tip, false)), valid);
    ReachesThen(s, Underway(s1, q, Checked(tip, false)), [PostPull(u, true, true)], t, valid);
  }

  // ----- Undisturbed -----

  /** The plan is noted as proposed and nothing is going on for its user. */
  function Concluded(s: State, p: Plan): State {
    s.(rows := s.rows[p.core.user := p.(phase := Proposed)], ops := s.ops - {p.core.user})
  }

  lemma GetConcluded(s: State, p: Plan, valid: Lock -> bool)
    ensures Run(Underway(s, p, Found), [Finish(p.core.user)], Concluded(s, p), valid)
  {
    var m, finish := Underway(s, p, Found), Finish(p.core.user);
    assert Enabled(m, finish, valid) && Apply(m, finish, valid).ops == Concluded(s, p).ops;
    RunOne(m, finish, valid);
  }

  /** One operation, if nothing fails: the branch has a commit of the plan's tree on the reviewed commit, one proposal
    * of it is opened, and the plan is noted as proposed. */
  lemma Proposes(s: State, p: Plan, salt: int, valid: Lock -> bool)
    requires CanStart(s, p, valid)
    requires p.id in s.branches ==> s.branches[p.id] == Making(p, salt)
    ensures exists t :: Reaches(s, t, valid) && ProposedIn(s, t, p, Making(p, salt))
  {
    var u, q, c := p.core.user, p.(phase := Creating), Making(p, salt);
    var s1 := Noted(s, p);
    var s2 := s1.(branches := s1.branches[p.id := c]);
    var s3 := s2.(pulls := s2.pulls + [Opening(s2, q, c, false)]);
    var t := Concluded(s3, q);
    assert MayOpen(s2, q) && q.id in s2.branches && q.core == p.core && Making(q, salt) == c;
    assert q.id in s1.branches ==> s1.branches[q.id] == c && s2 == s1;
    assert c.parents == [q.core.sha];
    assert ProposedIn(s, t, p, c);
    hide *;
    GetHalfway(s, p, salt, valid);
    if q.id in s1.branches {
      RefRefused(s1, q, c, valid);
      RefAgrees(s1, q, c, valid);
      ReachesThen(s, Underway(s1, q, Built(c)), [PostRef(u, false, true)], Underway(s1, q, Conflict(c)), valid);
      ReachesThen(s, Underway(s1, q, Conflict(c)), [ReadRef(u)], Underway(s2, q, Checked(c, false)), valid);
    } else {
      RefLands(s1, q, c, valid);
      ReachesThen(s, Underway(s1, q, Built(c)), [PostRef(u, true, true)], Underway(s2, q, Checked(c, false)), valid);
    }
    PullLands(s2, q, c, false, valid);
    GetConcluded(s3, q, valid);
    ReachesThen(s, Underway(s2, q, Checked(c, false)), [PostPull(u, true, true)], Underway(s3, q, Found), valid);
    ReachesThen(s, Underway(s3, q, Found), [Finish(u)], t, valid);
  }

  predicate ProposedIn(s: State, t: State, p: Plan, c: Commit) {
    && t.rows == s.rows[p.core.user := p.(phase := Proposed)] && t.ops == s.ops
    && t.branches == s.branches[p.id := c]
    && t.pulls == s.pulls +
         [Pull(p.id, p.core.user, p.core.base, true, false, false, Some(Origin(p.(phase := Creating), c, c, false)))]
  }

  /** One operation on a plan that has a proposal already only notes it. */
  lemma ProposesAgain(s: State, p: Plan, valid: Lock -> bool)
    requires Waiting(s, p, valid) && HasPull(s, p)
    ensures Reaches(s, s.(rows := s.rows[p.core.user := p.(phase := Proposed)]), valid)
  {
    var u, m, n := p.core.user, Underway(s, p, Started), Underway(s, p, Found);
    var t := s.(rows := s.rows[p.core.user := p.(phase := Proposed)]);
    assert Enabled(s, Begin(u), valid) && Apply(s, Begin(u), valid) == m;
    assert HasPull(m, p);
    assert Enabled(m, Find(u), valid) && Apply(m, Find(u), valid).ops == n.ops;
    assert Concluded(s, p).ops == t.ops;
    hide *;
    RunOne(s, Begin(u), valid);
    RunOne(m, Find(u), valid);
    GetConcluded(s, p, valid);
    ReachesBy(s, [Begin(u)], m, valid);
    ReachesThen(s, m, [Find(u)], n, valid);
    ReachesThen(s, n, [Finish(u)], t, valid);
  }
}
