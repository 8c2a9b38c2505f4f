/** The lockfile policy of security patches (apps/backend/src/deploy/security-patch.policy.ts).
  *
  * A lockfile maps installation paths to entries: a version, and everything else recorded for the package
  * (where it comes from, its integrity, its dependencies). Versions without a suffix are three numbers;
  * the others are kept as text and may only stay as they are. Versions are canonical, so equal numbers are
  * equal strings.
  */
module PatchPolicy {
  import opened Common

  datatype Path = Path(text: string)
  datatype Name = Name(text: string)
  datatype Version = Plain(major: nat, minor: nat, patch: nat) | Suffixed(text: string)

  datatype Entry = Entry(version: Version, rest: string)

  /** The root entry, as text, and the installed packages. */
  datatype Lock = Lock(root: string, packages: map<Path, Entry>)

  datatype Change = Change(path: Path, from: Option<Version>, to: Option<Version>)
  datatype Error = InvalidInput | RootChanged | NotReduced | SuffixChanged | OutOfPolicy | TooManyOrNone

  const MAX_CHANGES := 100
  const MARKER := "node_modules/"

  /** The part of a path after its last installation directory. */
  function PackageName(path: Path): Name { Name(AfterMarker(path.text, |path.text|)) }

  function AfterMarker(text: string, end: nat): string
    requires end <= |text|
  {
    if end < |MARKER| then text
    else if text[end - |MARKER|..end] == MARKER then text[end..]
    else AfterMarker(text, end - 1)
  }

  /** The marker ends before this place. */
  predicate MarkerBefore(text: string, end: nat) {
    |MARKER| <= end <= |text| && text[end - |MARKER|..end] == MARKER
  }

  /** The rest of a text after its last marker up to some place, or the whole text without one. */
  ghost predicate AfterLast(text: string, end: nat, rest: string) {
    || (rest == text && forall k: nat | k <= end :: !MarkerBefore(text, k))
    || exists k: nat :: LastAt(text, k, end) && rest == text[k..]
  }

  ghost predicate LastAt(text: string, k: nat, end: nat) {
    k <= |text| && k <= end && MarkerBefore(text, k) && forall j: nat | k < j <= end :: !MarkerBefore(text, j)
  }

  lemma {:induction false} LastMarker(text: string, end: nat)
    requires end <= |text|
    ensures AfterLast(text, end, AfterMarker(text, end))
  {
    if MarkerBefore(text, end) {
      assert LastAt(text, end, end);
    } else if end >= |MARKER| {
      LastMarker(text, end - 1);
      LastFurther(text, end, AfterMarker(text, end - 1));
    }
  }

  lemma LastFurther(text: string, end: nat, rest: string)
    requires 0 < end && AfterLast(text, end - 1, rest) && !MarkerBefore(text, end)
    ensures AfterLast(text, end, rest)
  {
    hide MarkerBefore;
    if k: nat :| LastAt(text, k, end - 1) && rest == text[k..] {
      assert LastAt(text, k, end);
    }
  }

  /** The package of a path is what follows the last "node_modules/", or the whole path without one. */
  lemma PackageNameIs(path: Path)
    ensures AfterLast(path.text, |path.text|, PackageName(path).text)
  {
    LastMarker(path.text, |path.text|);
  }

  // ----- Comparing versions -----

  /** The same major version, the same minor one before 1.0, and no downgrade. */
  predicate Compatible(a: Version, b: Version) {
    && a.Plain? && b.Plain?
    && a.major == b.major
    && (a.major == 0 ==> a.minor == b.minor)
    && b.minor >= a.minor
    && (b.minor == a.minor ==> b.patch >= a.patch)
  }

  predicate Kept(a: Version, b: Version) { a == b || Compatible(a, b) }

  // ----- What a patch may change -----

  function At(lock: Lock, path: Path): Option<Version> {
    if path in lock.packages then Some(lock.packages[path].version) else None
  }

  /** The paths whose versions differ. */
  function Differing(was: Lock, now: Lock): set<Path> {
    set p | p in was.packages.Keys + now.packages.Keys && At(was, p) != At(now, p)
  }

  function ChangeAt(was: Lock, now: Lock, p: Path): Change { Change(p, At(was, p), At(now, p)) }

  /** The versions a new one is measured against: its own path's, or all of the same package. */
  function Predecessors(was: Lock, path: Path): set<Version> {
    if path in was.packages then {was.packages[path].version}
    else set q | q in was.packages && PackageName(q) == PackageName(path) :: was.packages[q].version
  }

  predicate Suffix(v: Option<Version>) { v.Some? && v.value.Suffixed? }

  predicate PathAllowed(was: Lock, now: Lock, p: Path) {
    && !Suffix(At(was, p)) && !Suffix(At(now, p))
    && (p in now.packages ==> forall v | v in Predecessors(was, p) :: Compatible(v, now.packages[p].version))
  }

  predicate Accepts(was: Lock, now: Lock, before: int, after: int, valid: Lock -> bool) {
    && valid(now)
    && was.root == now.root
    && 0 <= after < before
    && (forall p | p in Differing(was, now) :: PathAllowed(was, now, p))
    && 1 <= |Differing(was, now)| <= MAX_CHANGES
  }

  /** A version and what a patch may make of it: the same major version, and the same minor version or, from 1.0 on, a
    * later one; with the same minor version, no earlier patch version. */
  predicate MayBecome(a: Version, b: Version) {
    match (a, b)
    case (Plain(ma, mi, pa), Plain(mb, mj, pb)) => mb == ma && ((mj == mi && pa <= pb) || (mi < mj && ma > 0))
    case _ => false
  }

  /** What may happen to the version at a path: it stays; a plain one may go; and a plain one may come if it may follow
    * the one that was there, or, where there was none, every one the package was installed with. */
  predicate MayChange(was: Lock, now: Lock, p: Path) {
    match (At(was, p), At(now, p))
    case (None, None) => true
    case (Some(v), None) => v.Plain?
    case (Some(v), Some(w)) => v == w || MayBecome(v, w)
    case (None, Some(w)) =>
      && w.Plain?
      && forall q | q in was.packages && PackageName(q) == PackageName(p) :: MayBecome(was.packages[q].version, w)
  }

  /** A result is accepted exactly when its lockfile is a valid one with the same root entry, it reduces the number of
    * findings, every path changes only as it may, and one to a hundred paths change their versions. */
  lemma AcceptsIff(was: Lock, now: Lock, before: int, after: int, valid: Lock -> bool)
    ensures Accepts(was, now, before, after, valid) <==>
      && valid(now) && now.root == was.root && 0 <= after && after < before
      && (forall p :: MayChange(was, now, p))
      && 1 <= |set p | p in was.packages.Keys + now.packages.Keys && At(was, p) != At(now, p)| <= 100
  {
    AllMayChange(was, now);
    assert Differing(was, now) == set p | p in was.packages.Keys + now.packages.Keys && At(was, p) != At(now, p);
    hide MayChange, PathAllowed, At, Differing;
  }

  lemma AllMayChange(was: Lock, now: Lock)
    ensures (forall p :: MayChange(was, now, p)) <==> forall p | p in Differing(was, now) :: PathAllowed(was, now, p)
  {
    forall p ensures MayChange(was, now, p) <==> (p in Differing(was, now) ==> PathAllowed(was, now, p)) {
      PathMayChange(was, now, p);
      hide *;
    }
  }

  lemma PathMayChange(was: Lock, now: Lock, p: Path)
    ensures MayChange(was, now, p) <==> (p in Differing(was, now) ==> PathAllowed(was, now, p))
  {
    hide PackageName;
    if p in now.packages && p !in was.packages {
      var name, w := PackageName(p), now.packages[p].version;
      forall q | q in was.packages && PackageName(q) == name ensures was.packages[q].version in Predecessors(was, p) { }
      forall v | v in Predecessors(was, p)
        ensures exists q :: q in was.packages && PackageName(q) == name && was.packages[q].version == v { }
      assert w.Plain? && PathAllowed(was, now, p) ==> MayChange(was, now, p);
    } else if p in now.packages {
      assert Predecessors(was, p) == {was.packages[p].version};
    }
  }

  // ----- The check -----

  /** The map holds, for each package name among some paths, the old versions installed there. */
  ghost predicate Indexed(was: Lock, paths: set<Path>, versions: map<Name, set<Version>>)
    requires paths <= was.packages.Keys
  {
    && (forall n :: n in versions <==> exists q :: q in paths && PackageName(q) == n)
    && (forall n | n in versions ::
         versions[n] == set q | q in paths && PackageName(q) == n :: was.packages[q].version)
  }

  /** Old versions by package name. */
  method VersionsByName(was: Lock) returns (versions: map<Name, set<Version>>)
    ensures Indexed(was, was.packages.Keys, versions)
  {
    versions := map[];
    var left := was.packages.Keys;
    while left != {}
      invariant left <= was.packages.Keys
      invariant Indexed(was, was.packages.Keys - left, versions)
    {
      var path :| path in left;
      var name := PackageName(path);
      ghost var done := was.packages.Keys - left;
      left := left - {path};
      assert was.packages.Keys - left == done + {path};
      versions := versions[name := (if name in versions then versions[name] else {}) + {was.packages[path].version}];
    }
    assert was.packages.Keys - left == was.packages.Keys;
  }

  /** This path shows this error: a suffixed version is involved, or a version does not follow a plain one. */
  predicate Faulty(was: Lock, now: Lock, path: Path, error: Error) {
    match error
    case SuffixChanged => exists v :: v in Involved(was, now, path) && v.Suffixed?
    case OutOfPolicy =>
      && path in now.packages
      && exists v | v in Predecessors(was, path) :: v.Plain? && !MayBecome(v, now.packages[path].version)
    case _ => false
  }

  /** The versions at a path and those it is measured against. */
  function Involved(was: Lock, now: Lock, path: Path): set<Version> {
    Predecessors(was, path) + if path in now.packages then {now.packages[path].version} else {}
  }

  /** Whether one differing path may differ the way it does. */
  method CheckPath(was: Lock, now: Lock, path: Path, versions: map<Name, set<Version>>) returns (r: Option<Error>)
    requires Indexed(was, was.packages.Keys, versions)
    ensures r.None? <==> PathAllowed(was, now, path)
    ensures r.Some? ==> Faulty(was, now, path, r.value)
  {
    var from, to := At(was, path), At(now, path);
    if Suffix(from) || Suffix(to) {
      return Some(SuffixChanged);
    }
    if to.Some? {
      var name := PackageName(path);
      var candidates := if from.Some? then {from.value} else if name in versions then versions[name] else {};
      assert candidates == Predecessors(was, path);
      var bad := set v | v in candidates && !Compatible(v, to.value);
      if v :| v in bad {
        return Some(if v.Suffixed? then SuffixChanged else OutOfPolicy);
      }
      assert forall v | v in candidates :: v !in bad;
    }
    return None;
  }

  /** The list holds one change for each of these paths, and nothing else. */
  ghost predicate Lists(was: Lock, now: Lock, paths: set<Path>, changes: seq<Change>) {
    && |changes| == |paths|
    && forall c :: c in changes <==> c.path in paths && c == ChangeAt(was, now, c.path)
  }

  lemma ListsOneMore(was: Lock, now: Lock, paths: set<Path>, changes: seq<Change>, p: Path)
    requires Lists(was, now, paths, changes) && p !in paths
    ensures Lists(was, now, paths + {p}, changes + [ChangeAt(was, now, p)])
  {
    var more := changes + [ChangeAt(was, now, p)];
    hide ChangeAt;
    forall c ensures c in more <==> c.path in paths + {p} && c == ChangeAt(was, now, c.path) {
      assert c in more <==> c in changes || c == ChangeAt(was, now, p);
      PathOfChange(was, now, p);
    }
  }

  lemma PathOfChange(was: Lock, now: Lock, p: Path)
    ensures ChangeAt(was, now, p).path == p
  {
  }

  /** Every path outside `left` that differs is in `checked`, and no other. */
  ghost predicate Covers(was: Lock, now: Lock, left: set<Path>, checked: set<Path>) {
    checked == Differing(was, now) - left
  }

  lemma CoversOneLess(was: Lock, now: Lock, left: set<Path>, checked: set<Path>, p: Path)
    requires Covers(was, now, left, checked) && p in left && left <= was.packages.Keys + now.packages.Keys
    ensures p !in checked
    ensures At(was, p) == At(now, p) ==> Covers(was, now, left - {p}, checked)
    ensures At(was, p) != At(now, p) ==> Covers(was, now, left - {p}, checked + {p}) && p in Differing(was, now)
  {
    hide At;
    assert p in Differing(was, now) <==> At(was, p) != At(now, p);
  }

  /** The changes, unless some differing path is not allowed. */
  method CollectChanges(was: Lock, now: Lock) returns (r: Result<seq<Change>, Error>)
    ensures r.Ok? <==> forall p | p in Differing(was, now) :: PathAllowed(was, now, p)
    ensures r.Ok? ==> Lists(was, now, Differing(was, now), r.value)
    ensures r.Err? ==> exists p :: p in Differing(was, now) && Faulty(was, now, p, r.error)
  {
    var changes: seq<Change> := [];
    var left := was.packages.Keys + now.packages.Keys;
    ghost var checked: set<Path> := {};
    assert Covers(was, now, left, checked);
    assert Lists(was, now, checked, changes);
    hide PathAllowed, PackageName, Predecessors, Indexed, Covers, Lists, Differing, At;
    var versions := VersionsByName(was);
    while left != {}
      invariant left <= was.packages.Keys + now.packages.Keys
      invariant Covers(was, now, left, checked)
      invariant Lists(was, now, checked, changes)
      invariant forall p | p in checked :: PathAllowed(was, now, p)
    {
      var path :| path in left;
      CoversOneLess(was, now, left, checked, path);
      left := left - {path};
      var from, to := At(was, path), At(now, path);
      if from == to {
        continue;
      }
      var error := CheckPath(was, now, path, versions);
      if error.Some? {
        return Err(error.value);
      }
      ListsOneMore(was, now, checked, changes, path);
      checked := checked + {path};
      changes := changes + [Change(path, from, to)];
    }
    AllCovered(was, now, checked);
    return Ok(changes);
  }

  lemma AllCovered(was: Lock, now: Lock, checked: set<Path>)
    ensures Covers(was, now, {}, checked) ==> checked == Differing(was, now)
  {
  }

  /** An error tells the first check that failed. */
  ghost predicate ErrorMeans(was: Lock, now: Lock, before: int, after: int, valid: Lock -> bool, error: Error) {
    match error
    case InvalidInput => !valid(now)
    case RootChanged => valid(now) && now.root != was.root
    case NotReduced => valid(now) && now.root == was.root && (after < 0 || before <= after)
    case TooManyOrNone =>
      && valid(now) && now.root == was.root && 0 <= after < before
      && (forall p :: MayChange(was, now, p)) && !(1 <= |Differing(was, now)| <= 100)
    case _ =>
      && valid(now) && now.root == was.root && 0 <= after < before
      && exists p :: p in Differing(was, now) && Faulty(was, now, p, error)
  }

  method ValidatePatchResult(was: Lock, now: Lock, before: int, after: int, valid: Lock -> bool)
    returns (r: Result<seq<Change>, Error>)
    ensures r.Ok? <==> Accepts(was, now, before, after, valid)
    ensures r.Ok? ==> Lists(was, now, Differing(was, now), r.value)
    ensures r.Err? ==> ErrorMeans(was, now, before, after, valid, r.error)
  {
    hide PathAllowed, Differing;
    if !valid(now) { return Err(InvalidInput); }
    if was.root != now.root { return Err(RootChanged); }
    if after < 0 || after >= before { return Err(NotReduced); }
    r := CollectChanges(was, now);
    AllMayChange(was, now);
    hide MayChange;
    if r.Ok? && (r.value == [] || |r.value| > MAX_CHANGES) { return Err(TooManyOrNone); }
  }

  // ----- What the list leaves out -----

  function EntryAt(lock: Lock, path: Path): Option<Entry> {
    if path in lock.packages then Some(lock.packages[path]) else None
  }

  /** The paths whose entries differ in any way. */
  function Changed(was: Lock, now: Lock): set<Path> {
    set p | p in was.packages.Keys + now.packages.Keys && EntryAt(was, p) != EntryAt(now, p)
  }

  function PathsOf(changes: seq<Change>): set<Path> { set c | c in changes :: c.path }

  predicate RestKept(was: Lock, now: Lock, p: Path) {
    p in was.packages && p in now.packages && was.packages[p].version == now.packages[p].version
    ==> was.packages[p].rest == now.packages[p].rest
  }

  /** Only versions are compared. The list of an accepted patch names only paths whose entries differ, and it
    * names all of them exactly when no path keeps its version and changes the rest of its entry. */
  lemma ListedIff(was: Lock, now: Lock, changes: seq<Change>)
    requires Lists(was, now, Differing(was, now), changes)
    ensures PathsOf(changes) <= Changed(was, now)
    ensures PathsOf(changes) == Changed(was, now) <==> forall p :: RestKept(was, now, p)
  {
    forall p ensures p in PathsOf(changes) <==> p in Differing(was, now) {
      PathOfChange(was, now, p);
      assert p in Differing(was, now) ==> ChangeAt(was, now, p) in changes;
    }
    hide Lists, PathsOf;
    forall p ensures p in Changed(was, now) <==> p in Differing(was, now) || !RestKept(was, now, p) { }
    if forall p :: RestKept(was, now, p) {
      assert PathsOf(changes) == Changed(was, now);
    }
  }

  function Swapped(lock: Lock, p: Path, rest: string): Lock
    requires p in lock.packages
  {
    lock.(packages := lock.packages[p := lock.packages[p].(rest := rest)])
  }

  /** Whatever the rest of any one entry is replaced by, the patch is accepted as before, with the same list. */
  lemma RestUnseen(was: Lock, now: Lock, before: int, after: int, valid: Lock -> bool, p: Path, rest: string)
    requires p in now.packages && valid(now) && valid(Swapped(now, p, rest))
    ensures Accepts(was, Swapped(now, p, rest), before, after, valid) <==> Accepts(was, now, before, after, valid)
    ensures Differing(was, Swapped(now, p, rest)) == Differing(was, now)
    ensures forall q :: ChangeAt(was, Swapped(now, p, rest), q) == ChangeAt(was, now, q)
  {
    var now' := Swapped(now, p, rest);
    forall q ensures At(now', q) == At(now, q) { }
    forall q ensures PathAllowed(was, now', q) <==> PathAllowed(was, now, q) { }
    assert now'.packages.Keys == now.packages.Keys;
    assert Differing(was, now') == Differing(was, now);
    hide PathAllowed, Differing;
  }

  function TwoPackages(a: Path, b: Path, patch: nat, rest: string): Lock {
    Lock("", map[a := Entry(Plain(1, 0, patch), ""), b := Entry(Plain(1, 0, 0), rest)])
  }

  /** An accepted patch raises one version and changes the other package at its version: only one is listed. */
  lemma UnlistedExample(a: Path, b: Path, changes: seq<Change>)
    requires a != b
    requires var was, now := TwoPackages(a, b, 0, "x"), TwoPackages(a, b, 1, "y");
      Lists(was, now, Differing(was, now), changes)
    ensures var was, now := TwoPackages(a, b, 0, "x"), TwoPackages(a, b, 1, "y");
      Accepts(was, now, 1, 0, _ => true) && Changed(was, now) == {a, b} && PathsOf(changes) == {a}
  {
    var was, now := TwoPackages(a, b, 0, "x"), TwoPackages(a, b, 1, "y");
    assert Differing(was, now) == {a};
    assert PathAllowed(was, now, a);
    assert "x"[0] != "y"[0];
    assert Changed(was, now) == {a, b};
    assert ChangeAt(was, now, a).path == a && ChangeAt(was, now, a) in changes;
    forall p ensures p in PathsOf(changes) <==> p == a { }
  }

  // ----- Chains of accepted patches -----

  /** Consecutive lockfiles, each accepted as a patch of the one before. */
  ghost predicate Chain(locks: seq<Lock>, valid: Lock -> bool) {
    locks != [] && forall i :: 0 < i < |locks| ==> AcceptedFrom(locks[i - 1], locks[i], valid)
  }

  ghost predicate AcceptedFrom(was: Lock, now: Lock, valid: Lock -> bool) {
    exists before: int, after: int :: Accepts(was, now, before, after, valid)
  }

  lemma StepKeeps(was: Lock, now: Lock, valid: Lock -> bool, p: Path)
    requires AcceptedFrom(was, now, valid) && p in was.packages && p in now.packages
    ensures Kept(was.packages[p].version, now.packages[p].version)
  {
    var before: int, after: int :| Accepts(was, now, before, after, valid);
    if At(was, p) != At(now, p) {
      assert p in Differing(was, now) && was.packages[p].version in Predecessors(was, p);
    }
  }

  lemma {:induction false} KeptAlong(locks: seq<Lock>, valid: Lock -> bool, p: Path, n: nat)
    requires Chain(locks, valid) && n < |locks|
    requires forall i :: 0 <= i <= n ==> p in locks[i].packages
    ensures Kept(locks[0].packages[p].version, locks[n].packages[p].version)
    ensures locks[n].root == locks[0].root
  {
    if n > 0 {
      KeptAlong(locks, valid, p, n - 1);
      assert AcceptedFrom(locks[n - 1], locks[n], valid);
      StepKeeps(locks[n - 1], locks[n], valid, p);
    }
  }

  /** A path present all along never goes down in version, never changes its major version, and never
    * changes its minor version before 1.0; a suffixed version stays exactly as it was. */
  lemma NoDowngrade(locks: seq<Lock>, valid: Lock -> bool, p: Path, n: nat)
    requires Chain(locks, valid) && n < |locks|
    requires forall i :: 0 <= i <= n ==> p in locks[i].packages
    ensures var first, last := locks[0].packages[p].version, locks[n].packages[p].version;
      if first.Suffixed? then last == first
      else
        && last.Plain? && last.major == first.major
        && (last.minor > first.minor || (last.minor == first.minor && last.patch >= first.patch))
        && (first.major == 0 ==> last.minor == first.minor)
    ensures locks[n].root == locks[0].root
  {
    KeptAlong(locks, valid, p, n);
  }

  predicate HasName(lock: Lock, name: Name) { exists q | q in lock.packages :: PackageName(q) == name }

  predicate IsMajor(v: Version, major: nat) { v.Plain? && v.major == major }

  predicate HasMajor(lock: Lock, name: Name, major: nat) {
    exists q | q in lock.packages ::
      PackageName(q) == name && IsMajor(lock.packages[q].version, major)
  }

  lemma MajorWasThere(was: Lock, now: Lock, valid: Lock -> bool, name: Name, major: nat)
    requires AcceptedFrom(was, now, valid) && HasName(was, name) && HasMajor(now, name, major)
    ensures HasMajor(was, name, major)
  {
    var before: int, after: int :| Accepts(was, now, before, after, valid);
    var q :| q in now.packages && PackageName(q) == name && IsMajor(now.packages[q].version, major);
    if q in was.packages {
      StepKeeps(was, now, valid, q);
    } else {
      assert q in Differing(was, now);
      var r :| r in was.packages && PackageName(r) == name;
      assert was.packages[r].version in Predecessors(was, q);
    }
  }

  /** While a package stays installed somewhere, no copy of it brings in a major version that was not
    * there at the start, wherever copies are added. */
  lemma {:induction false} NoNewMajor(locks: seq<Lock>, valid: Lock -> bool, name: Name, major: nat, n: nat)
    requires Chain(locks, valid) && n < |locks|
    requires forall i :: 0 <= i < n ==> HasName(locks[i], name)
    requires HasMajor(locks[n], name, major)
    ensures HasMajor(locks[0], name, major)
  {
    if n > 0 {
      assert AcceptedFrom(locks[n - 1], locks[n], valid);
      MajorWasThere(locks[n - 1], locks[n], valid, name, major);
      NoNewMajor(locks, valid, name, major, n - 1);
    }
  }
}
