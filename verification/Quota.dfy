/** Project quotas of the users' volume directories (deploy/storage/quota.py).
  *
  * The file system is a map of places, below one storage root, with their attributes; the kernel accounts a
  * file, open or not, to the project it carries. A run may fail at any system call: `fault` numbers the
  * call that fails, counting from zero. Runs follow one another; applications may write between them.
  */
module Quota {
  import opened Common
  import opened Sums

  datatype Text = Text(text: string)
  datatype Name = Name(text: string)

  /** A directory below the storage root, or something inside it. */
  datatype Place = Top(dir: Name) | Inside(dir: Name, path: Text)

  datatype Kind = Directory | Regular | Symlink | Special

  /** `open` says whether some process holds the file; `mode` is Unix permissions. */
  datatype Attr = Attr(kind: Kind, project: nat, inherit: bool, links: nat, bytes: nat, mode: nat, open: bool)

  datatype Limit = Limit(bytes: nat, inodes: nat)

  /** Project numbers are never zero. */
  type Id = n: nat | n > 0 witness 1

  /** `held` has the projects with deleted files that are still open. */
  datatype Fs = Fs(entries: map<Place, Attr>, limits: map<nat, Limit>, held: set<nat>)

  datatype Report = Report(id: Id, limit: Limit)
  datatype Error = Refused | CallFailed

  const HARD_BYTES: nat := 1024 * 1024 * 1024
  const HARD_INODES: nat := 65536
  const DIR_BYTES: nat := 4096
  const PRIVATE := 0x1c0
  const SHARED := 0x1f8

  const HARD := Limit(HARD_BYTES, HARD_INODES)

  /** How names get project numbers, which may collide, and which names are volume directories. */
  datatype Scheme = Scheme(id: Name -> Id, allowed: Name -> bool)

  // ----- What a run does, as functions of the file system -----

  predicate InUse(fs: Fs, id: nat) { id in fs.held || exists p | p in fs.entries :: fs.entries[p].project == id }

  function Of(fs: Fs, name: Name): set<Place> { set p | p in fs.entries && p.dir == name }

  function Sizes(fs: Fs, name: Name): map<Place, int> {
    map p | p in fs.entries && p.dir == name :: if p in fs.entries && p.dir == name then fs.entries[p].bytes else 0
  }

  predicate IsDir(fs: Fs, p: Place) { p in fs.entries && fs.entries[p].kind == Directory }

  /** The other volume directories. */
  function Siblings(fs: Fs, name: Name): set<Place> {
    set p | p in fs.entries && p.Top? && p.dir != name && fs.entries[p].kind == Directory
  }

  predicate Collides(fs: Fs, name: Name, id: Id) {
    exists p | p in fs.entries ::
      p.Top? && p.dir != name && fs.entries[p].kind == Directory && fs.entries[p].project == id
  }

  predicate Attachable(a: Attr, id: Id) {
    && (a.kind == Directory || a.kind == Regular) && (a.project == 0 || a.project == id)
    && (a.kind == Regular ==> a.links <= 1)
  }

  function Attached(a: Attr, id: Id): Attr { a.(project := id, inherit := a.inherit || a.kind == Directory) }

  const MADE := Attr(Directory, 0, false, 2, DIR_BYTES, PRIVATE, false)

  ghost predicate Fits(fs: Fs, name: Name) { Sum(Sizes(fs, name)) <= HARD_BYTES && |Of(fs, name)| <= HARD_INODES }

  ghost predicate Accepts(fs: Fs, scheme: Scheme, name: Name) {
    && scheme.allowed(name)
    && !Collides(fs, name, scheme.id(name))
    && if Top(name) in fs.entries then
         && IsDir(fs, Top(name)) && Fits(fs, name)
         && forall p | p in Of(fs, name) :: Attachable(fs.entries[p], scheme.id(name))
       else !InUse(fs, scheme.id(name))
  }

  /** The directory and everything in it belong to its project, which is limited; a new directory is shared
    * with its group. */
  function Applied(fs: Fs, scheme: Scheme, name: Name): Fs {
    var id, top := scheme.id(name), Top(name);
    var made := if top in fs.entries then fs.entries else fs.entries[top := MADE.(mode := SHARED)];
    fs.(entries := map p | p in made :: if p in made && p.dir == name then Attached(made[p], id) else made[p],
        limits := fs.limits[id := HARD])
  }

  // ----- What always holds -----

  /** Everything lies in a directory. */
  ghost predicate Tree(fs: Fs) { forall p | p in fs.entries && p.Inside? :: IsDir(fs, Top(p.dir)) }

  /** What carries a project carries that of its own directory, and the directory carries it too. */
  ghost predicate Owned(fs: Fs, scheme: Scheme) {
    forall p | p in fs.entries && fs.entries[p].project != 0 ::
      && fs.entries[p].project == scheme.id(p.dir)
      && IsDir(fs, Top(p.dir)) && fs.entries[Top(p.dir)].project == fs.entries[p].project
  }

  /** No two directories share a project. */
  ghost predicate Distinct(fs: Fs, scheme: Scheme) {
    forall m, n | Top(m) in fs.entries && Top(n) in fs.entries && m != n &&
                  fs.entries[Top(m)].project != 0 && fs.entries[Top(n)].project != 0 :: scheme.id(m) != scheme.id(n)
  }

  /** A project with anything accounted to it has its hard limits. */
  ghost predicate Limited(fs: Fs) {
    forall id: nat | id != 0 && InUse(fs, id) :: id in fs.limits && fs.limits[id] == HARD
  }

  ghost predicate Sound(fs: Fs, scheme: Scheme) { Tree(fs) && Owned(fs, scheme) && Distinct(fs, scheme) && Limited(fs) }

  // ----- Stopping halfway -----

  /** Made by a run on this name that has stopped somewhere: the directory may have been made, the limits
    * may have been set, and after that some of its files, the directory first, may have been attached. */
  ghost predicate Partly(fs: Fs, scheme: Scheme, name: Name, part: Fs) {
    var id, top := scheme.id(name), Top(name);
    && part.held == fs.held
    && (part.limits == fs.limits || part.limits == fs.limits[id := HARD])
    && (forall p | p in fs.entries :: p in part.entries && Advanced(fs, scheme, name, part, p))
    && (forall p | p in part.entries && p !in fs.entries :: p == top && NewTop(fs, scheme, name, part))
    && (forall p | p in part.entries && p.dir == name && part.entries[p].project != 0 ::
      top in part.entries && part.entries[top].project == id)
  }

  ghost predicate LimitSet(fs: Fs, scheme: Scheme, name: Name, part: Fs) {
    part.limits == fs.limits[scheme.id(name) := HARD]
  }

  ghost predicate Advanced(fs: Fs, scheme: Scheme, name: Name, part: Fs, p: Place)
    requires p in fs.entries && p in part.entries
  {
    || part.entries[p] == fs.entries[p]
    || (p.dir == name && LimitSet(fs, scheme, name, part)
        && part.entries[p] == Attached(fs.entries[p], scheme.id(name)))
  }

  ghost predicate NewTop(fs: Fs, scheme: Scheme, name: Name, part: Fs) {
    && Top(name) in part.entries
    && var a := part.entries[Top(name)];
       a == MADE || (LimitSet(fs, scheme, name, part) &&
                     (a == Attached(MADE, scheme.id(name)) || a == Attached(MADE, scheme.id(name)).(mode := SHARED)))
  }

  /** Wherever a run stops, everything that always holds still does. */
  lemma PartlySound(fs: Fs, scheme: Scheme, name: Name, part: Fs)
    requires Sound(fs, scheme) && Partly(fs, scheme, name, part) && Checked(fs, scheme, name)
    ensures Sound(part, scheme)
  {
    assert forall p | p in part.entries && p !in fs.entries :: p == Top(name);
    PartlyOwned(fs, scheme, name, part);
    PartlyDistinct(fs, scheme, name, part);
    PartlyLimited(fs, scheme, name, part);
    assert Tree(part);
  }

  lemma PartlyOwned(fs: Fs, scheme: Scheme, name: Name, part: Fs)
    requires Tree(fs) && Owned(fs, scheme) && Partly(fs, scheme, name, part)
    requires Top(name) in fs.entries ==> IsDir(fs, Top(name))
    ensures Owned(part, scheme)
  {
    forall p | p in part.entries && part.entries[p].project != 0
      ensures part.entries[p].project == scheme.id(p.dir)
      ensures IsDir(part, Top(p.dir)) && part.entries[Top(p.dir)].project == part.entries[p].project
    {
      if p.dir != name {
        assert Advanced(fs, scheme, name, part, p) && Advanced(fs, scheme, name, part, Top(p.dir));
      } else {
        assert Top(name) in fs.entries ==> Advanced(fs, scheme, name, part, Top(name));
      }
    }
  }

  lemma PartlyDistinct(fs: Fs, scheme: Scheme, name: Name, part: Fs)
    requires Owned(fs, scheme) && Distinct(fs, scheme) && Partly(fs, scheme, name, part)
    requires !Collides(fs, name, scheme.id(name))
    ensures Distinct(part, scheme)
  {
    forall m, n | Top(m) in part.entries && Top(n) in part.entries && m != n &&
                  part.entries[Top(m)].project != 0 && part.entries[Top(n)].project != 0
      ensures scheme.id(m) != scheme.id(n)
    {
      if m != name { assert Advanced(fs, scheme, name, part, Top(m)); }
      if n != name { assert Advanced(fs, scheme, name, part, Top(n)); }
    }
  }

  lemma PartlyLimited(fs: Fs, scheme: Scheme, name: Name, part: Fs)
    requires Limited(fs) && Partly(fs, scheme, name, part)
    ensures Limited(part)
  {
    forall id: nat | id != 0 && InUse(part, id) ensures id in part.limits && part.limits[id] == HARD {
      if id != scheme.id(name) || !LimitSet(fs, scheme, name, part) {
        if id !in fs.held {
          var p :| p in part.entries && part.entries[p].project == id;
          assert p in fs.entries && Advanced(fs, scheme, name, part, p);
        }
        assert InUse(fs, id);
      }
    }
  }

  /** What an undisturbed run makes. */
  lemma AppliedIsPartly(fs: Fs, scheme: Scheme, name: Name)
    ensures Owned(fs, scheme) && Tree(fs) ==> Partly(fs, scheme, name, Applied(fs, scheme, name))
  {
  }

  /** A stopped run leaves the directory private if it made it and had not opened it to its group. */
  predicate LeftPrivate(fs: Fs, name: Name, part: Fs) {
    Top(name) !in fs.entries && Top(name) in part.entries && part.entries[Top(name)].mode == PRIVATE
  }

  /** A repeated run succeeds when the first would have, and ends up where the first would have, except
    * that a directory which the first run left private stays private: only the run that makes the
    * directory opens it. */
  lemma RerunReaches(fs: Fs, scheme: Scheme, name: Name, part: Fs)
    requires Sound(fs, scheme) && Accepts(fs, scheme, name) && Partly(fs, scheme, name, part)
    ensures Accepts(part, scheme, name)
    ensures Applied(part, scheme, name) == Applied(fs, scheme, name) <==> !LeftPrivate(fs, name, part)
    ensures LeftPrivate(fs, name, part) ==> Applied(part, scheme, name) == Closed(Applied(fs, scheme, name), name)
  {
    RerunAccepted(fs, scheme, name, part);
    RerunKeys(fs, scheme, name, part);
    RerunTop(fs, scheme, name, part);
    var a, b, top := Applied(part, scheme, name), Applied(fs, scheme, name), Top(name);
    var private := LeftPrivate(fs, name, part);
    hide *;
    SameButTop(a.entries, b.entries, top);
    if private {
      assert a.entries == Closed(b, name).entries;
    }
  }

  lemma SameButTop(a: map<Place, Attr>, b: map<Place, Attr>, top: Place)
    requires a.Keys == b.Keys && top in b && forall p | p in b && p != top :: a[p] == b[p]
    ensures a == b[top := a[top]]
    ensures a == b <==> a[top] == b[top]
  {
  }

  lemma RerunKeys(fs: Fs, scheme: Scheme, name: Name, part: Fs)
    requires Sound(fs, scheme) && Partly(fs, scheme, name, part)
    ensures var a, b := Applied(part, scheme, name), Applied(fs, scheme, name);
      && a.limits == b.limits && a.held == b.held && a.entries.Keys == b.entries.Keys && Top(name) in b.entries
      && forall p | p in b.entries && p != Top(name) :: a.entries[p] == b.entries[p]
  {
    var a, b := Applied(part, scheme, name), Applied(fs, scheme, name);
    assert a.limits == b.limits;
    hide Attached;
    forall p ensures p in a.entries <==> p in b.entries
      ensures p in b.entries && p != Top(name) ==> a.entries[p] == b.entries[p]
    {
      RerunPlace(fs, scheme, name, part, p);
      hide *;
    }
    assert Top(name) in b.entries;
    hide *;
  }

  /** The same, with the directory closed to its group. */
  function Closed(fs: Fs, name: Name): Fs
    requires Top(name) in fs.entries
  {
    fs.(entries := fs.entries[Top(name) := fs.entries[Top(name)].(mode := PRIVATE)])
  }

  lemma RerunPlace(fs: Fs, scheme: Scheme, name: Name, part: Fs, p: Place)
    requires Tree(fs) && Partly(fs, scheme, name, part)
    ensures p in Applied(part, scheme, name).entries <==> p in Applied(fs, scheme, name).entries
    ensures p in Applied(fs, scheme, name).entries && p != Top(name) ==>
      Applied(part, scheme, name).entries[p] == Applied(fs, scheme, name).entries[p]
  {
    assert p in fs.entries ==> Advanced(fs, scheme, name, part, p);
    hide InUse, Sizes, Of, Attachable;
  }

  lemma RerunTop(fs: Fs, scheme: Scheme, name: Name, part: Fs)
    requires Partly(fs, scheme, name, part)
    ensures var top := Top(name);
      var a, b := Applied(part, scheme, name).entries[top], Applied(fs, scheme, name).entries[top];
      if LeftPrivate(fs, name, part) then a == b.(mode := PRIVATE) && b.mode == SHARED else a == b
  {
    assert Top(name) in fs.entries ==> Advanced(fs, scheme, name, part, Top(name));
    hide InUse, Sizes, Of, Attachable;
  }

  lemma RerunAccepted(fs: Fs, scheme: Scheme, name: Name, part: Fs)
    requires Tree(fs) && Accepts(fs, scheme, name) && Partly(fs, scheme, name, part)
    ensures Accepts(part, scheme, name)
  {
    var id, top := scheme.id(name), Top(name);
    RerunNoCollision(fs, scheme, name, part);
    if top in fs.entries {
      RerunFits(fs, scheme, name, part);
      assert Advanced(fs, scheme, name, part, top);
      RerunAttachable(fs, scheme, name, part);
      hide Fits, Collides, InUse, Of, Sizes, Attachable, Partly;
    } else if top in part.entries {
      RerunMade(fs, scheme, name, part);
      hide Fits, Collides, InUse, Sizes, Attachable;
    } else {
      assert InUse(part, id) ==> InUse(fs, id);
    }
  }

  lemma RerunAttachable(fs: Fs, scheme: Scheme, name: Name, part: Fs)
    requires Partly(fs, scheme, name, part) && Of(part, name) == Of(fs, name)
    requires forall p | p in Of(fs, name) :: Attachable(fs.entries[p], scheme.id(name))
    ensures forall p | p in Of(part, name) :: Attachable(part.entries[p], scheme.id(name))
  {
    forall p | p in Of(part, name) ensures Attachable(part.entries[p], scheme.id(name)) {
      assert p in Of(fs, name) && Advanced(fs, scheme, name, part, p);
    }
  }

  lemma RerunMade(fs: Fs, scheme: Scheme, name: Name, part: Fs)
    requires Tree(fs) && Partly(fs, scheme, name, part) && Top(name) !in fs.entries && Top(name) in part.entries
    ensures Of(part, name) == {Top(name)} && Fits(part, name)
    ensures part.entries[Top(name)].kind == Directory && Attachable(part.entries[Top(name)], scheme.id(name))
  {
    var top := Top(name);
    assert forall p | p in part.entries && p.dir == name :: p == top;
    assert Of(part, name) == {top};
    assert Sizes(part, name) == map[][top := DIR_BYTES];
    SumUpdate(map[], top, DIR_BYTES);
  }

  lemma RerunNoCollision(fs: Fs, scheme: Scheme, name: Name, part: Fs)
    requires Partly(fs, scheme, name, part) && !Collides(fs, name, scheme.id(name))
    ensures !Collides(part, name, scheme.id(name))
  {
    forall p | p in part.entries && p.dir != name ensures p in fs.entries && part.entries[p] == fs.entries[p] {
      assert p in fs.entries ==> Advanced(fs, scheme, name, part, p);
    }
  }

  lemma RerunFits(fs: Fs, scheme: Scheme, name: Name, part: Fs)
    requires Partly(fs, scheme, name, part) && Top(name) in fs.entries && Fits(fs, name)
    ensures Of(part, name) == Of(fs, name) && Fits(part, name)
  {
    forall p | p in fs.entries && p.dir == name ensures part.entries[p].bytes == fs.entries[p].bytes {
      assert Advanced(fs, scheme, name, part, p);
    }
    assert Of(part, name) == Of(fs, name);
    assert Sizes(part, name) == Sizes(fs, name);
  }

  // ----- The run -----

  class Storage {
    const scheme: Scheme
    var entries: map<Place, Attr>
    var limits: map<nat, Limit>
    var held: set<nat>

    function View(): Fs
      reads this
    {
      Fs(entries, limits, held)
    }

    constructor (scheme: Scheme)
      ensures View() == Fs(map[], map[], {}) && this.scheme == scheme && Sound(View(), scheme)
    {
      this.scheme := scheme;
      entries, limits, held := map[], map[], {};
    }
  
    /** The bytes below a directory; reading each size is a call. */
    method TotalSize(name: Name, fault: Option<nat>, calls: nat) returns (r: Result<nat, Error>, made: nat)
      ensures made >= calls
      ensures r.Ok? ==> r.value == Sum(Sizes(View(), name)) && made == calls + |Of(View(), name)|
      ensures r.Err? ==> fault.Some?
    {
      r, made := Ok(0), calls;
      var left := Of(View(), name);
      ghost var done: map<Place, int> := map[];
      while left != {}
        invariant left <= Of(View(), name)
        invariant done == Sizes(View(), name) - left
        invariant made >= calls && made + |left| == calls + |Of(View(), name)| && r.Ok? && r.value == Sum(done)
      {
        var p :| p in left;
        if fault == Some(made) {
          return Err(CallFailed), made;
        }
        made := made + 1;
        r := Ok(r.value + entries[p].bytes);
        SumUpdate(done, p, entries[p].bytes);
        done := done[p := entries[p].bytes];
        left := left - {p};
      }
      assert done == Sizes(View(), name);
    }

    /** Whether another directory has this project; reading each one's attributes is a call. */
    method CheckSiblings(name: Name, id: Id, fault: Option<nat>, calls: nat) returns (r: Option<Error>, made: nat)
      ensures made >= calls
      ensures r.None? ==> made == calls + |Siblings(View(), name)|
      ensures !Collides(View(), name, id) && fault.Some? && fault.value >= calls + |Siblings(View(), name)| ==> r.None?
      ensures r.None? ==> !Collides(View(), name, id)
      ensures fault.None? && !Collides(View(), name, id) ==> r.None?
    {
      r, made := None, calls;
      var left := Siblings(View(), name);
      while left != {}
        invariant made >= calls && r.None? && left <= Siblings(View(), name)
        invariant made + |left| == calls + |Siblings(View(), name)|
        invariant forall p | p in left :: p in entries && p.Top? && p.dir != name && entries[p].kind == Directory
        invariant forall p | p in entries && p.Top? && p.dir != name && entries[p].kind == Directory && p !in left ::
                    entries[p].project != id
      {
        var p :| p in left;
        if fault == Some(made) {
          return Some(CallFailed), made;
        }
        made := made + 1;
        if entries[p].project == id {
          return Some(Refused), made;
        }
        left := left - {p};
      }
    }

    /** One file joins the project, unless it may not. */
    method Attach(p: Place, id: Id, fault: Option<nat>, calls: nat) returns (r: Option<Error>)
      requires p in entries
      modifies this`entries
      ensures r.None? ==> Attachable(old(entries)[p], id) && entries == old(entries)[p := Attached(old(entries)[p], id)]
      ensures r.Some? ==> entries == old(entries)
      ensures fault.None? && Attachable(old(entries)[p], id) ==> r.None?
    {
      if !Attachable(entries[p], id) {
        return Some(Refused);
      }
      if fault == Some(calls) {
        return Some(CallFailed);
      }
      entries := entries[p := Attached(entries[p], id)];
      return None;
    }

    /** The directory first, then everything in it. */
    method AttachAll(name: Name, id: Id, fault: Option<nat>, calls: nat) returns (r: Option<Error>, made: nat)
      requires Top(name) in entries
      modifies this`entries
      ensures made >= calls
      ensures AttachedSome(old(entries), entries, name, id)
      ensures r.None? ==> entries == AttachedDir(old(entries), name, id)
      ensures r.None? ==> AllAttachable(old(entries), name, id)
      ensures fault.None? && AllAttachable(old(entries), name, id) ==> r.None?
    {
      made := calls + 1;
      var top := Top(name);
      r := Attach(top, id, fault, calls);
      if r.Some? {
        return;
      }
      var left := set p | p in entries && p.dir == name && p != top;
      while left != {}
        invariant made >= calls && r.None?
        invariant entries.Keys == old(entries).Keys && top !in left
        invariant forall p | p in left :: p in entries && p.dir == name
        invariant forall p | p in entries && p.dir == name && p !in left :: Attachable(old(entries)[p], id)
        invariant forall p | p in entries ::
          entries[p] == if p.dir == name && p !in left then Attached(old(entries)[p], id) else old(entries)[p]
      {
        var p :| p in left;
        r := Attach(p, id, fault, made);
        if r.Some? {
          return;
        }
        made := made + 1;
        left := left - {p};
      }
    }
  
    /** Gives the directory its project and limits. Wherever the run stops, what always holds still does, and
      * a repeated run can take over; without a failing call it succeeds exactly when the input is accepted. */
    method Apply(name: Name, fault: Option<nat>) returns (r: Result<Report, Error>)
      requires Sound(View(), scheme)
      modifies this`entries, this`limits
      ensures Sound(View(), scheme)
      ensures Partly(old(View()), scheme, name, View())
      ensures r.Ok? ==> View() == Applied(old(View()), scheme, name) && r.value == Report(scheme.id(name), HARD)
      ensures fault.None? ==> (r.Ok? <==> Accepts(old(View()), scheme, name))
      ensures r.Ok? ==> Accepts(old(View()), scheme, name)
      ensures Accepts(old(View()), scheme, name) && Top(name) !in old(entries) ==>
        fault == Some(|Siblings(old(View()), name)| + 3) ==> View() == Start(old(View()), name)
    {
      ghost var was := View();
      var id, top := scheme.id(name), Top(name);
      SameIsPartly(was, scheme, name);
      hide Sound, Partly, Applied, Collides, InUse, Fits;
      if !scheme.allowed(name) || (top in entries && entries[top].kind == Symlink) {
        return Err(Refused);
      }
      if fault == Some(0) {
        return Err(CallFailed);
      }
      var bad, calls := CheckSiblings(name, id, fault, 1);
      if bad.Some? {
        return Err(bad.value);
      }
      var existing := top in entries;
      if existing && entries[top].kind != Directory {
        return Err(Refused);
      }
      if fault == Some(calls) {
        return Err(CallFailed);
      }
      if !existing && InUse(View(), id) {
        return Err(Refused);
      }
      calls := calls + 1;
      if existing {
        var total: Result<nat, Error>;
        total, calls := TotalSize(name, fault, calls);
        if total.Err? {
          return Err(total.error);
        }
        FitsIs(was, name, total.value);
        if total.value > HARD_BYTES || |Of(View(), name)| > HARD_INODES {
          return Err(Refused);
        }
      }
      r := Setup(name, id, existing, fault, calls);
    }

    /** Makes the directory if it is not there, sets the limits, and only then attaches. */
    method Setup(name: Name, id: Id, existing: bool, fault: Option<nat>, calls: nat) returns (r: Result<Report, Error>)
      requires Sound(View(), scheme) && id == scheme.id(name) && Checked(View(), scheme, name)
      requires existing == (Top(name) in entries)
      modifies this`entries, this`limits
      ensures Sound(View(), scheme)
      ensures Partly(old(View()), scheme, name, View())
      ensures r.Ok? ==> View() == Applied(old(View()), scheme, name) && r.value == Report(id, HARD)
      ensures fault.None? ==> (r.Ok? <==> Accepts(old(View()), scheme, name))
      ensures r.Ok? ==> Accepts(old(View()), scheme, name)
      ensures !existing && fault == Some(calls + 1) ==> View() == Start(old(View()), name)
    {
      ghost var was := View();
      var made := calls;
      SameIsPartly(was, scheme, name);
      StartIsPartly(was, scheme, name);
      PartlySound(was, scheme, name, Start(was, name));
      hide Sound, Partly, Applied, Accepts, Checked;
      if !existing {
        if fault == Some(made) {
          return Err(CallFailed);
        }
        made := made + 1;
        entries := entries[Top(name) := MADE];
      }
      assert View() == Start(was, name);
      if fault == Some(made) {
        return Err(CallFailed);
      }
      limits := limits[id := HARD];
      r := Enroll(name, id, existing, fault, made + 1, was);
    }

    /** Attaches everything and opens a new directory to its group. */
    method Enroll(name: Name, id: Id, existing: bool, fault: Option<nat>, calls: nat, ghost was: Fs)
      returns (r: Result<Report, Error>)
      requires Sound(was, scheme) && id == scheme.id(name) && Checked(was, scheme, name)
      requires existing == (Top(name) in was.entries)
      requires View() == Start(was, name).(limits := was.limits[id := HARD])
      modifies this`entries
      ensures Sound(View(), scheme)
      ensures Partly(was, scheme, name, View())
      ensures r.Ok? ==> View() == Applied(was, scheme, name) && r.value == Report(id, HARD)
      ensures fault.None? ==> (r.Ok? <==> Accepts(was, scheme, name))
      ensures r.Ok? ==> Accepts(was, scheme, name)
    {
      assert Top(name) in entries && id in limits && limits[id] == HARD;
      AttachedIsApplied(was, scheme, name);
      AppliedIsPartly(was, scheme, name);
      AttachableIffAccepted(was, scheme, name);
      hide Sound, Partly, Applied, Accepts, AttachedSome, AttachedDir, Attached, Checked, AllAttachable;
      var bad, made := AttachAll(name, id, fault, calls);
      SomeIsPartly(was, scheme, name, entries);
      PartlySound(was, scheme, name, View());
      if bad.Some? {
        return Err(bad.value);
      }
      if !existing {
        if fault == Some(made) {
          return Err(CallFailed);
        }
        made := made + 1;
        entries := entries[Top(name) := entries[Top(name)].(mode := SHARED)];
      }
      assert View() == Applied(was, scheme, name);
      PartlySound(was, scheme, name, View());
      if fault == Some(made) {
        return Err(CallFailed);
      }
      return Ok(Report(id, limits[id]));
    }
  
    /** Unlinks a file; if some process holds it, its project keeps it accounted. */
    method Unlink(p: Place)
      requires p in entries
      modifies this`entries, this`held
      ensures entries == old(entries) - {p}
      ensures held == old(held) + HeldBy(old(entries)[p])
    {
      held := held + HeldBy(entries[p]);
      entries := entries - {p};
    }

    /** Removes a directory, what is in it first. */
    method RemoveTree(name: Name, fault: Option<nat>, calls: nat) returns (r: Option<Error>, made: nat)
      requires Top(name) in entries
      modifies this`entries, this`held
      ensures made >= calls && (fault.None? ==> r.None?)
      ensures PartlyGone(old(View()), name, View())
      ensures r.None? ==> Of(View(), name) == {}
      ensures r.None? ==> forall p | p in old(entries) && p.dir == name :: HeldBy(old(entries)[p]) <= held
    {
      r, made := None, calls;
      var left := set p | p in entries && p.dir == name && p.Inside?;
      while left != {}
        invariant made >= calls && r.None?
        invariant Top(name) in entries && left == set p | p in entries && p.dir == name && p.Inside?
        invariant PartlyGone(old(View()), name, View())
        invariant forall p | p in old(entries) && p !in entries :: HeldBy(old(entries)[p]) <= held
      {
        var p :| p in left;
        if fault == Some(made) {
          return Some(CallFailed), made;
        }
        made := made + 1;
        Unlink(p);
        left := left - {p};
      }
      if fault == Some(made) {
        return Some(CallFailed), made;
      }
      made := made + 1;
      Unlink(Top(name));
    }

    /** Removes the directory and, once nothing is accounted to the project any more, its limits. */
    method Destroy(name: Name, fault: Option<nat>) returns (r: Option<Error>)
      requires Sound(View(), scheme)
      modifies this
      ensures Sound(View(), scheme)
      ensures r.Some? ==> PartlyGone(old(View()), name, View())
      ensures r.None? ==> View() == Destroyed(old(View()), scheme, name) && !InUse(View(), scheme.id(name))
      ensures fault.None? ==> (r.None? <==> Removable(old(View()), scheme, name))
    {
      ghost var was := View();
      var id, top := scheme.id(name), Top(name);
      GoneSame(was, name);
      if !scheme.allowed(name) || (top in entries && entries[top].kind == Symlink) {
        return Some(Refused);
      }
      if fault == Some(0) {
        return Some(CallFailed);
      }
      var calls := 1;
      hide Sound, PartlyGone, InUse, Destroyed;
      if top in entries {
        if entries[top].project != id {
          return Some(Refused);
        }
        r, calls := RemoveTree(name, fault, 1);
        GoneSound(was, scheme, name, View());
        if r.Some? {
          return;
        }
      }
      GoneFreed(was, scheme, name, View());
      if fault == Some(calls) {
        return Some(CallFailed);
      }
      if InUse(View(), id) {
        return Some(Refused);
      }
      if fault == Some(calls + 1) {
        return Some(CallFailed);
      }
      UnusedSound(View(), scheme, id);
      limits := limits - {id};
      return None;
    }

    // ----- What applications do between runs -----

    /** A new file inside a directory takes its project if the directory passes it on. */
    method Create(parent: Place, p: Place, kind: Kind, links: nat, bytes: nat, mode: nat, open: bool)
      requires Sound(View(), scheme) && IsDir(View(), parent) && p.Inside? && p.dir == parent.dir && p !in entries
      modifies this`entries
      ensures Sound(View(), scheme)
      ensures entries == old(entries)[p := NewFile(old(entries)[parent], kind, links, bytes, mode, open)]
      ensures forall name | Complete(old(View()), scheme, name) :: Complete(View(), scheme, name)
    {
      entries := entries[p := NewFile(entries[parent], kind, links, bytes, mode, open)];
      assert forall id: nat | id != 0 :: InUse(View(), id) ==> InUse(old(View()), id);
    }

    method Delete(p: Place)
      requires Sound(View(), scheme) && p in entries && p.Inside?
      modifies this`entries, this`held
      ensures Sound(View(), scheme)
      ensures entries == old(entries) - {p} && held == old(held) + HeldBy(old(entries)[p])
    {
      ghost var was := View();
      Unlink(p);
      GoneSound(was, scheme, p.dir, View());
    }

    method Close(id: nat)
      requires Sound(View(), scheme)
      modifies this`held
      ensures Sound(View(), scheme) && held == old(held) - {id}
    {
      held := held - {id};
      assert forall i: nat :: InUse(View(), i) ==> InUse(old(View()), i);
    }
  }

  function NewFile(parent: Attr, kind: Kind, links: nat, bytes: nat, mode: nat, open: bool): Attr {
    Attr(kind, if parent.inherit then parent.project else 0, parent.inherit && kind == Directory, links, bytes, mode,
         open)
  }

  // ----- Removing -----

  function HeldBy(a: Attr): set<nat> { if a.open && a.project != 0 then {a.project} else {} }

  /** Left behind by a removal that has stopped somewhere; the limits stay as they are. */
  ghost predicate PartlyGone(fs: Fs, name: Name, part: Fs) {
    && part.limits == fs.limits
    && (forall p | p in part.entries :: p in fs.entries && part.entries[p] == fs.entries[p])
    && (forall p | p in fs.entries && p.dir != name :: p in part.entries)
    && (Top(name) in fs.entries && Top(name) !in part.entries ==> Of(part, name) == {})
    && fs.held <= part.held
    && (forall id | id in part.held && id !in fs.held ::
          exists p :: p in fs.entries && p.dir == name && id in HeldBy(fs.entries[p]))
  }

  function Destroyed(fs: Fs, scheme: Scheme, name: Name): Fs {
    Fs(fs.entries - Of(fs, name), fs.limits - {scheme.id(name)}, fs.held)
  }

  /** Nothing stays accounted once the directory is gone. */
  predicate Removable(fs: Fs, scheme: Scheme, name: Name) {
    && scheme.allowed(name)
    && if Top(name) in fs.entries then
         && fs.entries[Top(name)].project == scheme.id(name) && scheme.id(name) !in fs.held
         && forall p | p in Of(fs, name) :: scheme.id(name) !in HeldBy(fs.entries[p])
       else !InUse(fs, scheme.id(name)) 
  }

  /** Everything below the directory is accounted to its project, and so is what will be made there. */
  ghost predicate Complete(fs: Fs, scheme: Scheme, name: Name) {
    forall p | p in fs.entries && p.dir == name ::
      fs.entries[p].project == scheme.id(name) && (fs.entries[p].kind == Directory ==> fs.entries[p].inherit)
  }

  lemma HeldIs(a: Attr, id: nat)
    ensures id in HeldBy(a) ==> a.project == id
  {
  }

  lemma GoneSame(fs: Fs, name: Name)
    ensures PartlyGone(fs, name, fs)
  {
  }

  lemma GoneSound(fs: Fs, scheme: Scheme, name: Name, part: Fs)
    requires Sound(fs, scheme) && PartlyGone(fs, name, part)
    ensures Sound(part, scheme)
  {
    forall id: nat | id != 0 && InUse(part, id) ensures InUse(fs, id) {
      if id in part.held && id !in fs.held {
        var p :| p in fs.entries && p.dir == name && id in HeldBy(fs.entries[p]);
        HeldIs(fs.entries[p], id);
      }
    }
    forall p | p in part.entries ensures Top(p.dir) in fs.entries ==> Top(p.dir) in part.entries {
      assert p.dir == name ==> p in Of(part, name);
    }
  }

  lemma UnusedSound(fs: Fs, scheme: Scheme, id: nat)
    requires Sound(fs, scheme) && !InUse(fs, id)
    ensures Sound(fs.(limits := fs.limits - {id}), scheme)
  {
    var t := fs.(limits := fs.limits - {id});
    assert forall i: nat :: InUse(t, i) == InUse(fs, i);
  }

  /** Once the directory is gone, its project is free just when nothing of it was held open and no other
    * directory had it. */
  lemma GoneFreed(fs: Fs, scheme: Scheme, name: Name, part: Fs)
    requires Sound(fs, scheme) && PartlyGone(fs, name, part) && Of(part, name) == {} && scheme.allowed(name)
    requires if Top(name) in fs.entries then fs.entries[Top(name)].project == scheme.id(name) else part == fs
    requires forall p | p in Of(fs, name) :: HeldBy(fs.entries[p]) <= part.held
    ensures InUse(part, scheme.id(name)) <==> !Removable(fs, scheme, name)
    ensures !InUse(part, scheme.id(name)) ==>
      part.(limits := part.limits - {scheme.id(name)}) == Destroyed(fs, scheme, name)
  {
    var id: nat := scheme.id(name);
    forall p | p in part.entries ensures p.dir != name && (Top(name) in fs.entries ==> part.entries[p].project != id) {
      assert p.dir == name ==> p in Of(part, name);
      assert fs.entries[p] == part.entries[p];
    }
    if Top(name) in fs.entries {
      forall p, i: nat | p in fs.entries && p.dir == name && i in HeldBy(fs.entries[p])
        ensures i == id && p in Of(fs, name)
      {
        HeldIs(fs.entries[p], i);
      }
      hide HeldBy;
      assert InUse(part, id) <==> id in part.held;
    }
    assert part.entries == fs.entries - Of(fs, name);
    if !InUse(part, id) {
      assert part.held == fs.held;
    }
  }

  /** Applying to a directory that was not there and destroying it again changes nothing. */
  lemma DestroyUndoesApply(fs: Fs, scheme: Scheme, name: Name)
    requires Tree(fs) && Top(name) !in fs.entries && scheme.id(name) !in fs.limits
    ensures Destroyed(Applied(fs, scheme, name), scheme, name) == fs
  {
    var a := Applied(fs, scheme, name);
    assert Destroyed(a, scheme, name).entries == fs.entries;
    assert Destroyed(a, scheme, name).limits == fs.limits;
  }

  /** Everything is accounted to the project, which may hold one GiB in 65536 files; a directory that was made is
    * shared with its group, what was there keeps the rest of its attributes, and other directories are as before. */
  lemma AppliedComplete(fs: Fs, scheme: Scheme, name: Name)
    requires Accepts(fs, scheme, name)
    ensures var now := Applied(fs, scheme, name);
      && Complete(now, scheme, name)
      && scheme.id(name) in now.limits && now.limits[scheme.id(name)] == Limit(1073741824, 65536)
      && Top(name) in now.entries && now.entries[Top(name)].kind == Directory
      && (Top(name) !in fs.entries ==>
            now.entries[Top(name)] == Attr(Directory, scheme.id(name), true, 2, 4096, 0x1f8, false))
      && (forall p | p in fs.entries :: p in now.entries &&
            if p.dir != name then now.entries[p] == fs.entries[p]
            else now.entries[p] == fs.entries[p].(project := scheme.id(name), inherit := now.entries[p].inherit))
  {
  }

  /** An allowed name is accepted when no other directory has its project number, and a new one also only when
    * nothing at all is accounted to that number; an existing directory must fit into one GiB and 65536 files, and hold
    * only directories and regular files without further links that are of this project or none. */
  lemma AcceptsIff(fs: Fs, scheme: Scheme, name: Name)
    ensures var id := scheme.id(name);
      Accepts(fs, scheme, name) <==>
        && scheme.allowed(name)
        && (forall p | p in fs.entries && p.Top? && p.dir != name && fs.entries[p].kind == Directory ::
              fs.entries[p].project != id)
        && if Top(name) in fs.entries then
             && fs.entries[Top(name)].kind == Directory
             && Sum(Sizes(fs, name)) <= 1073741824 && |Of(fs, name)| <= 65536
             && forall p | p in fs.entries && p.dir == name :: MayJoin(fs.entries[p], id)
           else id !in fs.held && forall p | p in fs.entries :: fs.entries[p].project != id
  {
    hide Sizes;
    assert forall p | p in fs.entries && p.dir == name ::
      MayJoin(fs.entries[p], scheme.id(name)) == Attachable(fs.entries[p], scheme.id(name)) && p in Of(fs, name);
  }

  /** A directory, or a regular file of one name, without a project or with this one. */
  predicate MayJoin(a: Attr, id: Id) {
    match a.kind
    case Directory => a.project in {0, id as nat}
    case Regular => a.project in {0, id as nat} && a.links in {0, 1}
    case _ => false
  }

  /** What has been checked before anything changes. */
  ghost predicate Checked(fs: Fs, scheme: Scheme, name: Name) {
    && scheme.allowed(name) && !Collides(fs, name, scheme.id(name))
    && if Top(name) in fs.entries then IsDir(fs, Top(name)) && Fits(fs, name) else !InUse(fs, scheme.id(name))
  }

  /** After the directory is there and before anything else. */
  function Start(fs: Fs, name: Name): Fs {
    if Top(name) in fs.entries then fs else fs.(entries := fs.entries[Top(name) := MADE])
  }

  lemma SameIsPartly(fs: Fs, scheme: Scheme, name: Name)
    ensures Sound(fs, scheme) ==> Partly(fs, scheme, name, fs)
  {
  }

  lemma StartIsPartly(fs: Fs, scheme: Scheme, name: Name)
    ensures Sound(fs, scheme) ==> Partly(fs, scheme, name, Start(fs, name))
  {
  }

  lemma FitsIs(fs: Fs, name: Name, total: nat)
    ensures total == Sum(Sizes(fs, name)) ==>
      (Fits(fs, name) <==> total <= HARD_BYTES && |Of(fs, name)| <= HARD_INODES)
  {
  }

  lemma SomeIsPartly(fs: Fs, scheme: Scheme, name: Name, now: map<Place, Attr>)
    requires Sound(fs, scheme) && AttachedSome(Start(fs, name).entries, now, name, scheme.id(name))
    ensures Partly(fs, scheme, name, Fs(now, fs.limits[scheme.id(name) := HARD], fs.held))
  {
    hide Attachable, InUse, Sizes;
  }

  lemma AttachableIffAccepted(fs: Fs, scheme: Scheme, name: Name)
    requires Tree(fs) && Checked(fs, scheme, name)
    ensures var e, id := Start(fs, name).entries, scheme.id(name);
      Accepts(fs, scheme, name) <==> AllAttachable(e, name, id)
  {
    hide Collides, InUse, Fits;
  }

  lemma AttachedIsApplied(fs: Fs, scheme: Scheme, name: Name)
    ensures var top := Top(name); var e := AttachedDir(Start(fs, name).entries, name, scheme.id(name));
      Applied(fs, scheme, name).entries == if top in fs.entries then e else e[top := e[top].(mode := SHARED)]
    ensures Applied(fs, scheme, name).limits == fs.limits[scheme.id(name) := HARD]
    ensures Applied(fs, scheme, name).held == fs.held
  {
  }

  function AttachedDir(entries: map<Place, Attr>, name: Name, id: Id): map<Place, Attr> {
    map p | p in entries :: if p in entries && p.dir == name then Attached(entries[p], id) else entries[p]
  }

  predicate AllAttachable(entries: map<Place, Attr>, name: Name, id: Id) {
    forall p | p in entries && p.dir == name :: Attachable(entries[p], id)
  }

  ghost predicate AttachedSome(was: map<Place, Attr>, now: map<Place, Attr>, name: Name, id: Id) {
    && now.Keys == was.Keys
    && (forall p | p in was :: now[p] == was[p] || (p.dir == name && now[p] == Attached(was[p], id)))
    && (now == was || (Top(name) in now && now[Top(name)].project == id))
  }

  /** The run is stopped right after it has made the directory, and repeated: that succeeds, and leaves the
    * directory private. */
  method RerunLeavesPrivate(storage: Storage, name: Name)
    requires Sound(storage.View(), storage.scheme) && Accepts(storage.View(), storage.scheme, name)
    requires Top(name) !in storage.entries
    modifies storage`entries, storage`limits
    ensures Top(name) in Applied(old(storage.View()), storage.scheme, name).entries
    ensures storage.View() == Closed(Applied(old(storage.View()), storage.scheme, name), name)
    ensures storage.View() != Applied(old(storage.View()), storage.scheme, name)
  {
    ghost var was := storage.View();
    StartLeftPrivate(was, storage.scheme, name);
    hide Sound, Accepts, Applied, Partly, Start, Siblings, LeftPrivate;
    var others := |Siblings(storage.View(), name)|;
    var stopped := storage.Apply(name, Some(others + 3));
    RerunReaches(was, storage.scheme, name, storage.View());
    var again := storage.Apply(name, None);
  }

  lemma StartLeftPrivate(fs: Fs, scheme: Scheme, name: Name)
    requires Top(name) !in fs.entries
    ensures LeftPrivate(fs, name, Start(fs, name)) && Top(name) in Applied(fs, scheme, name).entries
  {
  }
}
