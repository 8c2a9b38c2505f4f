/** Atomic multi-file commits on a Git branch (apps/backend/src/github-app/github-app.service.ts).
  *
  * A call reads the branch head, overlays its edit on the head's tree, stores a commit and asks for a
  * non-forced ref update. Calls interleave with each other and with pushes of other people. Commits
  * are numbered in creation order and a tree is its flattened content; equal trees have equal hashes.
  */
module GitRepo {
  import opened Common

  type Path = string
  type Content = string

  datatype Kind = Blob | Submodule
  datatype Entry = Entry(mode: string, kind: Kind, content: Content)
  type Tree = map<Path, Entry>

  datatype Commit = Commit(tree: Tree, parents: seq<nat>)

  /** An edit; an empty replaceDir replaces no directory. */
  datatype Request = Request(files: map<Path, Content>, expectedHead: Option<nat>,
                             replaceDir: Path, deletePaths: seq<Path>)

  // ----- The edit of one call -----

  function NewFile(content: Content): Entry { Entry("100644", Blob, content) }

  predicate UnderDirectory(path: Path, dir: Path) { dir + "/" <= path }

  function InDirectory(tree: Tree, req: Request): set<Path> {
    set p | p in tree && tree[p].kind.Blob? && UnderDirectory(p, req.replaceDir) && p !in req.files
  }

  function Unwritten(paths: seq<Path>, req: Request): set<Path> {
    set p | p in paths && p !in req.files
  }

  function NewFiles(req: Request, paths: set<Path>): Tree
    requires paths <= req.files.Keys
  {
    (map p | p in req.files :: NewFile(req.files[p])) - (req.files.Keys - paths)
  }

  /** Files the edit removes from a tree; a path the edit also writes is never removed. */
  function Removed(tree: Tree, req: Request): set<Path> {
    (if req.replaceDir == "" then {} else InDirectory(tree, req)) + Unwritten(req.deletePaths, req)
  }

  /** The tree after the edit. */
  function Overlay(tree: Tree, req: Request): Tree {
    (tree - Removed(tree, req)) + NewFiles(req, req.files.Keys)
  }

  predicate Nothing(tree: Tree, req: Request) { Removed(tree, req) == {} && req.files == map[] }

  /** The path is to be deleted, or is a file of the directory to be replaced. */
  predicate Deleting(tree: Tree, req: Request, path: Path) {
    || path in req.deletePaths
    || (|req.replaceDir| > 0 && path in tree && tree[path].kind == Blob && req.replaceDir + "/" <= path)
  }

  /** What the edit makes of each path: a written one gets its text, and of the others those to be deleted go. */
  lemma OverlayAt(tree: Tree, req: Request, path: Path)
    ensures var after := Overlay(tree, req);
      if path in req.files then path in after && after[path] == Entry("100644", Blob, req.files[path])
      else if Deleting(tree, req, path) then path !in after
      else (path in after <==> path in tree) && (path in tree ==> after[path] == tree[path])
  {
  }

  /** There is nothing to do exactly when no path is written or to be deleted. */
  lemma NothingIff(tree: Tree, req: Request)
    ensures Nothing(tree, req) <==> forall path :: path !in req.files && !Deleting(tree, req, path)
  {
    assert req.files == map[] <==> req.files.Keys == {};
    if Nothing(tree, req) {
      forall path ensures path !in req.files && !Deleting(tree, req, path) {
        assert path !in Removed(tree, req);
      }
    }
  }

  datatype TreeEdit = Put(path: Path, content: Content) | Delete(path: Path)

  function ApplyEdit(tree: Tree, edit: TreeEdit): Tree {
    match edit
    case Put(p, c) => tree[p := NewFile(c)]
    case Delete(p) => tree - {p}
  }

  function ApplyEdits(tree: Tree, edits: seq<TreeEdit>): Tree {
    if edits == [] then tree else ApplyEdit(ApplyEdits(tree, edits[..|edits| - 1]), edits[|edits| - 1])
  }

  lemma ApplyOneMore(tree: Tree, edits: seq<TreeEdit>, edit: TreeEdit)
    ensures ApplyEdits(tree, edits + [edit]) == ApplyEdit(ApplyEdits(tree, edits), edit)
  {
    assert (edits + [edit])[..|edits|] == edits;
  }

  lemma {:induction false} ApplyConcat(tree: Tree, a: seq<TreeEdit>, b: seq<TreeEdit>)
    ensures ApplyEdits(tree, a + b) == ApplyEdits(ApplyEdits(tree, a), b)
  {
    if b == [] {
      assert a + b == a;
    } else {
      var init, last := b[..|b| - 1], b[|b| - 1];
      assert a + b == (a + init) + [last];
      ApplyOneMore(tree, a + init, last);
      ApplyConcat(tree, a, init);
    }
  }

  /** Deletions of paths that the edit does not write. */
  predicate OnlyDeletes(edits: seq<TreeEdit>, req: Request) {
    forall e | e in edits :: e.Delete? && e.path !in req.files
  }

  /** Each of these files once, with its content. */
  predicate WritesOnce(edits: seq<TreeEdit>, req: Request, paths: set<Path>)
    requires paths <= req.files.Keys
  {
    && |edits| == |paths|
    && (forall e | e in edits :: e.Put? && e.path in paths && e.content == req.files[e.path])
    && (forall p | p in paths :: Put(p, req.files[p]) in edits)
  }

  /** Deletions for the files of the replaced directory that the edit does not write. */
  method DirectoryDeletions(tree: Tree, req: Request) returns (edits: seq<TreeEdit>)
    ensures ApplyEdits(tree, edits) == tree - InDirectory(tree, req)
    ensures edits == [] <==> InDirectory(tree, req) == {}
    ensures OnlyDeletes(edits, req)
  {
    edits := [];
    ghost var gone: set<Path> := {};
    var listed := tree.Keys;
    while listed != {}
      invariant listed <= tree.Keys
      invariant gone == InDirectory(tree, req) - listed
      invariant ApplyEdits(tree, edits) == tree - gone
      invariant edits == [] <==> gone == {}
      invariant OnlyDeletes(edits, req)
    {
      var path :| path in listed;
      ghost var before := listed;
      listed := listed - {path};
      assert InDirectory(tree, req) - listed
          == (InDirectory(tree, req) - before) + (if path in InDirectory(tree, req) then {path} else {});
      if tree[path].kind.Blob? && UnderDirectory(path, req.replaceDir) && path !in req.files {
        ApplyOneMore(tree, edits, Delete(path));
        edits := edits + [Delete(path)];
        gone := gone + {path};
      }
    }
    assert gone == InDirectory(tree, req);
  }

  method PathDeletions(ghost tree: Tree, req: Request) returns (edits: seq<TreeEdit>)
    ensures ApplyEdits(tree, edits) == tree - Unwritten(req.deletePaths, req)
    ensures edits == [] <==> Unwritten(req.deletePaths, req) == {}
    ensures OnlyDeletes(edits, req)
  {
    edits := [];
    for i := 0 to |req.deletePaths|
      invariant ApplyEdits(tree, edits) == tree - Unwritten(req.deletePaths[..i], req)
      invariant edits == [] <==> Unwritten(req.deletePaths[..i], req) == {}
      invariant OnlyDeletes(edits, req)
    {
      var path := req.deletePaths[i];
      assert req.deletePaths[..i + 1] == req.deletePaths[..i] + [path];
      ghost var before, after := Unwritten(req.deletePaths[..i], req), Unwritten(req.deletePaths[..i + 1], req);
      if path !in req.files {
        ApplyOneMore(tree, edits, Delete(path));
        edits := edits + [Delete(path)];
        assert after == before + {path};
      } else {
        assert after == before;
      }
    }
    assert req.deletePaths[..|req.deletePaths|] == req.deletePaths;
  }

  lemma WritesOneMore(edits: seq<TreeEdit>, req: Request, paths: set<Path>, path: Path)
    requires paths <= req.files.Keys && WritesOnce(edits, req, paths) && path in req.files && path !in paths
    ensures WritesOnce(edits + [Put(path, req.files[path])], req, paths + {path})
  {
  }

  lemma NothingWritten(req: Request)
    ensures WritesOnce([], req, {})
  {
  }

  method BlobEdits(ghost tree: Tree, req: Request) returns (edits: seq<TreeEdit>)
    ensures ApplyEdits(tree, edits) == tree + NewFiles(req, req.files.Keys)
    ensures edits == [] <==> req.files == map[]
    ensures WritesOnce(edits, req, req.files.Keys)
  {
    hide WritesOnce, ApplyEdits, NewFiles;
    edits := [];
    var paths := req.files.Keys;
    ghost var written: set<Path> := {};
    NothingApplied(tree);
    NothingWritten(req);
    NoNewFiles(tree, req);
    while paths != {}
      invariant paths !! written && paths + written == req.files.Keys
      invariant ApplyEdits(tree, edits) == tree + NewFiles(req, written)
      invariant WritesOnce(edits, req, written)
    {
      var path :| path in paths;
      paths := paths - {path};
      ApplyOneMore(tree, edits, Put(path, req.files[path]));
      OneNewFile(tree, req, written, path);
      WritesOneMore(edits, req, written, path);
      edits := edits + [Put(path, req.files[path])];
      written := written + {path};
      assert paths + written == req.files.Keys;
    }
    assert written == req.files.Keys;
    NoneWritten(edits, req, written);
  }

  lemma NoNewFiles(tree: Tree, req: Request)
    ensures tree + NewFiles(req, {}) == tree
  {
  }

  lemma OneNewFile(tree: Tree, req: Request, paths: set<Path>, path: Path)
    requires paths <= req.files.Keys && path in req.files
    ensures tree + NewFiles(req, paths + {path}) == (tree + NewFiles(req, paths))[path := NewFile(req.files[path])]
  {
  }

  lemma NoneWritten(edits: seq<TreeEdit>, req: Request, paths: set<Path>)
    requires paths == req.files.Keys && WritesOnce(edits, req, paths)
    ensures edits == [] <==> req.files == map[]
  {
    assert req.files == map[] <==> paths == {};
  }

  lemma NothingApplied(tree: Tree)
    ensures ApplyEdits(tree, []) == tree
  {
  }

  /** First deletions of paths that are not written, then every written file once. */
  ghost predicate DeletesThenWrites(edits: seq<TreeEdit>, req: Request) {
    exists k | 0 <= k <= |edits| :: OnlyDeletes(edits[..k], req) && WritesOnce(edits[k..], req, req.files.Keys)
  }

  lemma DeletesConcat(a: seq<TreeEdit>, b: seq<TreeEdit>, req: Request)
    ensures OnlyDeletes(a, req) && OnlyDeletes(b, req) ==> OnlyDeletes(a + b, req)
    ensures OnlyDeletes([], req)
  {
  }

  lemma Arranged(deletions: seq<TreeEdit>, writes: seq<TreeEdit>, req: Request)
    requires OnlyDeletes(deletions, req) && WritesOnce(writes, req, req.files.Keys)
    ensures DeletesThenWrites(deletions + writes, req)
  {
    var edits := deletions + writes;
    hide OnlyDeletes, WritesOnce;
    assert edits[..|deletions|] == deletions && edits[|deletions|..] == writes;
  }

  /** The entries sent to the tree endpoint. */
  method BuildEdits(tree: Tree, req: Request) returns (edits: seq<TreeEdit>)
    ensures ApplyEdits(tree, edits) == Overlay(tree, req)
    ensures edits == [] <==> Nothing(tree, req)
    ensures DeletesThenWrites(edits, req)
  {
    hide OnlyDeletes, WritesOnce, DeletesThenWrites, ApplyEdits;
    NothingApplied(tree);
    var deletions := [];
    DeletesConcat([], [], req);
    if req.replaceDir != "" {
      deletions := DirectoryDeletions(tree, req);
    }
    ghost var after := ApplyEdits(tree, deletions);
    var byPath := PathDeletions(after, req);
    ApplyConcat(tree, deletions, byPath);
    DeletesConcat(deletions, byPath, req);
    deletions := deletions + byPath;
    assert ApplyEdits(tree, deletions) == tree - Removed(tree, req);
    var blobs := BlobEdits(tree - Removed(tree, req), req);
    ApplyConcat(tree, deletions, blobs);
    edits := deletions + blobs;
    Arranged(deletions, blobs, req);
  }

  // ----- Commits, the branch and its history -----

  /** Why the branch moved: its initial commit, somebody else's push, or a commit of call id. */
  datatype Cause = Initial | Push | Call(id: nat, req: Request)
  datatype Update = Update(head: nat, cause: Cause)

  /** Stored commits, and every value the branch has had, oldest first. */
  datatype Repo = Repo(commits: seq<Commit>, log: seq<Update>) {
    predicate Valid() {
      && (forall c, i :: 0 <= c < |commits| && 0 <= i < |commits[c].parents| ==> commits[c].parents[i] < c)
      && log != []
      && (forall i :: 0 <= i < |log| ==> log[i].head < |commits|)
    }

    function Head(): nat
      requires Valid()
    {
      log[|log| - 1].head
    }

    function TreeAt(i: nat): Tree
      requires Valid() && i < |log|
    {
      commits[log[i].head].tree
    }

    /** Whether commit a is commit c or one of its ancestors. */
    predicate Ancestor(a: nat, c: nat)
      requires Valid() && c < |commits|
      decreases c
    {
      a == c || exists i :: 0 <= i < |commits[c].parents| && Ancestor(a, commits[c].parents[i])
    }

    /** Storing a commit leaves the branch alone. */
    function Store(commit: Commit): Repo { this.(commits := commits + [commit]) }

    /** A ref update without force: accepted only from an ancestor of the new head. */
    function MoveHead(commit: nat, cause: Cause): Repo
      requires Valid() && commit < |commits|
    {
      if Ancestor(Head(), commit) then this.(log := log + [Update(commit, cause)]) else this
    }

    predicate CanMove(commit: nat)
      requires Valid() && commit < |commits|
    {
      Ancestor(Head(), commit)
    }
  }

  lemma {:induction false} AncestorIsOlder(r: Repo, a: nat, c: nat)
    requires r.Valid() && c < |r.commits| && r.Ancestor(a, c)
    ensures a <= c
    decreases c
  {
    if a != c {
      var i :| 0 <= i < |r.commits[c].parents| && r.Ancestor(a, r.commits[c].parents[i]);
      AncestorIsOlder(r, a, r.commits[c].parents[i]);
    }
  }

  lemma {:induction false} AncestorStable(r: Repo, r': Repo, a: nat, c: nat)
    requires r.Valid() && r'.Valid() && c < |r.commits| && r.commits <= r'.commits
    ensures r.Ancestor(a, c) <==> r'.Ancestor(a, c)
    decreases c
  {
    forall i | 0 <= i < |r.commits[c].parents|
      ensures r.Ancestor(a, r.commits[c].parents[i]) <==> r'.Ancestor(a, r'.commits[c].parents[i])
    {
      AncestorStable(r, r', a, r.commits[c].parents[i]);
    }
  }

  /** What a commit of a call adds to the commit it was built on. */
  predicate CommitOf(r: Repo, c: nat, base: nat, req: Request)
    requires r.Valid() && c < |r.commits| && base < |r.commits|
  {
    r.commits[c] == Commit(Overlay(r.commits[base].tree, req), [base])
  }

  /** History is one chain, and a call's commit is its edit on top of the commit before it. */
  ghost predicate Chained(r: Repo) {
    && r.Valid()
    && r.log[0].cause.Initial?
    && forall i :: 1 <= i < |r.log| ==> Linked(r, i)
  }

  ghost predicate Linked(r: Repo, i: nat)
    requires r.Valid() && 1 <= i < |r.log|
  {
    var previous, current := r.log[i - 1].head, r.log[i];
    && previous < current.head
    && r.Ancestor(previous, current.head)
    && !current.cause.Initial?
    && (current.cause.Call? ==> CommitOf(r, current.head, previous, current.cause.req))
    && (current.cause.Call? && current.cause.req.expectedHead.Some? ==>
          current.cause.req.expectedHead.value == previous)
  }

  lemma {:induction false} HeadsIncrease(r: Repo, i: nat, j: nat)
    requires Chained(r) && i <= j < |r.log|
    ensures r.log[i].head <= r.log[j].head
    decreases j
  {
    if i < j {
      HeadsIncrease(r, i, j - 1);
      assert Linked(r, j);
    }
  }

  /** The heart of the optimistic protocol: a commit built on a past head can only land while that
    * head is still current. */
  lemma OnlyFromItsBase(r: Repo, k: nat, c: nat, req: Request)
    requires Chained(r) && k < |r.log| && c < |r.commits|
    requires CommitOf(r, c, r.log[k].head, req)
    requires r.Head() != c && r.CanMove(c)
    ensures r.Head() == r.log[k].head
  {
    var base := r.log[k].head;
    assert r.commits[c].parents == [base];
    var i :| 0 <= i < |r.commits[c].parents| && r.Ancestor(r.Head(), r.commits[c].parents[i]);
    AncestorIsOlder(r, r.Head(), base);
    HeadsIncrease(r, k, |r.log| - 1);
  }

  // ----- Interleaved calls -----

  /** Where a call is: what it has read, what it has stored, or how it ended. */
  datatype Phase =
    | Started
    | Based(base: nat)
    | Committed(base: nat, commit: nat)
    | Succeeded(commit: nat)
    | NoOp(base: nat)
    | Failed(landed: bool)

  datatype CallState = CallState(req: Request, phase: Phase)

  datatype State = State(repo: Repo, calls: map<nat, CallState>)

  datatype Step =
    | Begin(id: nat, req: Request)
    | ReadHead(id: nat)
    | MakeCommit(id: nat)
    | UpdateRef(id: nat, replyLost: bool)
    | Fail(id: nat)
    | OtherPush(commits: seq<Commit>)

  predicate InPhase(s: State, id: nat, p: Phase -> bool) { id in s.calls && p(s.calls[id].phase) }

  function WithPhase(s: State, id: nat, phase: Phase): State
    requires id in s.calls
  {
    s.(calls := s.calls[id := s.calls[id].(phase := phase)])
  }

  /** A push by somebody else: fresh commits whose last one descends from the current head. */
  predicate ValidPush(r: Repo, commits: seq<Commit>) {
    && commits != []
    && r.Valid()
    && var r' := r.(commits := r.commits + commits);
       r'.Valid() && r'.CanMove(|r'.commits| - 1)
  }

  predicate Enabled(s: State, step: Step) {
    s.repo.Valid() &&
    match step
    case Begin(id, _) => id !in s.calls
    case ReadHead(id) => InPhase(s, id, (p: Phase) => p.Started?)
    case MakeCommit(id) => InPhase(s, id, (p: Phase) => p.Based? && p.base < |s.repo.commits|)
    case UpdateRef(id, _) => InPhase(s, id, (p: Phase) => p.Committed? && p.commit < |s.repo.commits|)
    case Fail(id) => InPhase(s, id, (p: Phase) => p.Started? || p.Based? || p.Committed?)
    case OtherPush(commits) => ValidPush(s.repo, commits)
  }

  /** One step of the source, per call and per server request. */
  function Next(s: State, step: Step): State
    requires Enabled(s, step)
  {
    match step
    case Begin(id, req) => s.(calls := s.calls[id := CallState(req, Started)])
    case ReadHead(id) =>
      var expected := s.calls[id].req.expectedHead;
      if expected.Some? && expected.value != s.repo.Head() then WithPhase(s, id, Failed(false))
      else WithPhase(s, id, Based(s.repo.Head()))
    case MakeCommit(id) =>
      var req, base := s.calls[id].req, s.calls[id].phase.base;
      var tree := s.repo.commits[base].tree;
      if Nothing(tree, req) then WithPhase(s, id, Failed(false))
      else if Overlay(tree, req) == tree then WithPhase(s, id, NoOp(base))
      else
        WithPhase(s.(repo := s.repo.Store(Commit(Overlay(tree, req), [base]))), id, Committed(base, |s.repo.commits|))
    case UpdateRef(id, replyLost) =>
      var c := s.calls[id].phase.commit;
      var moved := s.repo.CanMove(c);
      var s' := s.(repo := s.repo.MoveHead(c, Call(id, s.calls[id].req)));
      WithPhase(s', id, if moved && !replyLost then Succeeded(c) else Failed(moved))
    case Fail(id) => WithPhase(s, id, Failed(false))
    case OtherPush(commits) =>
      var r := s.repo.(commits := s.repo.commits + commits);
      s.(repo := r.MoveHead(|r.commits| - 1, Push))
  }

  /** What holds of one call at its current phase. */
  ghost predicate CallInv(s: State, id: nat)
    requires s.repo.Valid() && id in s.calls
  {
    var call := s.calls[id];
    match call.phase
    case Started => !HasLanded(s.repo, id)
    case Based(base) => !HasLanded(s.repo, id) && WasHead(s.repo, base, call.req)
    case Committed(base, c) =>
      && !HasLanded(s.repo, id)
      && WasHead(s.repo, base, call.req)
      && base < c < |s.repo.commits|
      && CommitOf(s.repo, c, base, call.req)
      && forall i :: 0 <= i < |s.repo.log| ==> s.repo.log[i].head != c
    case Succeeded(c) => exists i :: 1 <= i < |s.repo.log| && s.repo.log[i] == Update(c, Call(id, call.req))
    case NoOp(base) =>
      && !HasLanded(s.repo, id)
      && WasHead(s.repo, base, call.req)
      && Overlay(s.repo.commits[base].tree, call.req) == s.repo.commits[base].tree
    case Failed(landed) => HasLanded(s.repo, id) <==> landed
  }

  ghost predicate LandedAt(r: Repo, id: nat, i: int) {
    0 <= i < |r.log| && r.log[i].cause.Call? && r.log[i].cause.id == id
  }

  ghost predicate HasLanded(r: Repo, id: nat) { exists i :: LandedAt(r, id, i) }

  ghost predicate WasHead(r: Repo, base: nat, req: Request)
    requires r.Valid()
  {
    && (exists k :: 0 <= k < |r.log| && r.log[k].head == base)
    && (req.expectedHead.Some? ==> req.expectedHead.value == base)
  }

  ghost predicate Inv(s: State) {
    && Chained(s.repo)
    && (forall id | id in s.calls :: CallInv(s, id))
    && (forall id, i | LandedAt(s.repo, id, i) :: id in s.calls && s.repo.log[i].cause.req == s.calls[id].req)
    && (forall id, i, j | LandedAt(s.repo, id, i) && LandedAt(s.repo, id, j) :: i == j)
    && (forall a, b | a in s.calls && b in s.calls && s.calls[a].phase.Committed? && s.calls[b].phase.Committed?
                      && s.calls[a].phase.commit == s.calls[b].phase.commit :: a == b)
  }

  /** Storing commits and prolonging the log disturbs nothing recorded before. */
  ghost predicate Extends(r: Repo, r': Repo) {
    r.Valid() && r'.Valid() && r.commits <= r'.commits && r.log <= r'.log
  }

  lemma LinkedStable(r: Repo, r': Repo, i: nat)
    requires Extends(r, r') && 1 <= i < |r.log| && Linked(r, i)
    ensures Linked(r', i)
  {
    AncestorStable(r, r', r.log[i - 1].head, r.log[i].head);
  }

  lemma ChainedLonger(r: Repo, r': Repo)
    requires Chained(r) && Extends(r, r')
    requires r'.log == r.log || (|r'.log| == |r.log| + 1 && Linked(r', |r.log|))
    ensures Chained(r')
  {
    forall i | 1 <= i < |r'.log| ensures Linked(r', i) {
      if i < |r.log| {
        LinkedStable(r, r', i);
      }
    }
  }

  /** A step of somebody else keeps what is known of a call. */
  lemma CallStable(s: State, s': State, id: nat)
    requires Extends(s.repo, s'.repo) && id in s.calls && id in s'.calls && s'.calls[id] == s.calls[id]
    requires CallInv(s, id)
    requires s'.repo.log == s.repo.log || |s'.repo.log| == |s.repo.log| + 1
    requires |s'.repo.log| > |s.repo.log| ==>
      var u := s'.repo.log[|s.repo.log|];
      && (u.cause.Call? ==> u.cause.id != id)
      && (s.calls[id].phase.Committed? ==> u.head != s.calls[id].phase.commit)
    ensures CallInv(s', id)
  {
    assert forall i :: LandedAt(s'.repo, id, i) <==> LandedAt(s.repo, id, i);
    assert HasLanded(s'.repo, id) <==> HasLanded(s.repo, id) by {
      if HasLanded(s.repo, id) { var i :| LandedAt(s.repo, id, i); assert LandedAt(s'.repo, id, i); }
      if HasLanded(s'.repo, id) { var i :| LandedAt(s'.repo, id, i); assert LandedAt(s.repo, id, i); }
    }
    var call := s.calls[id];
    if call.phase.Based? || call.phase.Committed? || call.phase.NoOp? {
      var k :| 0 <= k < |s.repo.log| && s.repo.log[k].head == call.phase.base;
      assert s'.repo.log[k].head == call.phase.base;
    }
    if call.phase.Succeeded? {
      var i :| 1 <= i < |s.repo.log| && s.repo.log[i] == Update(call.phase.commit, Call(id, call.req));
      assert s'.repo.log[i] == s.repo.log[i];
    }
  }

  lemma LocalStepKeeps(s: State, id: nat, phase: Phase)
    requires Inv(s) && id in s.calls && !phase.Committed?
    requires CallInv(WithPhase(s, id, phase), id)
    ensures Inv(WithPhase(s, id, phase))
  {
    var s' := WithPhase(s, id, phase);
    forall other | other in s'.calls ensures CallInv(s', other) {
      if other != id {
        CallStable(s, s', other);
      }
    }
  }

  lemma BeginKeeps(s: State, id: nat, req: Request)
    requires Inv(s) && Enabled(s, Begin(id, req))
    ensures Inv(Next(s, Begin(id, req)))
  {
    var s' := Next(s, Begin(id, req));
    assert !HasLanded(s'.repo, id);
    forall other | other in s'.calls ensures CallInv(s', other) {
      if other != id {
        CallStable(s, s', other);
      }
    }
  }

  lemma ReadHeadKeeps(s: State, id: nat)
    requires Inv(s) && Enabled(s, ReadHead(id))
    ensures Inv(Next(s, ReadHead(id)))
  {
    assert CallInv(s, id);
    var s' := Next(s, ReadHead(id));
    assert s'.repo.log[|s.repo.log| - 1].head == s.repo.Head();
    LocalStepKeeps(s, id, s'.calls[id].phase);
  }

  lemma MakeCommitKeeps(s: State, id: nat)
    requires Inv(s) && Enabled(s, MakeCommit(id))
    ensures Inv(Next(s, MakeCommit(id)))
  {
    assert CallInv(s, id);
    var s' := Next(s, MakeCommit(id));
    if s'.calls[id].phase.Committed? {
      NewCommitKeeps(s, id);
    } else {
      LocalStepKeeps(s, id, s'.calls[id].phase);
    }
  }

  lemma NewCommitKeeps(s: State, id: nat)
    requires Inv(s) && Enabled(s, MakeCommit(id)) && CallInv(s, id)
    requires Next(s, MakeCommit(id)).calls[id].phase.Committed?
    ensures Inv(Next(s, MakeCommit(id)))
  {
    var s' := Next(s, MakeCommit(id));
    var base, c := s.calls[id].phase.base, |s.repo.commits|;
    hide Overlay, Nothing;
    assert s'.calls[id] == CallState(s.calls[id].req, Committed(base, c));
    var k :| 0 <= k < |s.repo.log| && s.repo.log[k].head == base;
    assert s'.repo.log[k].head == base;
    assert CommitOf(s'.repo, c, base, s.calls[id].req);
    ChainedLonger(s.repo, s'.repo);
    assert forall i :: LandedAt(s'.repo, id, i) <==> LandedAt(s.repo, id, i);
    assert CallInv(s', id);
    forall other | other in s'.calls ensures CallInv(s', other) {
      if other != id {
        CallStable(s, s', other);
      }
    }
    forall other | other in s'.calls && other != id && s'.calls[other].phase.Committed?
      ensures s'.calls[other].phase.commit != c
    {
      assert CallInv(s, other);
    }
    assert forall a, i :: LandedAt(s'.repo, a, i) <==> LandedAt(s.repo, a, i);
  }

  lemma RefMoved(s: State, id: nat, replyLost: bool)
    requires Inv(s) && Enabled(s, UpdateRef(id, replyLost)) && s.repo.CanMove(s.calls[id].phase.commit)
    ensures var r, r' := s.repo, Next(s, UpdateRef(id, replyLost)).repo;
      && Chained(r') && Extends(r, r') && !HasLanded(r, id)
      && r'.log == r.log + [Update(s.calls[id].phase.commit, Call(id, s.calls[id].req))]
  {
    hide Overlay, Nothing;
    assert CallInv(s, id);
    var r, r' := s.repo, Next(s, UpdateRef(id, replyLost)).repo;
    var c, base, req := s.calls[id].phase.commit, s.calls[id].phase.base, s.calls[id].req;
    var k :| 0 <= k < |r.log| && r.log[k].head == base;
    assert r.log[|r.log| - 1].head != c;
    OnlyFromItsBase(r, k, c, req);
    assert r'.log[|r.log|] == Update(c, Call(id, req));
    AncestorStable(r, r', base, c);
    assert Linked(r', |r.log|);
    ChainedLonger(r, r');
  }

  lemma OneLanding(r: Repo, r': Repo, c: nat, id: nat, req: Request, a: nat, i: nat)
    ensures r'.log == r.log + [Update(c, Call(id, req))] ==>
      (LandedAt(r', a, i) <==> LandedAt(r, a, i) || (i == |r.log| && a == id))
  {
  }

  lemma UpdateRefKeeps(s: State, id: nat, replyLost: bool)
    requires Inv(s) && Enabled(s, UpdateRef(id, replyLost))
    ensures Inv(Next(s, UpdateRef(id, replyLost)))
  {
    hide Overlay, Nothing;
    assert CallInv(s, id);
    var s' := Next(s, UpdateRef(id, replyLost));
    var c, req := s.calls[id].phase.commit, s.calls[id].req;
    if s.repo.CanMove(c) {
      RefMoved(s, id, replyLost);
      var n := |s.repo.log|;
      forall a: nat, i: nat ensures LandedAt(s'.repo, a, i) <==> LandedAt(s.repo, a, i) || (i == n && a == id) {
        OneLanding(s.repo, s'.repo, c, id, req, a, i);
      }
      assert LandedAt(s'.repo, id, n);
      hide LandedAt, Linked, Chained;
      forall other | other in s'.calls ensures CallInv(s', other) {
        if other != id {
          CallStable(s, s', other);
        }
      }
    } else {
      LocalStepKeeps(s, id, s'.calls[id].phase);
    }
  }

  lemma OtherPushKeeps(s: State, commits: seq<Commit>)
    requires Inv(s) && Enabled(s, OtherPush(commits))
    ensures Inv(Next(s, OtherPush(commits)))
  {
    var s' := Next(s, OtherPush(commits));
    var n := |s.repo.log|;
    assert s'.repo.log[n].head >= |s.repo.commits|;
    var r := s.repo.(commits := s.repo.commits + commits);
    AncestorStable(r, s'.repo, s.repo.Head(), |r.commits| - 1);
    assert Linked(s'.repo, n);
    ChainedLonger(s.repo, s'.repo);
    assert forall a, i :: LandedAt(s'.repo, a, i) <==> LandedAt(s.repo, a, i);
    forall other | other in s'.calls ensures CallInv(s', other) {
      assert CallInv(s, other);
      CallStable(s, s', other);
    }
  }

  lemma StepKeeps(s: State, step: Step)
    requires Inv(s) && Enabled(s, step)
    ensures Inv(Next(s, step))
  {
    match step
    case Begin(id, req) => BeginKeeps(s, id, req);
    case ReadHead(id) => ReadHeadKeeps(s, id);
    case MakeCommit(id) => MakeCommitKeeps(s, id);
    case UpdateRef(id, replyLost) => UpdateRefKeeps(s, id, replyLost);
    case Fail(id) =>
      assert CallInv(s, id);
      LocalStepKeeps(s, id, Failed(false));
    case OtherPush(commits) => OtherPushKeeps(s, commits);
  }

  // ----- Whole runs -----

  predicate Initially(s: State) {
    s.repo.Valid() && |s.repo.log| == 1 && s.repo.log[0].cause.Initial? && s.calls == map[]
  }

  ghost predicate Runs(s: State, steps: seq<Step>, t: State)
    decreases |steps|
  {
    if steps == [] then s == t
    else Enabled(s, steps[0]) && Runs(Next(s, steps[0]), steps[1..], t)
  }

  lemma {:induction false} RunKeeps(s: State, steps: seq<Step>, t: State)
    requires Inv(s) && Runs(s, steps, t)
    ensures Inv(t)
    decreases |steps|
  {
    if steps != [] {
      StepKeeps(s, steps[0]);
      RunKeeps(Next(s, steps[0]), steps[1..], t);
    }
  }

  lemma ReachableInv(s: State, steps: seq<Step>, t: State)
    requires Initially(s) && Runs(s, steps, t)
    ensures Inv(t)
  {
    RunKeeps(s, steps, t);
  }

  /** Update i is the only one of call id: commit, made on the head just before it, with the edit req. */
  ghost predicate OnlyLanding(r: Repo, i: int, id: nat, commit: nat, req: Request) {
    && r.Valid()
    && 1 <= i < |r.log|
    && r.log[i].head == commit
    && r.commits[commit].parents == [r.log[i - 1].head]
    && r.TreeAt(i) == Overlay(r.TreeAt(i - 1), req)
    && forall j :: LandedAt(r, id, j) <==> j == i
  }

  /** A call reported successful landed once, on the commit that was the head just before, with
    * exactly its own edit. */
  lemma SuccessLanded(s: State, steps: seq<Step>, t: State, id: nat)
    requires Initially(s) && Runs(s, steps, t)
    requires id in t.calls && t.calls[id].phase.Succeeded?
    ensures exists i :: OnlyLanding(t.repo, i, id, t.calls[id].phase.commit, t.calls[id].req)
  {
    ReachableInv(s, steps, t);
    assert CallInv(t, id);
    var call := t.calls[id];
    var i :| 1 <= i < |t.repo.log| && t.repo.log[i] == Update(call.phase.commit, Call(id, call.req));
    assert LandedAt(t.repo, id, i);
    assert Linked(t.repo, i);
    assert OnlyLanding(t.repo, i, id, call.phase.commit, call.req);
  }

  /** The edit would not have changed the tree of head k. */
  ghost predicate UnchangedBy(r: Repo, k: int, base: nat, req: Request) {
    r.Valid() && 0 <= k < |r.log| && r.log[k].head == base && Overlay(r.TreeAt(k), req) == r.TreeAt(k)
  }

  /** A call that failed outright or found nothing to change never moved the branch; a no-op reports
    * a head whose tree its edit would not change. */
  lemma OthersLeaveNoTrace(s: State, steps: seq<Step>, t: State, id: nat)
    requires Initially(s) && Runs(s, steps, t)
    requires id in t.calls && (t.calls[id].phase.NoOp? || t.calls[id].phase == Failed(false))
    ensures !HasLanded(t.repo, id)
    ensures t.calls[id].phase.NoOp? ==> exists k :: UnchangedBy(t.repo, k, t.calls[id].phase.base, t.calls[id].req)
  {
    ReachableInv(s, steps, t);
    assert CallInv(t, id);
    if t.calls[id].phase.NoOp? {
      var k :| 0 <= k < |t.repo.log| && t.repo.log[k].head == t.calls[id].phase.base;
      assert UnchangedBy(t.repo, k, t.calls[id].phase.base, t.calls[id].req);
    }
  }

  /** The tree obtained by replaying the landed edits in ref-update order. */
  function Replay(r: Repo, n: nat): Tree
    requires r.Valid() && n < |r.log|
  {
    if n > 0 && r.log[n].cause.Call? then Overlay(Replay(r, n - 1), r.log[n].cause.req) else r.TreeAt(n)
  }

  lemma {:induction false} HeadIsReplay(r: Repo, n: nat)
    requires Chained(r) && n < |r.log|
    ensures r.TreeAt(n) == Replay(r, n)
  {
    if n > 0 && r.log[n].cause.Call? {
      assert Linked(r, n);
      HeadIsReplay(r, n - 1);
    }
  }

  predicate Touches(tree: Tree, req: Request, path: Path) { path in req.files || path in Removed(tree, req) }

  /** Update j does not touch a path: no call's edit does, and a push has it as it was before. */
  ghost predicate LeavesAlone(r: Repo, j: nat, path: Path)
    requires r.Valid() && 1 <= j < |r.log|
  {
    var before, after := r.TreeAt(j - 1), r.TreeAt(j);
    if r.log[j].cause.Call? then !Touches(before, r.log[j].cause.req, path)
    else path in before ==> path in after && after[path] == before[path]
  }

  /** No landed write is lost: what a call wrote stays until a later update touches the path. */
  lemma {:induction false} WriteSurvives(r: Repo, i: nat, n: nat, path: Path)
    requires Chained(r) && 1 <= i <= n < |r.log|
    requires r.log[i].cause.Call? && path in r.log[i].cause.req.files
    requires forall j | i < j <= n :: LeavesAlone(r, j, path)
    ensures path in r.TreeAt(n) && r.TreeAt(n)[path] == NewFile(r.log[i].cause.req.files[path])
    decreases n
  {
    assert Linked(r, n);
    if i < n {
      WriteSurvives(r, i, n - 1, path);
      assert LeavesAlone(r, n, path);
    }
  }

  // ----- One call against a changing branch -----

  datatype CommitError = SourceChanged | NothingToCommit | Conflict | Unavailable

  /** The hosted repository: requests of one call read and change it, and so do pushes in between. */
  class Remote {
    var repo: Repo

    constructor (initial: Repo)
      ensures repo == initial
    {
      repo := initial;
    }

    /** Other people's pushes; a push that is not a fast-forward is refused. */
    method Race(pushes: seq<seq<Commit>>)
      requires Chained(repo)
      modifies this
      ensures Chained(repo) && Extends(old(repo), repo)
      ensures forall i :: |old(repo.log)| <= i < |repo.log| ==> repo.log[i].cause.Push?
      ensures forall i :: |old(repo.log)| <= i < |repo.log| ==> repo.log[i].head >= |old(repo.commits)|
      ensures pushes == [] ==> repo == old(repo)
    {
      for n := 0 to |pushes|
        invariant Chained(repo) && Extends(old(repo), repo)
        invariant forall i :: |old(repo.log)| <= i < |repo.log| ==> repo.log[i].cause.Push?
        invariant forall i :: |old(repo.log)| <= i < |repo.log| ==> repo.log[i].head >= |old(repo.commits)|
        invariant n == 0 ==> repo == old(repo)
      {
        if ValidPush(repo, pushes[n]) {
          var stored := repo.(commits := repo.commits + pushes[n]);
          ghost var before := repo;
          repo := stored.MoveHead(|stored.commits| - 1, Push);
          PushChains(before, pushes[n]);
        }
      }
    }
  }

  lemma PushChains(r: Repo, commits: seq<Commit>)
    requires Chained(r) && ValidPush(r, commits)
    ensures var stored := r.(commits := r.commits + commits);
            var r' := stored.MoveHead(|stored.commits| - 1, Push);
            Chained(r') && Extends(r, r') && |r'.log| == |r.log| + 1
  {
    var stored := r.(commits := r.commits + commits);
    var r' := stored.MoveHead(|stored.commits| - 1, Push);
    AncestorStable(stored, r', r.Head(), |stored.commits| - 1);
    assert Linked(r', |r.log|);
    ChainedLonger(r, r');
  }

  lemma OwnCommitChains(r: Repo, k: nat, c: nat, id: nat, req: Request)
    requires Chained(r) && k < |r.log| && c < |r.commits|
    requires CommitOf(r, c, r.log[k].head, req) && r.log[k].head < c && r.Head() != c && r.CanMove(c)
    requires req.expectedHead.Some? ==> req.expectedHead.value == r.log[k].head
    ensures Chained(r.MoveHead(c, Call(id, req)))
    ensures r.Head() == r.log[k].head
  {
    OnlyFromItsBase(r, k, c, req);
    var r' := r.MoveHead(c, Call(id, req));
    AncestorStable(r, r', r.Head(), c);
    assert Linked(r', |r.log|);
    ChainedLonger(r, r');
  }

  lemma BaseMoves(r: Repo, c: nat, base: nat)
    requires r.Valid() && c < |r.commits| && r.commits[c].parents == [base]
    ensures r.Head() == base ==> r.CanMove(c)
  {
    assert r.Ancestor(base, r.commits[c].parents[0]);
  }

  /** The whole call. Request number i fails when down(i), the last one, which moves the branch, before or,
    * by down(7), after it has taken effect; the two races happen between reading the head and storing the
    * commit, and between storing it and moving the branch. Only a call that says it could not reach the
    * repository may have landed. A call nobody disturbs succeeds exactly when there is something to do. */
  method CommitFilesAtomic(remote: Remote, id: nat, req: Request, down: nat -> bool,
                           race1: seq<seq<Commit>>, race2: seq<seq<Commit>>)
    returns (r: Result<nat, CommitError>)
    requires Chained(remote.repo)
    modifies remote
    ensures Chained(remote.repo) && Extends(old(remote.repo), remote.repo)
    ensures r.Ok? ==> LandedNow(old(remote.repo), remote.repo, r.value, id, req)
                      || Unneeded(old(remote.repo), remote.repo, r.value, req)
    ensures r.Err? ==> OnlyPushed(old(remote.repo), remote.repo)
                       || (r.error.Unavailable?
                           && LandedNow(old(remote.repo), remote.repo, remote.repo.Head(), id, req))
    ensures r.Ok? && Overlay(old(HeadTree(remote.repo)), req) == old(HeadTree(remote.repo)) ==>
      Unneeded(old(remote.repo), remote.repo, r.value, req)
    ensures r == Err(SourceChanged) <==>
      !down(0) && req.expectedHead.Some? && req.expectedHead.value != old(remote.repo.Head())
    ensures r == Err(NothingToCommit) ==>
      forall path :: path !in req.files && !Deleting(old(HeadTree(remote.repo)), req, path)
    ensures r == Err(Conflict) ==> remote.repo.Head() != old(remote.repo.Head())
    ensures r == Err(Unavailable) ==> exists i | 0 <= i < 8 :: down(i)
    ensures (forall i | 0 <= i < 8 :: !down(i)) && race1 == [] && race2 == [] && r != Err(SourceChanged) ==>
      (r.Ok? <==> exists path :: path in req.files || Deleting(old(HeadTree(remote.repo)), req, path))
  {
    hide DeletesThenWrites, Overlay, Deleting;
    NothingIff(HeadTree(remote.repo), req);
    if down(0) { return Err(Unavailable); }
    var base := remote.repo.Head();
    ghost var k := |remote.repo.log| - 1;
    if req.expectedHead.Some? && req.expectedHead.value != base {
      return Err(SourceChanged);
    }
    remote.Race(race1);
    if down(1) || (req.replaceDir != "" && down(2)) || (req.files != map[] && down(3)) {
      return Err(Unavailable);
    }
    var tree := remote.repo.commits[base].tree;
    var edits := BuildEdits(tree, req);
    if edits == [] {
      return Err(NothingToCommit);
    }
    if down(4) { return Err(Unavailable); }
    var newTree := ApplyEdits(tree, edits);
    if newTree == tree {
      return Ok(base);
    }
    r := StoreAndMove(remote, k, base, newTree, id, req, down, race2);
  }

  function HeadTree(r: Repo): Tree
    requires r.Valid()
  {
    r.commits[r.Head()].tree
  }

  /** The second half of the call: store the commit, then move the branch to it. */
  method StoreAndMove(remote: Remote, ghost k: nat, base: nat, newTree: Tree, id: nat, req: Request,
                      down: nat -> bool, race: seq<seq<Commit>>)
    returns (r: Result<nat, CommitError>)
    requires Chained(remote.repo) && k < |remote.repo.log| && remote.repo.log[k].head == base
    requires newTree == Overlay(remote.repo.commits[base].tree, req)
    requires req.expectedHead.Some? ==> req.expectedHead.value == base
    modifies remote
    ensures Chained(remote.repo) && Extends(old(remote.repo), remote.repo)
    ensures r.Ok? ==> LandedNow(old(remote.repo), remote.repo, r.value, id, req)
    ensures r.Err? ==> r.error.Conflict? || r.error.Unavailable?
    ensures r == Err(Conflict) ==> remote.repo.Head() != base
    ensures r == Err(Unavailable) ==> down(5) || down(6) || down(7)
    ensures !down(5) && !down(6) && !down(7) && race == [] && old(remote.repo.Head()) == base ==> r.Ok?
    ensures r.Err? ==> OnlyPushed(old(remote.repo), remote.repo)
                       || (r.error.Unavailable?
                           && LandedNow(old(remote.repo), remote.repo, remote.repo.Head(), id, req))
  {
    hide Overlay;
    if down(5) { return Err(Unavailable); }
    var commit := |remote.repo.commits|;
    ghost var stored := remote.repo;
    remote.repo := remote.repo.Store(Commit(newTree, [base]));
    ChainedLonger(stored, remote.repo);
    remote.Race(race);
    assert CommitOf(remote.repo, commit, base, req);
    if down(6) { return Err(Unavailable); }
    BaseMoves(remote.repo, commit, base);
    if !remote.repo.CanMove(commit) {
      return Err(Conflict);
    }
    assert remote.repo.Head() != commit;
    OwnCommitChains(remote.repo, k, commit, id, req);
    remote.repo := remote.repo.MoveHead(commit, Call(id, req));
    if down(7) { return Err(Unavailable); }
    return Ok(commit);
  }

  /** The call's commit is the newest head, and everything else new in the history was pushed by others. */
  ghost predicate LandedNow(before: Repo, after: Repo, commit: nat, id: nat, req: Request) {
    && Extends(before, after)
    && |after.log| > |before.log|
    && after.log[|after.log| - 1] == Update(commit, Call(id, req))
    && forall i :: |before.log| <= i < |after.log| - 1 ==> after.log[i].cause.Push?
  }

  /** Everything new in the history was pushed by others. */
  ghost predicate OnlyPushed(before: Repo, after: Repo) {
    forall i :: |before.log| <= i < |after.log| ==> after.log[i].cause.Push?
  }

  ghost predicate Unneeded(before: Repo, after: Repo, base: nat, req: Request) {
    && Extends(before, after)
    && base == before.Head()
    && (req.expectedHead.Some? ==> req.expectedHead.value == base)
    && Overlay(before.commits[base].tree, req) == before.commits[base].tree
    && OnlyPushed(before, after)
  }
}
