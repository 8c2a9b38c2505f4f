/** Reviewed source setup (apps/backend/src/deploy/source-setup.ts).
  *
  * A plan records, for each desired file, what the reviewed commit holds. Missing files are then
  * added in one commit that must sit directly on the reviewed commit; existing files are never
  * overwritten, whoever pushes between the review and the commit. A digest stands for the plan
  * it was computed from.
  */
module SourceSetup {
  import opened Common
  import opened GitRepo

  const MAX_SIZE := 200_000
  const CONSENT := "source-setup-v1"

  datatype Action = Create | Keep | Review
  datatype FilePlan = FilePlan(path: Path, action: Action, before: Option<Content>, after: Content)
  datatype Plan = Plan(branch: string, sha: nat, files: seq<FilePlan>)
  datatype Error = NotMain | Unreadable | NotReviewed | NeedsReview | CommitFailed(error: CommitError)

  /** Windows line ends read as plain ones. */
  function Lf(text: Content): Content {
    if |text| < 2 then text
    else if text[0] == '\r' && text[1] == '\n' then "\n" + Lf(text[2..])
    else [text[0]] + Lf(text[1..])
  }

  function JoinBy(pieces: seq<Content>, end: Content): Content
    requires pieces != []
  {
    if |pieces| == 1 then pieces[0] else pieces[0] + (end + JoinBy(pieces[1..], end))
  }

  predicate NoWindowsEnd(text: Content) { forall i :: 0 <= i < |text| - 1 ==> text[i] != '\r' || text[i + 1] != '\n' }

  /** Every text is made of pieces that hold no Windows line end, with one between each two. */
  lemma {:induction false} Pieces(text: Content) returns (pieces: seq<Content>)
    ensures pieces != [] && JoinBy(pieces, "\r\n") == text
    ensures forall p | p in pieces :: NoWindowsEnd(p)
    ensures text != [] && pieces[0] != [] ==> pieces[0][0] == text[0]
  {
    if |text| < 2 {
      pieces := [text];
    } else if text[0] == '\r' && text[1] == '\n' {
      var rest := Pieces(text[2..]);
      pieces := [[]] + rest;
      assert pieces[1..] == rest;
      assert text == [] + ("\r\n" + text[2..]);
    } else {
      var rest := Pieces(text[1..]);
      pieces := [[text[0]] + rest[0]] + rest[1..];
      assert pieces[1..] == rest[1..];
      assert text == [text[0]] + text[1..];
      forall p | p in pieces ensures NoWindowsEnd(p) {
        if p == pieces[0] && rest[0] != [] {
          assert rest[0] in rest && rest[0][0] == text[1];
        }
      }
    }
  }

  /** Exactly the Windows line ends are replaced. */
  lemma {:induction false} LfReplaces(pieces: seq<Content>)
    requires pieces != [] && forall p | p in pieces :: NoWindowsEnd(p)
    ensures Lf(JoinBy(pieces, "\r\n")) == JoinBy(pieces, "\n")
  {
    if |pieces| == 1 {
      LfStays(pieces[0]);
    } else {
      LfReplaces(pieces[1..]);
      LfPiece(pieces[0], JoinBy(pieces[1..], "\r\n"));
    }
  }

  lemma {:induction false} LfStays(text: Content)
    requires NoWindowsEnd(text)
    ensures Lf(text) == text
  {
    if |text| >= 2 {
      LfStays(text[1..]);
    }
  }

  lemma LfCons(c: char, text: Content)
    requires text != [] ==> c != '\r' || text[0] != '\n'
    ensures Lf([c] + text) == [c] + Lf(text)
  {
    assert ([c] + text)[1..] == text;
  }

  lemma LfEnd(rest: Content)
    ensures Lf("\r\n" + rest) == "\n" + Lf(rest)
  {
    assert ("\r\n" + rest)[2..] == rest;
  }

  lemma {:induction false} LfPiece(piece: Content, rest: Content)
    requires NoWindowsEnd(piece)
    ensures Lf(piece + ("\r\n" + rest)) == piece + ("\n" + Lf(rest))
  {
    hide Lf;
    if piece == [] {
      LfEnd(rest);
      assert piece + ("\r\n" + rest) == "\r\n" + rest;
    } else {
      var tail := piece[1..] + ("\r\n" + rest);
      LfPiece(piece[1..], rest);
      LfCons(piece[0], tail);
      assert piece + ("\r\n" + rest) == [piece[0]] + tail;
      assert piece + ("\n" + Lf(rest)) == [piece[0]] + (piece[1..] + ("\n" + Lf(rest)));
    }
  }

  predicate Readable(entry: Entry) {
    entry.kind.Blob? && entry.mode in {"100644", "100755"} && |entry.content| <= MAX_SIZE
  }

  function ActionFor(before: Option<Content>, after: Content): Action {
    if before.None? then Create else if Lf(before.value) == Lf(after) then Keep else Review
  }

  function PlanFile(tree: Tree, path: Path, after: Content): FilePlan {
    var before := if path in tree then Some(tree[path].content) else None;
    FilePlan(path, ActionFor(before, after), before, after)
  }

  /** A file that is not there is to be created; one that holds the wanted text, up to Windows line ends, is kept; and
    * any other one is for the owner to review. */
  lemma ActionIs(tree: Tree, path: Path, after: Content)
    ensures var file := PlanFile(tree, path, after);
      && file.path == path && file.after == after
      && (file.before.Some? <==> path in tree) && (path in tree ==> file.before.value == tree[path].content)
      && match file.action
         case Create => path !in tree
         case Keep => path in tree && Lf(tree[path].content) == Lf(after)
         case Review => path in tree && Lf(tree[path].content) != Lf(after)
  {
  }

  predicate Distinct(desired: seq<(Path, Content)>) {
    forall i, j :: 0 <= i < j < |desired| ==> desired[i].0 != desired[j].0
  }

  /** What a plan says about the commit it names. */
  ghost predicate PlanOf(r: Repo, plan: Plan, desired: seq<(Path, Content)>) {
    && r.Valid()
    && plan.sha < |r.commits|
    && Distinct(desired)
    && |plan.files| == |desired|
    && forall i :: 0 <= i < |desired| ==>
         plan.files[i] == PlanFile(r.commits[plan.sha].tree, desired[i].0, desired[i].1)
  }

  /** A plan stays true however the branch moves, since commits never change. */
  lemma PlanStable(r: Repo, r': Repo, plan: Plan, desired: seq<(Path, Content)>)
    requires PlanOf(r, plan, desired) && Extends(r, r')
    ensures PlanOf(r', plan, desired)
  {
    assert r'.commits[plan.sha] == r.commits[plan.sha];
  }

  /** A path is in the way when it holds something other than a readable text file, or is a directory. */
  predicate Blocked(tree: Tree, path: Path) {
    (path in tree && !Readable(tree[path])) || exists p | p in tree :: UnderDirectory(p, path)
  }

  ghost predicate HoldsUnreadable(tree: Tree, desired: seq<(Path, Content)>) {
    exists d | d in desired :: Blocked(tree, d.0)
  }

  /** The plan, unless the branch is not supported, the listing is not complete, or a path is in the way. */
  method Inspect(remote: Remote, defaultBranch: string, truncated: bool, desired: seq<(Path, Content)>)
    returns (r: Result<Plan, Error>)
    requires Chained(remote.repo) && Distinct(desired)
    ensures r.Ok? ==> PlanOf(remote.repo, r.value, desired)
                      && r.value.sha == remote.repo.Head() && r.value.branch == "main"
    ensures r.Err? <==>
      defaultBranch != "main" || truncated || HoldsUnreadable(remote.repo.commits[remote.repo.Head()].tree, desired)
  {
    if defaultBranch != "main" {
      return Err(NotMain);
    }
    if truncated {
      return Err(Unreadable);
    }
    var sha := remote.repo.Head();
    var tree := remote.repo.commits[sha].tree;
    var files := [];
    for i := 0 to |desired|
      invariant |files| == i
      invariant forall k :: 0 <= k < i ==> files[k] == PlanFile(tree, desired[k].0, desired[k].1)
      invariant forall k :: 0 <= k < i ==> !Blocked(tree, desired[k].0)
    {
      var (path, after) := desired[i];
      var before := None;
      if Blocked(tree, path) {
        assert desired[i] in desired;
        return Err(Unreadable);
      }
      if path in tree {
        before := Some(tree[path].content);
      }
      files := files + [FilePlan(path, ActionFor(before, after), before, after)];
    }
    return Ok(Plan("main", sha, files));
  }

  /** The caller must have consented to exactly the plan that is about to be carried out. */
  predicate Reviewed(plan: Plan, reviewed: Option<Plan>, consent: string) {
    consent == CONSENT && reviewed == Some(plan)
  }

  function Missing(plan: Plan): map<Path, Content> {
    MissingUpTo(plan.files)
  }

  function MissingUpTo(files: seq<FilePlan>): map<Path, Content> {
    if files == [] then map[]
    else
      var rest, file := MissingUpTo(files[..|files| - 1]), files[|files| - 1];
      if file.action.Create? then rest[file.path := file.after] else rest
  }

  predicate Creates(file: FilePlan, path: Path) { file.path == path && file.action.Create? }

  lemma {:induction false} MissingFiles(files: seq<FilePlan>)
    requires forall i, j :: 0 <= i < j < |files| ==> files[i].path != files[j].path
    ensures forall p :: p in MissingUpTo(files) <==> exists i :: 0 <= i < |files| && Creates(files[i], p)
    ensures forall i :: 0 <= i < |files| && Creates(files[i], files[i].path) ==>
      MissingUpTo(files)[files[i].path] == files[i].after
  {
    if files != [] {
      MissingFiles(files[..|files| - 1]);
    }
  }

  /** The new tree is the reviewed tree with exactly the missing files added. */
  ghost predicate OnlyAdds(reviewed: Tree, after: Tree, plan: Plan) {
    && (forall p | p in reviewed :: p in after && after[p] == reviewed[p])
    && (forall p | p in after && p !in reviewed :: exists i :: 0 <= i < |plan.files| && plan.files[i].path == p)
    && (forall i :: 0 <= i < |plan.files| ==>
          plan.files[i].path in after && Lf(after[plan.files[i].path].content) == Lf(plan.files[i].after))
  }

  lemma OverlayOnlyAdds(r: Repo, plan: Plan, desired: seq<(Path, Content)>, req: Request)
    requires PlanOf(r, plan, desired)
    requires req == Request(Missing(plan), Some(plan.sha), "", [])
    requires forall i :: 0 <= i < |plan.files| ==> !plan.files[i].action.Review?
    ensures OnlyAdds(r.commits[plan.sha].tree, Overlay(r.commits[plan.sha].tree, req), plan)
    ensures Missing(plan) != map[] ==> Overlay(r.commits[plan.sha].tree, req) != r.commits[plan.sha].tree
  {
    var tree, files := r.commits[plan.sha].tree, Missing(plan);
    var after := Overlay(tree, req);
    AddedPaths(plan, tree, desired);
    hide *;
    OverlayAdds(tree, req);
    if files != map[] {
      var p :| p in files;
      assert p in after && p !in tree;
    }
    forall p | p in after && p !in tree ensures exists i :: 0 <= i < |plan.files| && plan.files[i].path == p {
      assert p in files;
    }
    forall i | 0 <= i < |plan.files|
      ensures plan.files[i].path in after && Lf(after[plan.files[i].path].content) == Lf(plan.files[i].after)
    {
      PlannedText(r, plan, desired, i);
    }
    IsOnlyAdds(tree, after, plan);
  }

  lemma IsOnlyAdds(tree: Tree, after: Tree, plan: Plan)
    requires forall p | p in tree :: p in after && after[p] == tree[p]
    requires forall p | p in after && p !in tree :: exists i :: 0 <= i < |plan.files| && plan.files[i].path == p
    requires forall i | 0 <= i < |plan.files| ::
      plan.files[i].path in after && Lf(after[plan.files[i].path].content) == Lf(plan.files[i].after)
    ensures OnlyAdds(tree, after, plan)
  {
  }

  /** A file of the plan is to be created, or holds the wanted text already. */
  lemma PlannedText(r: Repo, plan: Plan, desired: seq<(Path, Content)>, i: nat)
    requires PlanOf(r, plan, desired) && i < |plan.files| && !plan.files[i].action.Review?
    ensures var file, tree := plan.files[i], r.commits[plan.sha].tree;
      file.action.Create? || (file.path in tree && Lf(tree[file.path].content) == Lf(file.after))
  {
    ActionIs(r.commits[plan.sha].tree, desired[i].0, desired[i].1);
    hide Lf, PlanFile;
  }

  /** Writing files and deleting none. */
  lemma OverlayAdds(tree: Tree, req: Request)
    requires req.replaceDir == "" && req.deletePaths == []
    ensures forall p :: var after := Overlay(tree, req);
      if p in req.files then p in after && after[p].content == req.files[p]
      else (p in after <==> p in tree) && (p in tree ==> after[p] == tree[p])
  {
    hide Overlay;
    forall p ensures var after := Overlay(tree, req);
      if p in req.files then p in after && after[p].content == req.files[p]
      else (p in after <==> p in tree) && (p in tree ==> after[p] == tree[p])
    {
      OverlayAt(tree, req, p);
    }
  }

  /** What is to be created is not there, and is what the plan holds. */
  lemma AddedPaths(plan: Plan, tree: Tree, desired: seq<(Path, Content)>)
    requires Distinct(desired) && |plan.files| == |desired|
    requires forall i :: 0 <= i < |desired| ==> plan.files[i] == PlanFile(tree, desired[i].0, desired[i].1)
    ensures forall p | p in Missing(plan) ::
      p !in tree && exists i :: 0 <= i < |plan.files| && plan.files[i].path == p
    ensures forall i | 0 <= i < |plan.files| && plan.files[i].action.Create? ::
      plan.files[i].path in Missing(plan) && Missing(plan)[plan.files[i].path] == plan.files[i].after
  {
    MissingFiles(plan.files);
    hide Lf, MissingUpTo;
    forall p | p in Missing(plan) ensures p !in tree {
      var i :| 0 <= i < |plan.files| && Creates(plan.files[i], p);
      assert plan.files[i] == PlanFile(tree, desired[i].0, desired[i].1);
    }
    forall i | 0 <= i < |plan.files| && plan.files[i].action.Create?
      ensures plan.files[i].path in Missing(plan) && Missing(plan)[plan.files[i].path] == plan.files[i].after
    {
      assert Creates(plan.files[i], plan.files[i].path);
    }
  }

  /** The branch head is one commit on top of the reviewed one, which was the head until then. */
  ghost predicate DirectlyOnReviewed(r: Repo, commit: nat, plan: Plan) {
    && r.Valid() && commit < |r.commits| && plan.sha < |r.commits|
    && r.Head() == commit
    && r.commits[commit].parents == [plan.sha]
    && |r.log| >= 2 && r.log[|r.log| - 2].head == plan.sha
    && OnlyAdds(r.commits[plan.sha].tree, r.commits[commit].tree, plan)
  }

  lemma LandedOnReviewed(before: Repo, after: Repo, commit: nat, id: nat, plan: Plan, desired: seq<(Path, Content)>)
    requires PlanOf(before, plan, desired) && Chained(after)
    requires forall i :: 0 <= i < |plan.files| ==> !plan.files[i].action.Review?
    requires LandedNow(before, after, commit, id, Request(Missing(plan), Some(plan.sha), "", []))
    ensures DirectlyOnReviewed(after, commit, plan)
  {
    var req := Request(Missing(plan), Some(plan.sha), "", []);
    PlanStable(before, after, plan, desired);
    OverlayOnlyAdds(after, plan, desired, req);
    hide Overlay, OnlyAdds, Missing, PlanOf;
    assert after.log[|after.log| - 1] == Update(commit, Call(id, req));
    assert Linked(after, |after.log| - 1);
  }

  /** Success means that the reviewed commit got its missing files, or had none missing. A failed call only saw
    * pushes of others; or its commit landed the same way and only the answer was lost. */
  method CreateMissing(remote: Remote, plan: Plan, ghost desired: seq<(Path, Content)>, id: nat,
                       down: nat -> bool, race1: seq<seq<Commit>>, race2: seq<seq<Commit>>)
    returns (r: Result<nat, Error>)
    requires Chained(remote.repo) && PlanOf(remote.repo, plan, desired)
    modifies remote
    ensures Chained(remote.repo) && Extends(old(remote.repo), remote.repo)
    ensures r.Ok? ==> forall i :: 0 <= i < |plan.files| ==> !plan.files[i].action.Review?
    ensures r.Ok? && Missing(plan) == map[] ==> r.value == plan.sha && remote.repo == old(remote.repo)
    ensures r.Ok? && Missing(plan) != map[] ==> DirectlyOnReviewed(remote.repo, r.value, plan)
    ensures r.Err? ==> OnlyPushed(old(remote.repo), remote.repo)
                       || (r.error == CommitFailed(Unavailable)
                           && DirectlyOnReviewed(remote.repo, remote.repo.Head(), plan))
    ensures r == Err(NeedsReview) <==> exists i | 0 <= i < |plan.files| :: plan.files[i].action == Review
    ensures r.Err? ==> r.error.NeedsReview? || r.error.CommitFailed?
    ensures r == Err(CommitFailed(SourceChanged)) ==> old(remote.repo.Head()) != plan.sha
    ensures (forall i | 0 <= i < 8 :: !down(i)) && race1 == [] && race2 == [] && old(remote.repo.Head()) == plan.sha ==>
      r.Ok? || r.error.NeedsReview?
  {
    for i := 0 to |plan.files|
      invariant forall k :: 0 <= k < i ==> !plan.files[k].action.Review?
    {
      if plan.files[i].action.Review? {
        return Err(NeedsReview);
      }
    }
    var files := Missing(plan);
    if files == map[] {
      return Ok(plan.sha);
    }
    var req := Request(files, Some(plan.sha), "", []);
    OverlayOnlyAdds(remote.repo, plan, desired, req);
    ghost var before := remote.repo;
    assert exists path :: path in req.files;
    hide Overlay, OnlyAdds, Missing, PlanOf, Chained, DirectlyOnReviewed, Deleting;
    var landed := CommitFilesAtomic(remote, id, req, down, race1, race2);
    if landed.Err? {
      if LandedNow(before, remote.repo, remote.repo.Head(), id, req) {
        LandedOnReviewed(before, remote.repo, remote.repo.Head(), id, plan, desired);
      }
      return Err(CommitFailed(landed.error));
    }
    LandedOnReviewed(before, remote.repo, landed.value, id, plan, desired);
    return Ok(landed.value);
  }
}
