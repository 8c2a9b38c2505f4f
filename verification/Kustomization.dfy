/** The kustomization file of a deploy repository: rendering it (apps/backend/src/deploy/templates.ts), and
  * adding and removing the entry of a custom domain's ingress (apps/backend/src/domain/domain.service.ts).
  */
module Kustomization {
  import opened Lines

  const FILE := "/custom-domain-ingress.yaml"
  const INDENT := "  - "

  function Path(app: string): string { app + FILE }

  function Entry(path: string): Line { Line(INDENT + path) }

  // ----- The edits, on texts -----

  function AddText(text: string, app: string): string {
    var entry := Entry(Path(app));
    if exists l | l in Split(text) :: Trim(l.text) == Trim(entry.text) then text else Append(text, entry)
  }

  /** One more line, after ending the last one if need be. */
  function Append(text: string, l: Line): string {
    (if EndsWith(text, [NL]) then text else text + [NL]) + l.text + [NL]
  }

  function RemoveText(text: string, app: string): string { Join(Kept(Split(text), app)) }

  predicate Drops(l: Line, app: string) { EndsWith(Trim(l.text), Path(app)) && StartsWith(Trim(l.text), "-") }

  function Kept(lines: seq<Line>, app: string): seq<Line> {
    if lines == [] then []
    else
      var last := lines[|lines| - 1];
      Kept(lines[..|lines| - 1], app) + if Drops(last, app) then [] else [last]
  }

  lemma {:induction false} KeptHas(lines: seq<Line>, app: string, l: Line)
    ensures l in Kept(lines, app) <==> l in lines && !Drops(l, app)
  {
    hide Drops;
    if lines != [] {
      KeptHas(lines[..|lines| - 1], app, l);
      assert lines == lines[..|lines| - 1] + [lines[|lines| - 1]];
    }
  }

  /** Some line lists this path as a resource. */
  predicate Lists(lines: seq<Line>, path: string) { exists l | l in lines :: Trim(l.text) == "- " + path }

  // ----- The edits, on lines -----

  function AddLines(lines: seq<Line>, app: string): seq<Line> {
    if Lists(lines, Path(app)) then lines else AppendLine(lines, Entry(Path(app)))
  }

  function AppendLine(lines: seq<Line>, l: Line): seq<Line> {
    (if Terminated(lines) then lines[..|lines| - 1] else lines) + [l, Line([])]
  }

  /** Nothing is trimmed from a path that ends with a visible character but the indentation. */
  lemma TrimEntry(path: string)
    requires path != [] && !IsSpace(path[|path| - 1])
    ensures Trim(Entry(path).text) == "- " + path
  {
    var s := Entry(path).text;
    assert TrimStart(s) == TrimStart(s[1..]) == TrimStart(s[1..][1..]);
    assert s[1..][1..] == "- " + path;
  }

  lemma EntryOf(app: string)
    ensures Trim(Entry(Path(app)).text) == "- " + Path(app)
    ensures Drops(Entry(Path(app)), app)
  {
    TrimEntry(Path(app));
  }

  lemma EmptyKept(app: string)
    ensures !Drops(Line([]), app)
  {
  }

  lemma ListedDrops(l: Line, app: string)
    ensures Trim(l.text) == "- " + Path(app) ==> Drops(l, app)
  {
  }

  /** The edit of the text is the edit of its lines. */
  lemma AddIs(text: string, app: string)
    requires NL !in app
    ensures Split(AddText(text, app)) == AddLines(Split(text), app)
  {
    var e := Entry(Path(app));
    EntryOf(app);
    EntryHasNoNewline(app);
    hide Trim, Split, Append, AppendLine, Entry, Path, Drops;
    if !Lists(Split(text), Path(app)) {
      AppendIs(text, e);
    }
  }

  lemma EntryHasNoNewline(app: string)
    requires NL !in app
    ensures NL !in Entry(Path(app)).text
  {
    assert NL !in FILE && NL !in INDENT;
  }

  lemma AppendIs(text: string, l: Line)
    requires NL !in l.text
    ensures Split(Append(text, l)) == AppendLine(Split(text), l)
  {
    var lines := Split(text);
    var front := if Terminated(lines) then lines[..|lines| - 1] else lines;
    var added := front + [l, Line([])];
    AppendedText(text, lines, l);
    JoinTwo(front, l);
    forall x | x in added ensures NL !in x.text {
      assert x in lines || x == l || x == Line([]);
    }
    hide *;
    SplitJoin(added);
  }

  lemma AppendedText(text: string, lines: seq<Line>, l: Line)
    requires lines == Split(text)
    ensures Append(text, l) == Join(if Terminated(lines) then lines[..|lines| - 1] else lines) + [NL] + l.text + [NL]
  {
    EndsWithNewline(text);
    JoinSplit(text);
    if Terminated(lines) {
      var front, last := lines[..|lines| - 1], lines[|lines| - 1];
      assert lines == front + [last];
      JoinSnoc(front, last);
      hide *;
      assert text == Join(front) + [NL] + [];
      assert Join(front) + [NL] + [] == Join(front) + [NL];
    }
    hide Split, Join, EndsWith;
  }

  lemma JoinTwo(front: seq<Line>, e: Line)
    requires front != []
    ensures Join(front + [e, Line([])]) == Join(front) + [NL] + e.text + [NL]
  {
    JoinSnoc(front, e);
    JoinSnoc(front + [e], Line([]));
    assert front + [e] + [Line([])] == front + [e, Line([])];
  }

  /** So is removing, unless no line is left; then the text is empty, which is one empty line. */
  lemma RemoveIs(text: string, app: string)
    requires Kept(Split(text), app) != []
    ensures Split(RemoveText(text, app)) == Kept(Split(text), app)
  {
    var kept := Kept(Split(text), app);
    forall l | l in kept ensures NL !in l.text { KeptHas(Split(text), app, l); }
    SplitJoin(kept);
  }

  lemma SplitRemoved(text: string, app: string)
    requires Terminated(Split(text))
    ensures Split(RemoveText(text, app)) == Kept(Split(text), app)
  {
    EmptyKept(app);
    var lines := Split(text);
    assert lines[|lines| - 1] == Line([]) && lines[|lines| - 1] in lines;
    KeptHas(lines, app, Line([]));
    hide *;
    RemoveIs(text, app);
  }

  // ----- What the edits mean -----

  lemma KeptSnoc(lines: seq<Line>, l: Line, app: string)
    ensures Kept(lines + [l], app) == Kept(lines, app) + if Drops(l, app) then [] else [l]
  {
    hide Drops;
    assert (lines + [l])[..|lines|] == lines;
  }

  lemma {:induction false} KeptAll(lines: seq<Line>, app: string)
    requires forall l | l in lines :: !Drops(l, app)
    ensures Kept(lines, app) == lines
  {
    hide Drops;
    if lines != [] {
      var front, last := lines[..|lines| - 1], lines[|lines| - 1];
      assert lines == front + [last] && last in lines;
      KeptAll(front, app);
    }
  }

  lemma {:induction false} KeptAtMost(lines: seq<Line>, app: string)
    ensures |Kept(lines, app)| <= |lines|
  {
    hide Drops;
    if lines != [] {
      KeptAtMost(lines[..|lines| - 1], app);
    }
  }

  lemma {:induction false} KeptFewer(lines: seq<Line>, app: string, i: nat)
    requires i < |lines| && Drops(lines[i], app)
    ensures |Kept(lines, app)| < |lines|
  {
    hide Drops;
    if i == |lines| - 1 {
      KeptAtMost(lines[..i], app);
    } else {
      KeptFewer(lines[..|lines| - 1], app, i);
    }
  }

  /** Nothing is removed just when no line is an entry. */
  lemma KeptSame(lines: seq<Line>, app: string)
    ensures Kept(lines, app) == lines <==> forall l | l in lines :: !Drops(l, app)
  {
    hide Drops, Kept;
    if forall l | l in lines :: !Drops(l, app) {
      KeptAll(lines, app);
    } else {
      var l :| l in lines && Drops(l, app);
      var i :| 0 <= i < |lines| && lines[i] == l;
      KeptFewer(lines, app, i);
    }
  }

  /** Adding lists the entry, and adding again changes nothing. */
  lemma AddLists(text: string, app: string)
    requires NL !in app
    ensures Lists(Split(AddText(text, app)), Path(app))
    ensures AddText(AddText(text, app), app) == AddText(text, app)
  {
    AddIs(text, app);
    EntryOf(app);
    var lines := Split(AddText(text, app));
    hide Split, Trim, Drops;
    assert Entry(Path(app)) in AppendLine(Split(text), Entry(Path(app)));
    assert Lists(lines, Path(app));
    if l :| l in lines && Trim(l.text) == "- " + Path(app) {
      assert Trim(l.text) == Trim(Entry(Path(app)).text);
    }
  }

  /** Removing leaves no line that lists the entry. */
  lemma RemoveUnlists(lines: seq<Line>, app: string)
    ensures !Lists(Kept(lines, app), Path(app))
  {
    if l :| l in Kept(lines, app) && Trim(l.text) == "- " + Path(app) {
      ListedDrops(l, app);
      KeptHas(lines, app, l);
    }
  }

  /** What adding leaves behind after the lines there were: nothing but a line end the text did not have. */
  function LineEnd(lines: seq<Line>, app: string): seq<Line> {
    if Terminated(lines) || Lists(lines, Path(app)) then [] else [Line([])]
  }

  lemma LinesKept(lines: seq<Line>, app: string)
    ensures Kept(AddLines(lines, app), app) == Kept(lines, app) + LineEnd(lines, app)
    ensures Kept(Kept(lines, app), app) == Kept(lines, app)
  {
    forall l | l in Kept(lines, app) ensures !Drops(l, app) { KeptHas(lines, app, l); }
    KeptSame(Kept(lines, app), app);
    if Lists(lines, Path(app)) {
      ListedAdds(lines, app);
    } else {
      AddThenKept(lines, app);
      hide *;
      if Terminated(lines) { KeptTerminated(lines, app); }
    }
    hide Kept, Drops, AddLines, Lists, Path;
  }

  /** Apart from the entries they are about, both edits keep all lines in their order; an entry added and
    * removed again leaves a line end behind if the last line had none. */
  lemma OthersKept(text: string, app: string)
    requires NL !in app
    ensures var lines, kept := Split(text), Kept(Split(text), app);
      && Kept(Split(AddText(text, app)), app) == kept + LineEnd(lines, app)
      && (kept != [] ==> Split(RemoveText(text, app)) == kept)
      && RemoveText(AddText(text, app), app)
         == RemoveText(text, app) + if LineEnd(lines, app) == [] || kept == [] then [] else [NL]
  {
    var lines, kept := Split(text), Kept(Split(text), app);
    AddIs(text, app);
    LinesKept(lines, app);
    if kept != [] {
      RemoveIs(text, app);
      JoinSnoc(kept, Line([]));
    }
    RemovedText(text, app);
    RemovedText(AddText(text, app), app);
    hide Split, Kept, AddText, AddLines, Lists, Path, Terminated, RemoveText;
    assert kept + [] == kept;
  }

  lemma RemovedText(text: string, app: string)
    ensures RemoveText(text, app) == Join(Kept(Split(text), app))
  {
  }

  lemma KeptTerminated(lines: seq<Line>, app: string)
    requires Terminated(lines)
    ensures Kept(lines, app) == Kept(lines[..|lines| - 1], app) + [Line([])]
  {
    EmptyKept(app);
  }

  lemma KeptAdded(front: seq<Line>, app: string)
    ensures Kept(front + [Entry(Path(app)), Line([])], app) == Kept(front, app) + [Line([])]
  {
    var e := Entry(Path(app));
    EmptyKept(app);
    EntryOf(app);
    KeptSnoc(front, e, app);
    KeptSnoc(front + [e], Line([]), app);
    hide *;
    assert front + [e] + [Line([])] == front + [e, Line([])];
    assert Kept(front, app) + [] == Kept(front, app);
  }

  lemma AddThenKept(lines: seq<Line>, app: string)
    requires !Lists(lines, Path(app))
    ensures Kept(AddLines(lines, app), app)
         == Kept(if Terminated(lines) then lines[..|lines| - 1] else lines, app) + [Line([])]
  {
    KeptAdded(if Terminated(lines) then lines[..|lines| - 1] else lines, app);
    hide Kept, Entry, Path, Lists;
  }

  /** Adding an entry and removing it again gives back the text exactly when the text ended with a line end
    * and no list line ended with the entry's path. */
  lemma RemoveUndoesAddIff(text: string, app: string)
    requires NL !in app
    ensures RemoveText(AddText(text, app), app) == text <==>
      EndsWith(text, [NL]) && forall l | l in Split(text) :: !Drops(l, app)
  {
    var lines, added := Split(text), AddText(text, app);
    AddIs(text, app);
    EndsWithNewline(text);
    LinesRoundTrip(lines, app);
    SplitAdded(text, app);
    hide Split, AddLines, AddText, Kept, RemoveText, Drops, EndsWith;
    if Lists(lines, Path(app)) {
      SameText(added, text);
      assert AddLines(lines, app) == lines by { ListedAdds(lines, app); }
      RemoveSame(text, app);
    } else {
      SplitRemoved(added, app);
      SameText(RemoveText(added, app), text);
    }
  }

  lemma ListedAdds(lines: seq<Line>, app: string)
    ensures Lists(lines, Path(app)) ==> AddLines(lines, app) == lines
  {
  }

  lemma RemoveSame(text: string, app: string)
    ensures RemoveText(text, app) == text <==> Kept(Split(text), app) == Split(text)
  {
    JoinSplit(text);
    if Kept(Split(text), app) != [] {
      RemoveIs(text, app);
    } else {
      KeptHas([Line([])], app, Line([]));
      EmptyKept(app);
      assert Split([]) == [Line([])];
    }
  }

  lemma SameText(a: string, b: string)
    ensures Split(a) == Split(b) <==> a == b
  {
    JoinSplit(a);
    JoinSplit(b);
  }

  lemma SplitAdded(text: string, app: string)
    requires NL !in app
    ensures Terminated(Split(AddText(text, app))) || Lists(Split(text), Path(app))
  {
    AddIs(text, app);
    hide Split, AddText;
  }

  lemma LinesRoundTrip(lines: seq<Line>, app: string)
    requires lines != []
    ensures Kept(AddLines(lines, app), app) == lines <==> Terminated(lines) && forall l | l in lines :: !Drops(l, app)
  {
    KeptSame(lines, app);
    if Lists(lines, Path(app)) {
      var l :| l in lines && Trim(l.text) == "- " + Path(app);
      ListedDrops(l, app);
    } else {
      AddThenKept(lines, app);
      EmptyKept(app);
      hide *;
      if Terminated(lines) {
        TerminatedRoundTrip(lines, app);
      } else {
        UnterminatedChanges(lines, app);
      }
    }
  }

  lemma TerminatedRoundTrip(lines: seq<Line>, app: string)
    requires Terminated(lines)
    ensures Kept(lines[..|lines| - 1], app) + [Line([])] == lines <==> forall l | l in lines :: !Drops(l, app)
  {
    KeptTerminated(lines, app);
    hide Kept, Drops;
    KeptSame(lines, app);
  }

  lemma UnterminatedChanges(lines: seq<Line>, app: string)
    requires lines != [] && !Terminated(lines)
    ensures Kept(lines, app) + [Line([])] != lines
  {
    EmptyKept(app);
    hide Drops;
    if Kept(lines, app) == [] {
      KeptHas(lines, app, Line([]));
    }
  }

  // ----- Entries of other applications -----

  lemma {:induction false} KeptLists(lines: seq<Line>, app: string, path: string)
    requires forall l | l in lines && Trim(l.text) == "- " + path :: !Drops(l, app)
    ensures Lists(Kept(lines, app), path) == Lists(lines, path)
  {
    hide Drops, Kept;
    if l :| l in lines && Trim(l.text) == "- " + path {
      KeptHas(lines, app, l);
      assert Lists(Kept(lines, app), path);
    }
    if l :| l in Kept(lines, app) && Trim(l.text) == "- " + path {
      KeptHas(lines, app, l);
    }
  }

  lemma EndsIff(app: string, other: string)
    ensures EndsWith("- " + Path(other), Path(app)) <==> EndsWith("- " + other, app)
  {
    var s, t := "- " + other, "- " + Path(other);
    assert t == s + FILE;
    hide Path;
    assert Path(app) == app + FILE by { PathIs(app); }
    if |app| <= |s| {
      assert t[|t| - |Path(app)|..] == s[|s| - |app|..] + FILE;
      hide *;
      SuffixIff(s[|s| - |app|..], app, FILE);
    }
  }

  lemma PathIs(app: string)
    ensures Path(app) == app + FILE
  {
  }

  lemma SuffixIff(a: string, b: string, c: string)
    ensures a + c == b + c <==> a == b
  {
    if a + c == b + c {
      assert |a| == |b|;
      assert a == (a + c)[..|a|] == (b + c)[..|b|] == b;
    }
  }

  /** Removing one application's entry keeps another's exactly when the other's name does not end with the
    * first one's: "app" takes "my-app" along. */
  lemma OtherSurvivesIff(lines: seq<Line>, app: string, other: string)
    requires Lists(lines, Path(other))
    ensures Lists(Kept(lines, app), Path(other)) <==> !EndsWith("- " + other, app)
  {
    EndsIff(app, other);
    var path := Path(other);
    forall l | l in lines && Trim(l.text) == "- " + path ensures Drops(l, app) <==> EndsWith("- " + other, app) {
    }
    hide Drops;
    if !EndsWith("- " + other, app) {
      KeptLists(lines, app, path);
    } else if l :| l in Kept(lines, app) && Trim(l.text) == "- " + path {
      KeptHas(lines, app, l);
    }
  }

  // ----- Rendering -----

  /** What kustomize sees: the listed resources, in some order. */
  function Items(lines: seq<Line>): multiset<Line> {
    if lines == [] then multiset{}
    else Items(lines[..|lines| - 1]) + Item(lines[|lines| - 1])
  }

  function Item(l: Line): multiset<Line> {
    var t := Trim(l.text);
    if StartsWith(t, "- ") then multiset{Line(t[2..])} else multiset{}
  }

  const NOTICE := "# Generated by swkoo.kr \U{2014} do not edit; "
  const ADVICE := "re-deploy from https://swkoo.kr/deploy "
  const AIM := "to regenerate."
  const HEADER := NOTICE + ADVICE + AIM

  function HeadLines(): seq<Line> {
    [Line(HEADER), Line("apiVersion: kustomize.config.k8s.io/v1beta1"), Line("kind: Kustomization"), Line("resources:")]
  }

  function SharedLines(): seq<Line> {
    [Entry("namespace.yaml"), Entry("resource-quota.yaml"), Entry("limit-range.yaml"), Entry("network-policy.yaml"),
     Entry("role.yaml"), Entry("role-binding.yaml")]
  }

  function AppLines(app: string): seq<Line> {
    [Entry(app + "/deployment.yaml"), Entry(app + "/service.yaml"), Entry(app + "/ingress.yaml")]
  }

  function BaseLines(app: string): seq<Line> { HeadLines() + SharedLines() + AppLines(app) }

  function RenderLines(app: string, domain: bool, storage: bool): seq<Line> {
    BaseLines(app) + (if domain then [Entry(Path(app))] else [])
    + (if storage then [Entry(app + "/pvc.yaml")] else []) + [Line([])]
  }

  function Render(app: string, domain: bool, storage: bool): string { Join(RenderLines(app, domain, storage)) }

  lemma NotThisEntry(path: string, app: string, k: nat)
    requires k < |FILE| && k < |path| && path[|path| - 1 - k] != FILE[|FILE| - 1 - k]
    requires !IsSpace(path[|path| - 1])
    ensures Trim(Entry(path).text) != "- " + Path(app)
  {
    TrimEntry(path);
    var a, b := "- " + path, "- " + Path(app);
    assert a[|a| - 1 - k] == path[|path| - 1 - k] && b[|b| - 1 - k] == FILE[|FILE| - 1 - k];
  }

  lemma NotAnEntry(s: string, path: string)
    requires s != [] && !IsSpace(s[0]) && s[0] != '-'
    ensures Trim(s) != "- " + path
  {
    TrimEndHead(s);
  }

  lemma HeadLacks(path: string)
    ensures !Lists(HeadLines(), path)
  {
    NotAnEntry(HEADER, path);
    NotAnEntry("apiVersion: kustomize.config.k8s.io/v1beta1", path);
    NotAnEntry("kind: Kustomization", path);
    NotAnEntry("resources:", path);
    hide Trim;
  }

  lemma SharedLacks(app: string)
    ensures !Lists(SharedLines(), Path(app))
  {
    NotThisEntry("namespace.yaml", app, 5);
    NotThisEntry("resource-quota.yaml", app, 5);
    NotThisEntry("limit-range.yaml", app, 5);
    NotThisEntry("network-policy.yaml", app, 5);
    NotThisEntry("role.yaml", app, 5);
    NotThisEntry("role-binding.yaml", app, 5);
    hide Trim, Path, Entry;
  }

  lemma AppLacks(app: string)
    ensures !Lists(AppLines(app), Path(app))
    ensures Trim(Entry(app + "/pvc.yaml").text) != "- " + Path(app)
  {
    NotThisEntry(app + "/deployment.yaml", app, 5);
    NotThisEntry(app + "/service.yaml", app, 5);
    NotThisEntry(app + "/ingress.yaml", app, 12);
    NotThisEntry(app + "/pvc.yaml", app, 5);
    hide Trim, Path, Entry;
  }

  /** Without a domain the entry is not rendered. */
  lemma RenderedLacks(app: string, storage: bool)
    ensures !Lists(RenderLines(app, false, storage), Path(app))
  {
    HeadLacks(Path(app));
    SharedLacks(app);
    AppLacks(app);
    hide HeadLines, SharedLines, AppLines, Entry, Path;
  }

  lemma ItemsSnoc(lines: seq<Line>, l: Line)
    ensures Items(lines + [l]) == Items(lines) + Item(l)
  {
    assert (lines + [l])[..|lines|] == lines;
  }

  lemma ItemsThree(base: seq<Line>, a: Line, b: Line, c: Line)
    ensures Items(base + [a, b, c]) == Items(base) + Item(a) + Item(b) + Item(c)
  {
    hide Item;
    ItemsSnoc(base, a);
    ItemsSnoc(base + [a], b);
    ItemsSnoc(base + [a] + [b], c);
    assert base + [a, b, c] == base + [a] + [b] + [c];
  }

  /** Adding the domain's entry to a file rendered without it lists the same resources as rendering it with
    * the domain. */
  lemma AddedRendering(app: string, storage: bool)
    requires NL !in app
    ensures Items(Split(AddText(Render(app, false, storage), app))) == Items(Split(Render(app, true, storage)))
    ensures Lists(Split(Render(app, true, storage)), Path(app)) && !Lists(Split(Render(app, false, storage)), Path(app))
  {
    RenderedSplit(app, false, storage);
    RenderedSplit(app, true, storage);
    AddIs(Render(app, false, storage), app);
    RenderedLacks(app, storage);
    RenderedLists(app, storage);
    AddedItems(app, storage);
    hide *;
  }

  lemma RenderedLists(app: string, storage: bool)
    ensures Lists(RenderLines(app, true, storage), Path(app))
  {
    EntryOf(app);
    hide Trim, BaseLines, Entry, Path;
    assert Entry(Path(app)) in RenderLines(app, true, storage);
  }

  lemma AddedItems(app: string, storage: bool)
    ensures Items(AddLines(RenderLines(app, false, storage), app)) == Items(RenderLines(app, true, storage))
  {
    RenderedLacks(app, storage);
    RenderShape(app, storage);
    var base, e, p := BaseLines(app), Entry(Path(app)), Entry(app + "/pvc.yaml");
    assert base != [];
    assert !Lists(RenderLines(app, false, storage), Path(app)) ==>
      AddLines(RenderLines(app, false, storage), app) == AppendLine(RenderLines(app, false, storage), e);
    hide *;
    if storage {
      SwapItems(base, e, p);
    } else {
      AppendItems(base, e);
    }
  }

  lemma RenderShape(app: string, storage: bool)
    ensures var base, e, p, n := BaseLines(app), Entry(Path(app)), Entry(app + "/pvc.yaml"), Line([]);
      && RenderLines(app, false, storage) == (if storage then base + [p, n] else base + [n])
      && RenderLines(app, true, storage) == (if storage then base + [e, p, n] else base + [e, n])
  {
    hide BaseLines, Entry, Path;
  }

  lemma SwapItems(base: seq<Line>, e: Line, p: Line)
    requires base != []
    ensures Items(AppendLine(base + [p, Line([])], e)) == Items(base + [e, p, Line([])])
  {
    var lines := base + [p, Line([])];
    assert lines[..|lines| - 1] == base + [p];
    assert AppendLine(lines, e) == base + [p, e, Line([])];
    hide *;
    ItemsThree(base, p, e, Line([]));
    ItemsThree(base, e, p, Line([]));
  }

  lemma AppendItems(base: seq<Line>, e: Line)
    requires base != []
    ensures Items(AppendLine(base + [Line([])], e)) == Items(base + [e, Line([])])
  {
    var lines := base + [Line([])];
    assert lines[..|lines| - 1] == base;
  }

  lemma RenderedSplit(app: string, domain: bool, storage: bool)
    requires NL !in app
    ensures Split(Render(app, domain, storage)) == RenderLines(app, domain, storage)
  {
    RenderedClean(app, domain, storage);
    hide RenderLines;
    SplitJoin(RenderLines(app, domain, storage));
  }

  lemma EntryClean(path: string)
    requires NL !in path
    ensures Clean([Entry(path)])
  {
    assert NL !in INDENT;
  }

  lemma HeaderClean()
    ensures Clean([Line(HEADER)])
  {
    assert NL !in NOTICE by { NoticeClean(); }
    assert NL !in ADVICE by { AdviceClean(); }
    assert NL !in AIM;
    hide *;
  }

  lemma NoticeClean()
    ensures NL !in NOTICE
  {
  }

  lemma AdviceClean()
    ensures NL !in ADVICE
  {
  }

  lemma ApiClean()
    ensures Clean([Line("apiVersion: kustomize.config.k8s.io/v1beta1")])
  {
  }

  lemma KindClean()
    ensures Clean([Line("kind: Kustomization")]) && Clean([Line("resources:")])
  {
  }

  lemma HeadClean()
    ensures Clean(HeadLines())
  {
    HeaderClean();
    ApiClean();
    KindClean();
    HeadOf();
    hide *;
    var api, kind := Line("apiVersion: kustomize.config.k8s.io/v1beta1"), Line("kind: Kustomization");
    var res := Line("resources:");
    CleanPlus([Line(HEADER)], [api]);
    CleanPlus([Line(HEADER)] + [api], [kind]);
    CleanPlus([Line(HEADER)] + [api] + [kind], [res]);
  }

  lemma HeadOf()
    ensures HeadLines() == [Line(HEADER)] + [Line("apiVersion: kustomize.config.k8s.io/v1beta1")]
                           + [Line("kind: Kustomization")] + [Line("resources:")]
  {
  }

  lemma SharedClean()
    ensures Clean(SharedLines())
  {
    EntryClean("namespace.yaml");
    EntryClean("resource-quota.yaml");
    EntryClean("limit-range.yaml");
    EntryClean("network-policy.yaml");
    EntryClean("role.yaml");
    EntryClean("role-binding.yaml");
    hide Entry;
  }

  lemma AppClean(app: string)
    requires NL !in app
    ensures Clean(AppLines(app)) && Clean([Entry(app + "/pvc.yaml")]) && Clean([Entry(Path(app))])
  {
    EntryClean(app + "/deployment.yaml");
    EntryClean(app + "/service.yaml");
    EntryClean(app + "/ingress.yaml");
    EntryClean(app + "/pvc.yaml");
    assert NL !in FILE;
    EntryClean(Path(app));
    hide Entry, Path;
  }

  lemma RenderedClean(app: string, domain: bool, storage: bool)
    requires NL !in app
    ensures RenderLines(app, domain, storage) != []
    ensures forall l | l in RenderLines(app, domain, storage) :: NL !in l.text
  {
    HeadClean();
    SharedClean();
    AppClean(app);
    assert Clean([Line([])]);
    var d := if domain then [Entry(Path(app))] else [];
    var p := if storage then [Entry(app + "/pvc.yaml")] else [];
    assert Clean(d) && Clean(p);
    hide HeadLines, SharedLines, AppLines, Entry, Path, Clean;
    CleanPlus(HeadLines(), SharedLines());
    CleanPlus(HeadLines() + SharedLines(), AppLines(app));
    CleanPlus(BaseLines(app), d);
    CleanPlus(BaseLines(app) + d, p);
    CleanPlus(BaseLines(app) + d + p, [Line([])]);
    assert Clean(RenderLines(app, domain, storage));
    CleanMeans(RenderLines(app, domain, storage));
  }
}
