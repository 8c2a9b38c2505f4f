/** The storage profile kept in an account's registration file (apps/backend/src/deploy/templates.ts), and
  * how redeploys carry it along (apps/backend/src/deploy/deploy.service.ts).
  *
  * Texts are sequences of lines; the only line end considered is the line feed.
  */
module StorageProfile {
  import opened Common
  import opened Lines
  import Kustomization

  datatype InitMode = MigrateDeploy | DbPush
  datatype StorageClass = LocalPath | UserQuota

  datatype Profile = Profile(size: Line, mountPath: Line, databaseUrl: Line, initMode: InitMode,
                             class_: Option<StorageClass>)

  /** Reading a registration may find a class it does not support. */
  datatype Parsed = Unsupported | Block(profile: Option<Profile>)

  // ----- Rendering -----

  const INDENT := "  "

  function Field(key: string, value: string): Line { Line(INDENT + key + ": " + value) }

  function ModeText(m: InitMode): string { if m == MigrateDeploy then "migrate-deploy" else "db-push" }

  function ClassText(c: StorageClass): string { if c == LocalPath then "local-path" else "swkoo-user-quota" }

  function BlockLines(p: Profile): seq<Line> {
    [Field("profile", "prisma-sqlite"), Field("size", p.size.text), Field("mountPath", p.mountPath.text),
     Field("databaseUrl", p.databaseUrl.text), Field("initMode", ModeText(p.initMode))] +
    (if p.class_.Some? then [Field("storageClassName", ClassText(p.class_.value))] else [])
  }

  /** The file: other lines, none of which starts a storage block, then the block if there is a profile. */
  function RenderLines(head: seq<Line>, p: Option<Profile>): seq<Line> {
    head + (if p.Some? then [Line("storage:")] + BlockLines(p.value) + [Line([])] else []) + [Line([])]
  }

  // ----- Reading -----

  predicate Blank(s: string) { TrimStart(s) == [] }

  /** A line the block pattern takes: a space or tab, and something more. */
  predicate Indented(l: Line) { |l.text| >= 2 && (l.text[0] == ' ' || l.text[0] == '\t') }

  /** Whether the pattern's block can start at line j: it and the text up to it fit, and it is terminated. */
  predicate StartsBlock(lines: seq<Line>, i: nat, j: nat) {
    && i < j < |lines| - 1
    && StartsWith(lines[i].text, "storage:") && Blank(lines[i].text[8..])
    && (forall k | i < k < j :: Blank(lines[k].text))
    && Indented(lines[j])
  }

  /** The latest start of a block for this line: white space is taken greedily. */
  function LatestStart(lines: seq<Line>, i: nat, j: nat): Option<nat> {
    if j <= i then None else if StartsBlock(lines, i, j) then Some(j) else LatestStart(lines, i, j - 1)
  }

  function FindStart(lines: seq<Line>, i: nat): Option<nat>
    decreases |lines| - i
  {
    if i >= |lines| then None
    else
      var j := LatestStart(lines, i, |lines|);
      if j.Some? then j else FindStart(lines, i + 1)
  }

  /** Indented terminated lines from here on. */
  function TakeBlock(lines: seq<Line>, j: nat): seq<Line>
    decreases |lines| - j
  {
    if j < |lines| - 1 && Indented(lines[j]) then [lines[j]] + TakeBlock(lines, j + 1) else []
  }

  /** The rest of the first line that is not blank; the text after the key runs over blank lines. */
  function FirstText(rest: string, more: seq<Line>): Option<string>
    decreases |more|
  {
    if !Blank(rest) then Some(Trim(rest))
    else if more == [] then (if rest == [] then None else Some([]))
    else
      var r := FirstText(more[0].text, more[1..]);
      if r.Some? then r else if rest == [] then None else Some([])
  }

  function Get(block: seq<Line>, key: string): Option<string> {
    if block == [] then None
    else
      var t := TrimStart(block[0].text);
      var r := if StartsWith(t, key + ":") then FirstText(t[|key| + 1..], block[1..]) else None;
      if r.Some? then r else Get(block[1..], key)
  }

  function ParseBlock(block: seq<Line>): Parsed {
    if Get(block, "profile") != Some("prisma-sqlite") then Block(None)
    else
      var mode := Get(block, "initMode");
      var class_ := Get(block, "storageClassName");
      if class_.Some? && class_.value !in ["", "local-path", "swkoo-user-quota"] then Unsupported
      else Block(Some(Profile(
        Line(Or(Get(block, "size"), "1Gi")), Line(Or(Get(block, "mountPath"), "/data")),
        Line(Or(Get(block, "databaseUrl"), "file:/data/app.db")),
        if mode == Some("migrate-deploy") then MigrateDeploy else DbPush,
        if class_ == Some("local-path") then Some(LocalPath)
        else if class_ == Some("swkoo-user-quota") then Some(UserQuota) else None)))
  }

  function Or(s: Option<string>, d: string): string { if s.Some? then s.value else d }

  function Parse(lines: seq<Line>): Parsed {
    var j := FindStart(lines, 0);
    if j.None? then Block(None) else ParseBlock(TakeBlock(lines, j.value))
  }

  // ----- Reading one field -----

  lemma TrimField(key: string, value: string)
    requires key != [] && !IsSpace(key[0])
    ensures TrimStart(Field(key, value).text) == key + ": " + value
  {
    var s := Field(key, value).text;
    assert s[1..][1..] == key + ": " + value;
    assert TrimStart(s) == TrimStart(s[1..]) == TrimStart(s[1..][1..]);
  }

  lemma {:induction false} BlankStart(s: string)
    ensures Blank(s) && s != [] ==> IsSpace(s[0])
    ensures !Blank(s) ==> TrimStart(s) != [] && !IsSpace(TrimStart(s)[0])
  {
    if s != [] && IsSpace(s[0]) {
      BlankStart(s[1..]);
    }
  }

  /** What is left of a text that is not blank starts with a visible character. */
  lemma TrimHead(s: string)
    requires !Blank(s)
    ensures Trim(s) != [] && !IsSpace(Trim(s)[0])
  {
    BlankStart(s);
    TrimEndHead(TrimStart(s));
  }

  lemma AfterSpace(s: string)
    ensures Blank(" " + s) == Blank(s) && Trim(" " + s) == Trim(s)
  {
    assert (" " + s)[1..] == s;
  }

  /** Something visible, with no white space around it. */
  predicate Plain(v: string) { v != [] && Trim(v) == v }

  lemma PlainEnds(v: string)
    requires v != [] && !IsSpace(v[0]) && !IsSpace(v[|v| - 1])
    ensures Plain(v)
  {
  }

  lemma FieldNotBlank(key: string, value: string)
    requires key != [] && !IsSpace(key[0])
    ensures !Blank(Field(key, value).text) && Indented(Field(key, value))
  {
    TrimField(key, value);
  }

  lemma GetHit(key: string, value: string, more: seq<Line>)
    requires key != [] && !IsSpace(key[0])
    ensures FirstText(" " + value, more).Some?
    ensures Get([Field(key, value)] + more, key) == FirstText(" " + value, more)
  {
    var block, t := [Field(key, value)] + more, key + ": " + value;
    TrimField(key, value);
    assert t == (key + ":") + (" " + value) && t[|key| + 1..] == " " + value;
    assert block[1..] == more;
    HasText(" " + value, more);
    hide Field, TrimStart, FirstText;
  }

  lemma {:induction false} HasText(rest: string, more: seq<Line>)
    requires rest != []
    ensures FirstText(rest, more).Some?
  {
  }

  lemma GetSkip(key: string, other: string, value: string, more: seq<Line>, i: nat)
    requires other != [] && !IsSpace(other[0])
    requires i < |key| && i < |other| && key[i] != other[i]
    ensures Get([Field(other, value)] + more, key) == Get(more, key)
  {
    var block, t := [Field(other, value)] + more, other + ": " + value;
    TrimField(other, value);
    assert t[i] == other[i] && (key + ":")[i] == key[i];
    assert block[1..] == more;
    hide Field, TrimStart, FirstText;
  }

  /** A value is read back exactly when it is plain; a blank one is replaced by what follows it. */
  lemma ReadBackIff(key: string, value: string, next: string, nextValue: string, more: seq<Line>)
    requires key != [] && !IsSpace(key[0]) && next != [] && !IsSpace(next[0])
    ensures Get([Field(key, value)] + ([Field(next, nextValue)] + more), key) == Some(value) <==> Plain(value)
  {
    var f := Field(next, nextValue);
    var rest := [f] + more;
    GetHit(key, value, rest);
    AfterSpace(value);
    BlankStart(value);
    if Blank(value) {
      FieldNotBlank(next, nextValue);
      assert rest[0] == f && rest[1..] == more;
      TrimHead(f.text);
      assert FirstText(" " + value, rest) == FirstText(f.text, more) == Some(Trim(f.text));
    }
    hide Field, Get;
  }

  lemma ReadBackPlain(key: string, value: string, more: seq<Line>)
    requires key != [] && !IsSpace(key[0]) && Plain(value)
    ensures Get([Field(key, value)] + more, key) == Some(value)
  {
    GetHit(key, value, more);
    AfterSpace(value);
    hide Field, Get;
  }

  // ----- Reading the rendered block -----

  function ClassLines(p: Profile): seq<Line> {
    if p.class_.Some? then [Field("storageClassName", ClassText(p.class_.value))] else []
  }

  function FromMode(p: Profile): seq<Line> { [Field("initMode", ModeText(p.initMode))] + ClassLines(p) }
  function FromUrl(p: Profile): seq<Line> { [Field("databaseUrl", p.databaseUrl.text)] + FromMode(p) }
  function FromMount(p: Profile): seq<Line> { [Field("mountPath", p.mountPath.text)] + FromUrl(p) }
  function FromSize(p: Profile): seq<Line> { [Field("size", p.size.text)] + FromMount(p) }

  lemma BlockIs(p: Profile)
    ensures BlockLines(p) == [Field("profile", "prisma-sqlite")] + FromSize(p)
  {
    hide Field, ClassText, ModeText;
  }

  lemma TypeRead(p: Profile)
    ensures Get(BlockLines(p), "profile") == Some("prisma-sqlite")
  {
    BlockIs(p);
    PlainEnds("prisma-sqlite");
    ReadBackPlain("profile", "prisma-sqlite", FromSize(p));
    hide *;
  }

  lemma SizeReadIff(p: Profile)
    ensures Get(BlockLines(p), "size") == Some(p.size.text) <==> Plain(p.size.text)
  {
    BlockIs(p);
    GetSkip("size", "profile", "prisma-sqlite", FromSize(p), 0);
    ReadBackIff("size", p.size.text, "mountPath", p.mountPath.text, FromUrl(p));
    hide BlockLines, Field, Get, Plain;
  }

  lemma MountReadIff(p: Profile)
    ensures Get(BlockLines(p), "mountPath") == Some(p.mountPath.text) <==> Plain(p.mountPath.text)
  {
    BlockIs(p);
    GetSkip("mountPath", "profile", "prisma-sqlite", FromSize(p), 0);
    GetSkip("mountPath", "size", p.size.text, FromMount(p), 0);
    ReadBackIff("mountPath", p.mountPath.text, "databaseUrl", p.databaseUrl.text, FromMode(p));
    hide BlockLines, Field, Get, Plain;
  }

  lemma UrlReadIff(p: Profile)
    ensures Get(BlockLines(p), "databaseUrl") == Some(p.databaseUrl.text) <==> Plain(p.databaseUrl.text)
  {
    BlockIs(p);
    GetSkip("databaseUrl", "profile", "prisma-sqlite", FromSize(p), 0);
    GetSkip("databaseUrl", "size", p.size.text, FromMount(p), 0);
    GetSkip("databaseUrl", "mountPath", p.mountPath.text, FromUrl(p), 0);
    ReadBackIff("databaseUrl", p.databaseUrl.text, "initMode", ModeText(p.initMode), ClassLines(p));
    hide BlockLines, Field, Get, Plain, ModeText;
  }

  lemma SkipToMode(p: Profile, key: string)
    requires key == "initMode" || key == "storageClassName"
    ensures Get(BlockLines(p), key) == Get(FromMode(p), key)
  {
    BlockIs(p);
    GetSkip(key, "profile", "prisma-sqlite", FromSize(p), 0);
    GetSkip(key, "size", p.size.text, FromMount(p), if key == "initMode" then 0 else 1);
    GetSkip(key, "mountPath", p.mountPath.text, FromUrl(p), 0);
    GetSkip(key, "databaseUrl", p.databaseUrl.text, FromMode(p), 0);
    hide BlockLines, Field, Get;
  }

  lemma ModeRead(p: Profile)
    ensures Get(BlockLines(p), "initMode") == Some(ModeText(p.initMode))
  {
    SkipToMode(p, "initMode");
    PlainEnds(ModeText(p.initMode));
    ReadBackPlain("initMode", ModeText(p.initMode), ClassLines(p));
    hide BlockLines, Field, Get, Plain, ModeText;
  }

  lemma ClassRead(p: Profile)
    ensures Get(BlockLines(p), "storageClassName") == if p.class_.Some? then Some(ClassText(p.class_.value)) else None
  {
    SkipToMode(p, "storageClassName");
    GetSkip("storageClassName", "initMode", ModeText(p.initMode), ClassLines(p), 0);
    if p.class_.Some? {
      PlainEnds(ClassText(p.class_.value));
      ReadBackPlain("storageClassName", ClassText(p.class_.value), []);
      assert [Field("storageClassName", ClassText(p.class_.value))] + [] == ClassLines(p);
      hide *;
    }
  }

  /** Parsing a rendered block gives back the profile exactly when its three free texts are plain. */
  lemma BlockRoundTripIff(p: Profile)
    ensures ParseBlock(BlockLines(p)) == Block(Some(p)) <==>
      Plain(p.size.text) && Plain(p.mountPath.text) && Plain(p.databaseUrl.text)
    ensures ParseBlock(BlockLines(p)).Block? && ParseBlock(BlockLines(p)).profile.Some?
  {
    TypeRead(p);
    SizeReadIff(p);
    MountReadIff(p);
    UrlReadIff(p);
    ModeRead(p);
    ClassRead(p);
    FieldsFound(p);
    hide BlockLines, Get, Plain;
  }

  lemma FieldsFound(p: Profile)
    ensures Get(BlockLines(p), "size").Some? && Get(BlockLines(p), "mountPath").Some?
    ensures Get(BlockLines(p), "databaseUrl").Some?
  {
    BlockIs(p);
    GetSkip("size", "profile", "prisma-sqlite", FromSize(p), 0);
    GetHit("size", p.size.text, FromMount(p));
    GetSkip("mountPath", "profile", "prisma-sqlite", FromSize(p), 0);
    GetSkip("mountPath", "size", p.size.text, FromMount(p), 0);
    GetHit("mountPath", p.mountPath.text, FromUrl(p));
    GetSkip("databaseUrl", "profile", "prisma-sqlite", FromSize(p), 0);
    GetSkip("databaseUrl", "size", p.size.text, FromMount(p), 0);
    GetSkip("databaseUrl", "mountPath", p.mountPath.text, FromUrl(p), 0);
    GetHit("databaseUrl", p.databaseUrl.text, FromMode(p));
    hide BlockLines, Field, Get;
  }

  // ----- Finding the block -----

  lemma {:induction false} BlankIff(s: string)
    ensures Blank(s) <==> forall c | c in s :: IsSpace(c)
  {
    if s != [] {
      BlankIff(s[1..]);
      assert s == [s[0]] + s[1..];
    }
  }

  /** A line of a block: a space or tab, and something after it. */
  predicate BlockLine(l: Line) { |l.text| > 1 && l.text[0] in " \t" }

  /** Line i is the heading, line j a block line below it with a line end, and only white space lies in between. */
  predicate Heads(lines: seq<Line>, i: int, j: int) {
    && 0 <= i < j && j + 1 < |lines| && BlockLine(lines[j])
    && "storage:" <= lines[i].text && (forall c | c in lines[i].text[|"storage:"|..] :: IsSpace(c))
    && (forall k | i < k < j :: forall c | c in lines[k].text :: IsSpace(c))
  }

  lemma HeadsIff(lines: seq<Line>, i: nat, j: nat)
    ensures Heads(lines, i, j) <==> StartsBlock(lines, i, j)
  {
    if i < j < |lines| - 1 {
      if "storage:" <= lines[i].text { BlankIff(lines[i].text[8..]); }
      forall k | i < k < j ensures Blank(lines[k].text) <==> forall c | c in lines[k].text :: IsSpace(c) {
        BlankIff(lines[k].text);
      }
    }
    hide Blank;
  }

  lemma {:induction false} LatestIs(lines: seq<Line>, i: nat, j: nat)
    ensures var r := LatestStart(lines, i, j);
      && (r.None? ==> forall k | k <= j :: !Heads(lines, i, k))
      && (r.Some? ==> r.value <= j && Heads(lines, i, r.value) && forall k | r.value < k <= j :: !Heads(lines, i, k))
  {
    HeadsIff(lines, i, j);
    hide Heads, StartsBlock;
    if i < j {
      LatestIs(lines, i, j - 1);
    } else {
      forall k | k <= j ensures !Heads(lines, i, k) { NotAbove(lines, i, k); }
    }
  }

  lemma NotAbove(lines: seq<Line>, i: int, k: int)
    ensures Heads(lines, i, k) ==> 0 <= i < k < |lines| - 1
  {
  }

  /** The first heading that has a block, with the last line its block may start at, and the lines up to the first
    * one that is none of the block or has no line end. */
  ghost predicate BlockAt(lines: seq<Line>, i: nat, j: nat, e: nat) {
    && Heads(lines, i, j)
    && (forall h, k | h < i :: !Heads(lines, h, k)) && (forall k | k > j :: !Heads(lines, i, k))
    && j < e < |lines| && (forall k | j <= k < e :: BlockLine(lines[k]))
    && (e == |lines| - 1 || !BlockLine(lines[e]))
  }

  lemma {:induction false} StartIs(lines: seq<Line>, n: nat)
    requires forall h, k | h < n :: !Heads(lines, h, k)
    ensures var r := FindStart(lines, n);
      if r.None? then forall h, k :: !Heads(lines, h, k)
      else exists i: nat :: Heads(lines, i, r.value) && (forall h, k | h < i :: !Heads(lines, h, k)) &&
                            forall k | k > r.value :: !Heads(lines, i, k)
    decreases |lines| - n
  {
    if n < |lines| {
      LatestIs(lines, n, |lines|);
      forall k ensures k > |lines| ==> !Heads(lines, n, k) { NotAbove(lines, n, k); }
      forall k | k < 0 ensures !Heads(lines, n, k) { NotAbove(lines, n, k); }
      hide Heads, LatestStart;
      if LatestStart(lines, n, |lines|).None? {
        StartIs(lines, n + 1);
      }
    } else {
      forall h, k ensures !Heads(lines, h, k) { NotAbove(lines, h, k); }
    }
  }

  lemma {:induction false} TakenIs(lines: seq<Line>, j: nat) returns (e: nat)
    requires j < |lines|
    ensures j <= e < |lines| && TakeBlock(lines, j) == lines[j..e]
    ensures (forall k | j <= k < e :: BlockLine(lines[k])) && (e == |lines| - 1 || !BlockLine(lines[e]))
    decreases |lines| - j
  {
    if j < |lines| - 1 && BlockLine(lines[j]) {
      e := TakenIs(lines, j + 1);
      assert lines[j..e] == [lines[j]] + lines[j + 1..e];
    } else {
      e := j;
    }
  }

  /** Parsing reads just that block, and there is no profile without one. */
  lemma ParseFinds(lines: seq<Line>)
    ensures (forall i, j :: !Heads(lines, i, j)) ==> Parse(lines) == Block(None)
    ensures (exists i, j :: Heads(lines, i, j)) ==>
      exists i: nat, j: nat, e: nat :: BlockAt(lines, i, j, e) && Parse(lines) == ParseBlock(lines[j..e])
  {
    forall h, k | h < 0 ensures !Heads(lines, h, k) { NotAbove(lines, h, k); }
    StartIs(lines, 0);
    var r := FindStart(lines, 0);
    if r.Some? {
      var i: nat :| Heads(lines, i, r.value) && (forall h, k | h < i :: !Heads(lines, h, k)) &&
                    forall k | k > r.value :: !Heads(lines, i, k);
      var j := r.value;
      var e := TakenIs(lines, j);
      assert BlockLine(lines[j]);
      assert BlockAt(lines, i, j, e);
    }
    hide ParseBlock, FindStart, TakeBlock;
  }

  /** A block of another kind has no profile. */
  lemma OtherKind(kind: string, more: seq<Line>)
    requires Plain(kind) && kind != "prisma-sqlite"
    ensures ParseBlock([Field("profile", kind)] + more) == Block(None)
  {
    ReadBackPlain("profile", kind, more);
    hide Get, Field, Plain;
  }

  /** A block that names nothing else has one GiB at /data, with the schema pushed into it, and no class. */
  lemma Defaults()
    ensures ParseBlock([Field("profile", "prisma-sqlite")])
         == Block(Some(Profile(Line("1Gi"), Line("/data"), Line("file:/data/app.db"), DbPush, None)))
  {
    var none: seq<Line> := [];
    var f := Field("profile", "prisma-sqlite");
    assert [f] + none == [f];
    PlainEnds("prisma-sqlite");
    ReadBackPlain("profile", "prisma-sqlite", none);
    GetSkip("size", "profile", "prisma-sqlite", none, 0);
    GetSkip("mountPath", "profile", "prisma-sqlite", none, 0);
    GetSkip("databaseUrl", "profile", "prisma-sqlite", none, 0);
    GetSkip("initMode", "profile", "prisma-sqlite", none, 0);
    GetSkip("storageClassName", "profile", "prisma-sqlite", none, 0);
    assert Get(none, "size") == Get(none, "mountPath") == Get(none, "databaseUrl") == None;
    assert Get(none, "initMode") == Get(none, "storageClassName") == None;
    hide Get, Field, Plain;
  }

  /** A class that is not one of the two supported ones fails the reading. */
  lemma UnknownClass(name: string)
    requires Plain(name) && name != "local-path" && name != "swkoo-user-quota"
    ensures ParseBlock([Field("profile", "prisma-sqlite"), Field("storageClassName", name)]) == Unsupported
  {
    var f, g := Field("profile", "prisma-sqlite"), Field("storageClassName", name);
    assert [f] + [g] == [f, g] && [g] + [] == [g];
    PlainEnds("prisma-sqlite");
    ReadBackPlain("profile", "prisma-sqlite", [g]);
    GetSkip("storageClassName", "profile", "prisma-sqlite", [g], 0);
    ReadBackPlain("storageClassName", name, []);
    assert name != "";
    hide Get, Field, Plain;
  }

  predicate NoBlockHead(head: seq<Line>) { forall l | l in head :: !StartsWith(l.text, "storage:") }

  lemma {:induction false} NoneHere(lines: seq<Line>, i: nat, j: nat)
    requires i < |lines| && !StartsWith(lines[i].text, "storage:")
    ensures LatestStart(lines, i, j) == None
  {
    if j > i {
      NoneHere(lines, i, j - 1);
    }
  }

  lemma {:induction false} SkipHead(lines: seq<Line>, i: nat, n: nat)
    requires i <= n <= |lines| && forall k | i <= k < n :: !StartsWith(lines[k].text, "storage:")
    ensures FindStart(lines, i) == FindStart(lines, n)
    decreases n - i
  {
    if i < n {
      NoneHere(lines, i, |lines|);
      SkipHead(lines, i + 1, n);
    }
  }

  /** Below a storage line, the block starts at once if the next line is indented and not blank. */
  lemma {:induction false} StartsNext(lines: seq<Line>, i: nat, j: nat)
    requires i + 1 < |lines| - 1 && i + 1 <= j
    requires lines[i].text == "storage:" && Indented(lines[i + 1]) && !Blank(lines[i + 1].text)
    ensures LatestStart(lines, i, j) == Some(i + 1)
  {
    if j > i + 1 {
      assert !StartsBlock(lines, i, j);
      StartsNext(lines, i, j - 1);
    } else {
      assert lines[i].text[8..] == [];
    }
  }

  lemma {:induction false} TakeAll(lines: seq<Line>, j: nat, block: seq<Line>, rest: seq<Line>)
    requires j <= |lines| && lines[j..] == block + rest && rest != [] && !Indented(rest[0])
    requires forall l | l in block :: Indented(l)
    ensures TakeBlock(lines, j) == block
    decreases |block|
  {
    if block == [] {
      assert lines[j] == rest[0];
    } else {
      assert lines[j] == block[0] && block[0] in block;
      assert lines[j + 1..] == block[1..] + rest;
      TakeAll(lines, j + 1, block[1..], rest);
      assert block == [block[0]] + block[1..];
    }
  }

  lemma BlockIndented(p: Profile)
    ensures forall l | l in BlockLines(p) :: Indented(l)
    ensures BlockLines(p) != [] && Indented(BlockLines(p)[0]) && !Blank(BlockLines(p)[0].text)
  {
    FieldNotBlank("profile", "prisma-sqlite");
    FieldNotBlank("size", p.size.text);
    FieldNotBlank("mountPath", p.mountPath.text);
    FieldNotBlank("databaseUrl", p.databaseUrl.text);
    FieldNotBlank("initMode", ModeText(p.initMode));
    if p.class_.Some? {
      FieldNotBlank("storageClassName", ClassText(p.class_.value));
    }
    hide Field, Indented, Blank, ModeText, ClassText;
  }

  lemma ParseRendered(head: seq<Line>, p: Profile)
    requires NoBlockHead(head)
    ensures Parse(RenderLines(head, Some(p))) == ParseBlock(BlockLines(p))
  {
    var lines, block := RenderLines(head, Some(p)), BlockLines(p);
    BlockIndented(p);
    RenderedParts(head, p);
    hide *;
    FindRendered(lines, head, block);
    TakeRendered(lines, head, block);
    ParseIs(lines, |head| + 1);
  }

  lemma RenderedParts(head: seq<Line>, p: Profile)
    ensures RenderLines(head, Some(p)) == head + [Line("storage:")] + BlockLines(p) + [Line([]), Line([])]
  {
    hide BlockLines;
  }

  lemma ParseIs(lines: seq<Line>, j: nat)
    ensures FindStart(lines, 0) == Some(j) ==> Parse(lines) == ParseBlock(TakeBlock(lines, j))
  {
  }

  lemma FindRendered(lines: seq<Line>, head: seq<Line>, block: seq<Line>)
    requires NoBlockHead(head) && lines == head + [Line("storage:")] + block + [Line([]), Line([])]
    requires block != [] && Indented(block[0]) && !Blank(block[0].text)
    ensures FindStart(lines, 0) == Some(|head| + 1)
  {
    var n := |head|;
    forall k | 0 <= k < n ensures !StartsWith(lines[k].text, "storage:") {
      assert lines[k] == head[k] && head[k] in head;
    }
    hide StartsWith, Indented, Blank, StartsBlock;
    assert lines[n] == Line("storage:") && lines[n + 1] == block[0];
    SkipHead(lines, 0, n);
    StartsNext(lines, n, |lines|);
  }

  lemma TakeRendered(lines: seq<Line>, head: seq<Line>, block: seq<Line>)
    requires lines == head + [Line("storage:")] + block + [Line([]), Line([])]
    requires forall l | l in block :: Indented(l)
    ensures TakeBlock(lines, |head| + 1) == block
  {
    assert !Indented(Line([]));
    hide Indented;
    assert lines[|head| + 1..] == block + [Line([]), Line([])];
    TakeAll(lines, |head| + 1, block, [Line([]), Line([])]);
  }

  lemma ParseHead(head: seq<Line>)
    requires NoBlockHead(head)
    ensures Parse(RenderLines(head, None)) == Block(None)
  {
    var lines := RenderLines(head, None);
    assert lines == head + [Line([])];
    forall k | 0 <= k < |lines| ensures !StartsWith(lines[k].text, "storage:") {
      if k < |head| { assert lines[k] == head[k] && head[k] in head; }
    }
    SkipHead(lines, 0, |lines|);
  }

  // ----- The registration file -----

  datatype Params = Params(login: Line, appName: Line, deployRepo: Line, sourceRepo: Line, imageRepo: Line)

  function AppLines(r: Params): seq<Line> {
    [Line("login: " + r.login.text), Line("appName: " + r.appName.text), Line("deployRepo: " + r.deployRepo.text),
     Line("sourceRepo: " + r.sourceRepo.text)]
  }

  function ImageLines(r: Params): seq<Line> {
    [Line("image:"), Line("  repo: " + r.imageRepo.text), Line("  updateStrategy: digest"),
     Line("  scanResult: pending"), Line("  writeBackMethod: argocd-image-updater")]
  }

  function Head(r: Params): seq<Line> { [Line(Kustomization.HEADER)] + AppLines(r) + ImageLines(r) }

  /** The registration names the account, the app, both repositories and the image. */
  lemma HeadNames(r: Params)
    ensures Line("login: " + r.login.text) in Head(r) && Line("appName: " + r.appName.text) in Head(r)
    ensures Line("deployRepo: " + r.deployRepo.text) in Head(r) && Line("sourceRepo: " + r.sourceRepo.text) in Head(r)
    ensures Line("  repo: " + r.imageRepo.text) in Head(r)
  {
    assert AppLines(r)[0] in AppLines(r) && AppLines(r)[1] in AppLines(r);
    assert AppLines(r)[2] in AppLines(r) && AppLines(r)[3] in AppLines(r) && ImageLines(r)[1] in ImageLines(r);
  }

  lemma HeadHasNoBlock(r: Params)
    ensures NoBlockHead(Head(r))
  {
    HeaderNotBlock();
    AppNotBlock(r);
    ImageNotBlock(r);
    hide StartsWith, AppLines, ImageLines;
  }

  lemma AppNotBlock(r: Params)
    ensures NoBlockHead(AppLines(r))
  {
    NotBlock("login: " + r.login.text, 0);
    NotBlock("appName: " + r.appName.text, 0);
    NotBlock("deployRepo: " + r.deployRepo.text, 0);
    NotBlock("sourceRepo: " + r.sourceRepo.text, 1);
    hide StartsWith;
  }

  lemma ImageNotBlock(r: Params)
    ensures NoBlockHead(ImageLines(r))
  {
    NotBlock("image:", 0);
    NotBlock("  repo: " + r.imageRepo.text, 0);
    NotBlock("  updateStrategy: digest", 0);
    NotBlock("  scanResult: pending", 0);
    NotBlock("  writeBackMethod: argocd-image-updater", 0);
    hide StartsWith;
  }

  lemma HeaderNotBlock()
    ensures !StartsWith(Kustomization.HEADER, "storage:")
  {
    assert Kustomization.HEADER[0] == '#';
  }

  lemma NotBlock(s: string, i: nat)
    requires i < |s| && i < |"storage:"| && s[i] != "storage:"[i]
    ensures !StartsWith(s, "storage:")
  {
  }

  /** Reading a rendered registration gives back its profile, or none, exactly when the profile's free texts
    * are plain. */
  lemma RegistrationRoundTripIff(r: Params, p: Option<Profile>)
    ensures Parse(RenderLines(Head(r), p)) == Block(p) <==>
      p.None? || (Plain(p.value.size.text) && Plain(p.value.mountPath.text) && Plain(p.value.databaseUrl.text))
  {
    HeadHasNoBlock(r);
    if p.Some? {
      ParseRendered(Head(r), p.value);
      BlockRoundTripIff(p.value);
    } else {
      ParseHead(Head(r));
    }
    hide *;
  }

  // ----- The text -----

  /** The file itself. */
  function RenderText(r: Params, p: Option<Profile>): string { Join(RenderLines(Head(r), p)) }

  /** Reading the text of a registration whose parts are single lines. */
  lemma TextRoundTripIff(r: Params, p: Option<Profile>)
    requires Clean(RenderLines(Head(r), p))
    ensures Parse(Split(RenderText(r, p))) == Block(p) <==>
      p.None? || (Plain(p.value.size.text) && Plain(p.value.mountPath.text) && Plain(p.value.databaseUrl.text))
  {
    RegistrationRoundTripIff(r, p);
    CleanMeans(RenderLines(Head(r), p));
    assert RenderLines(Head(r), p) != [];
    hide *;
    RenderTextIs(r, p);
    SplitJoin(RenderLines(Head(r), p));
  }

  lemma RenderTextIs(r: Params, p: Option<Profile>)
    ensures RenderText(r, p) == Join(RenderLines(Head(r), p))
  {
  }

  // ----- Redeploys -----

  /** One redeploy: whether the registration could be read, what detection finds, whether the new
    * registration is committed, and the other fields. */
  datatype Deploy = Deploy(readable: bool, detected: Option<Profile>, committed: bool, params: Params)

  /** The registration file, if there is one. */
  type File = Option<seq<Line>>

  /** What the redeploy believes is stored: a failed read counts as nothing. */
  function Existing(file: File, readable: bool): Parsed {
    if !readable || file.None? then Block(None) else Parse(file.value)
  }

  function ClassOf(p: Profile): StorageClass { if p.class_.Some? then p.class_.value else LocalPath }

  function Effective(existing: Option<Profile>, detected: Option<Profile>): Option<Profile> {
    var selected := if detected.Some? then detected else existing;
    if selected.None? then None
    else Some(selected.value.(class_ := Some(
      if existing.Some? then ClassOf(existing.value)
      else if selected.value.class_.Some? then selected.value.class_.value else UserQuota)))
  }

  /** A redeploy takes what detection found, or else what is stored. The class is the stored one, which is the local
    * path for volumes from before classes were kept; only where nothing is stored it may be another, by default the
    * one with a quota. */
  lemma EffectiveIs(existing: Option<Profile>, detected: Option<Profile>)
    ensures match (existing, detected)
      case (None, None) => Effective(existing, detected) == None
      case (None, Some(d)) =>
        Effective(existing, detected) == Some(d.(class_ := Some(if d.class_.None? then UserQuota else d.class_.value)))
      case (Some(e), _) =>
        var like := if detected.Some? then detected.value else e;
        Effective(existing, detected) == Some(like.(class_ := if e.class_.None? then Some(LocalPath) else e.class_))
  {
  }

  function AfterDeploy(file: File, d: Deploy): File {
    var existing := Existing(file, d.readable);
    if existing.Unsupported? || !d.committed then file
    else Some(RenderLines(Head(d.params), Effective(existing.profile, d.detected)))
  }

  function AfterAll(file: File, deploys: seq<Deploy>): File {
    if deploys == [] then file else AfterDeploy(AfterAll(file, deploys[..|deploys| - 1]), deploys[|deploys| - 1])
  }

  predicate PlainProfile(p: Profile) { Plain(p.size.text) && Plain(p.mountPath.text) && Plain(p.databaseUrl.text) }

  /** The registration records a profile with this class. */
  predicate Stores(file: File, c: StorageClass) {
    && file.Some?
    && var r := Parse(file.value);
       r.Block? && r.profile.Some? && PlainProfile(r.profile.value) && ClassOf(r.profile.value) == c
  }

  lemma StoredAfter(r: Params, p: Profile)
    requires PlainProfile(p)
    ensures Parse(RenderLines(Head(r), Some(p))) == Block(Some(p))
    ensures Stores(Some(RenderLines(Head(r), Some(p))), ClassOf(p))
  {
    RegistrationRoundTripIff(r, Some(p));
    hide Parse, RenderLines, Head, Plain;
  }

  /** A stored profile is kept, with its class, by a redeploy exactly when the registration is read, or is
    * not rewritten, or detection finds a profile that gets the same class by itself. */
  lemma KeptIff(file: File, d: Deploy, c: StorageClass)
    requires Stores(file, c)
    requires d.detected.Some? ==> PlainProfile(d.detected.value)
    ensures Stores(AfterDeploy(file, d), c) <==>
      || d.readable || !d.committed
      || (d.detected.Some? && (if d.detected.value.class_.Some? then d.detected.value.class_.value else UserQuota) == c)
  {
    var existing := Existing(file, d.readable);
    if !existing.Unsupported? && d.committed {
      var p := Effective(existing.profile, d.detected);
      if p.Some? {
        PlainWithClass(p.value, if d.detected.Some? then d.detected.value else existing.profile.value);
        StoredAfter(d.params, p.value);
      } else {
        RegistrationRoundTripIff(d.params, None);
      }
    }
    hide Parse, RenderLines, Head, Plain;
  }

  lemma PlainWithClass(p: Profile, q: Profile)
    ensures p.size == q.size && p.mountPath == q.mountPath && p.databaseUrl == q.databaseUrl ==>
      PlainProfile(p) == PlainProfile(q)
  {
  }

  /** Over any sequence of redeploys whose reads succeed, a stored profile is never dropped and its class
    * never changes. */
  lemma {:induction false} NeverDropped(file: File, deploys: seq<Deploy>, c: StorageClass)
    requires Stores(file, c)
    requires forall d | d in deploys :: d.readable && (d.detected.Some? ==> PlainProfile(d.detected.value))
    ensures Stores(AfterAll(file, deploys), c)
  {
    hide Stores, AfterDeploy, PlainProfile;
    if deploys != [] {
      var n := |deploys| - 1;
      NeverDropped(file, deploys[..n], c);
      assert deploys[n] in deploys;
      KeptIff(AfterAll(file, deploys[..n]), deploys[n], c);
    }
  }
}
