/** Audit evidence of security patches (apps/backend/src/deploy/security-patch.audit.ts).
  *
  * Summarize turns npm's report into one finding per (package, advisory) pair; Validate decides whether
  * two summaries, before and after a patch, justify proposing it.
  */
module PatchAudit {
  import opened Common

  datatype Name = Name(text: string)
  datatype Path = Path(text: string)
  datatype Version = Version(text: string)
  datatype Key = Key(text: string)

  /** An advisory's title, range and address. */
  datatype Details = Details(title: string, range: string, url: string)

  /** What an entry of the report blames: another entry, or an advisory object. `rank` is the place of
    * its severity in the list of known ones, -1 for none; `texts` says whether the details pass their
    * format checks. */
  datatype Via = Ref(name: Name) | Malformed
    | Advisory(source: int, about: Name, rank: int, details: Details, texts: bool)

  datatype Entry = Entry(name: Name, via: seq<Via>, nodes: seq<Path>)
  datatype Report = Report(version: int, total: int, vulnerabilities: map<Name, Entry>)

  datatype Finding = Finding(package: Name, id: string, rank: nat, details: Details, versions: set<Version>)
  datatype Snapshot = Snapshot(total: nat, findings: seq<Finding>)
  datatype Evidence = Evidence(before: Snapshot, after: Snapshot)
  datatype Error = NoEvidence | NothingVulnerable | NewOrWorse | NothingResolved

  const SEVERITIES := 5

  // ----- Keys -----

  /** The number of an advisory in decimal. */
  function Decimal(n: nat): (r: string)
    ensures r != "" && ':' !in r
    ensures |r| > 1 ==> r[0] != '0'
    ensures n > 0 ==> r[0] != '0'
  {
    if n < 10 then [Digit(n)] else
      assert n / 10 > 0;
      Decimal(n / 10) + [Digit(n % 10)]
  }

  function Digit(n: nat): (c: char)
    requires n < 10
    ensures c == "0123456789"[n]
  {
    '0' + n as char
  }

  lemma {:induction false} DecimalInjective(a: nat, b: nat)
    requires Decimal(a) == Decimal(b)
    ensures a == b
  {
    var da, db := Decimal(a), Decimal(b);
    assert da[|da| - 1] == Digit(a % 10) && db[|db| - 1] == Digit(b % 10);
    if a >= 10 && b >= 10 {
      assert Decimal(a / 10) == da[..|da| - 1] == db[..|db| - 1] == Decimal(b / 10);
      DecimalInjective(a / 10, b / 10);
    }
  }

  function KeyText(package: string, id: string): string { package + ":" + id }

  function KeyOf(f: Finding): Key { Key(KeyText(f.package.text, f.id)) }

  /** Joining package and advisory with a colon loses nothing, although package names may have colons:
    * numbers have none. */
  lemma KeyInjective(p: string, q: string, a: nat, b: nat)
    requires KeyText(p, Decimal(a)) == KeyText(q, Decimal(b))
    ensures p == q && a == b
  {
    var i, j, k := Decimal(a), Decimal(b), KeyText(p, Decimal(a));
    assert k[|p|] == ':' && k[|q|] == ':';
    assert forall t :: |p| < t < |k| ==> k[t] == i[t - |p| - 1];
    assert forall t :: |q| < t < |k| ==> k[t] == j[t - |q| - 1];
    assert p == k[..|p|] && q == k[..|q|];
    assert i == k[|p| + 1..] && j == k[|q| + 1..];
    DecimalInjective(a, b);
  }

  // ----- Summarizing a report -----

  predicate SoundAdvisory(v: Via, name: Name) {
    v.Advisory? && v.source > 0 && v.about == name && v.texts && 0 <= v.rank < SEVERITIES
  }

  predicate SoundVia(v: Via, name: Name, report: Report) {
    if v.Ref? then v.name in report.vulnerabilities else SoundAdvisory(v, name)
  }

  predicate SoundHead(e: Entry, name: Name, lock: map<Path, Version>) {
    e.name == name && e.via != [] && e.nodes != [] && forall p | p in e.nodes :: p in lock
  }

  predicate SoundEntry(report: Report, name: Name, lock: map<Path, Version>)
    requires name in report.vulnerabilities
  {
    var e := report.vulnerabilities[name];
    && SoundHead(e, name, lock)
    && forall v | v in e.via :: SoundVia(v, name, report)
  }

  predicate Sound(report: Report, lock: map<Path, Version>) {
    && report.version == 2
    && report.total == |report.vulnerabilities|
    && (forall n | n in report.vulnerabilities :: SoundEntry(report, n, lock))
    && (report.total > 0 ==> exists n | n in report.vulnerabilities :: HasAdvisory(report.vulnerabilities[n].via))
  }

  /** A report is sound exactly when it is of version 2, counts its entries, has an advisory unless it is empty, and
    * every entry is listed under its own name, with places that are all in the lockfile and with causes that are other
    * entries or advisories about itself, with a number, well-formed texts and one of the five known severities. */
  lemma SoundIff(report: Report, lock: map<Path, Version>)
    ensures Sound(report, lock) <==>
      && report.version == 2 && report.total == |report.vulnerabilities|
      && (report.total == 0 || exists n | n in report.vulnerabilities ::
            exists v | v in report.vulnerabilities[n].via :: v.Advisory?)
      && forall n | n in report.vulnerabilities :: WellFormed(report, report.vulnerabilities[n], n, lock.Keys)
  {
    forall n | n in report.vulnerabilities
      ensures SoundEntry(report, n, lock) <==> WellFormed(report, report.vulnerabilities[n], n, lock.Keys)
    {
      assert forall v | v in report.vulnerabilities[n].via ::
        SoundVia(v, n, report) <==> KnownCause(v, n, report.vulnerabilities.Keys);
    }
    hide SoundEntry, WellFormed;
  }

  predicate WellFormed(report: Report, e: Entry, name: Name, places: set<Path>) {
    && e.name == name && |e.via| > 0 && |e.nodes| > 0
    && (forall p | p in e.nodes :: p in places)
    && (forall v | v in e.via :: KnownCause(v, name, report.vulnerabilities.Keys))
  }

  predicate KnownCause(v: Via, name: Name, entries: set<Name>) {
    match v
    case Ref(other) => other in entries
    case Malformed => false
    case Advisory(source, about, rank, _, texts) => source >= 1 && about == name && rank in {0, 1, 2, 3, 4} && texts
  }

  predicate HasAdvisory(via: seq<Via>) { exists v | v in via :: v.Advisory? }

  /** The last of these that is the given advisory. */
  function Latest(via: seq<Via>, source: int): Option<Via> {
    if via == [] then None
    else
      var v := via[|via| - 1];
      if v.Advisory? && v.source == source then Some(v) else Latest(via[..|via| - 1], source)
  }

  function Versions(nodes: seq<Path>, lock: map<Path, Version>): set<Version>
    requires forall p | p in nodes :: p in lock
  {
    set p | p in nodes :: lock[p]
  }

  function FindingOf(name: Name, v: Via, versions: set<Version>): Finding
    requires SoundAdvisory(v, name)
  {
    Finding(name, Decimal(v.source), v.rank, v.details, versions)
  }

  /** The finding is the last word of its package's entry about its advisory. */
  ghost predicate Reported(report: Report, lock: map<Path, Version>, name: Name, source: nat, f: Finding)
    requires name in report.vulnerabilities && SoundEntry(report, name, lock)
  {
    var e := report.vulnerabilities[name];
    var v := Latest(e.via, source);
    v.Some? && SoundAdvisory(v.value, name) && f == FindingOf(name, v.value, Versions(e.nodes, lock))
  }

  // ----- Collecting the findings -----

  predicate Advisories(via: seq<Via>, name: Name) { forall v | v in via :: v.Advisory? ==> SoundAdvisory(v, name) }

  /** What one entry adds to the map; a later advisory replaces an earlier one with the same number. */
  function EntryFindings(name: Name, via: seq<Via>, versions: set<Version>): map<Key, Finding>
    requires Advisories(via, name)
  {
    if via == [] then map[]
    else
      var v := via[|via| - 1];
      var m := EntryFindings(name, via[..|via| - 1], versions);
      if v.Advisory? then m[KeyOf(FindingOf(name, v, versions)) := FindingOf(name, v, versions)] else m
  }

  lemma {:induction false} EntryKeys(name: Name, via: seq<Via>, versions: set<Version>, k: Key)
    requires Advisories(via, name)
    ensures k in EntryFindings(name, via, versions) ==>
      exists s: nat :: s > 0 && k == Key(KeyText(name.text, Decimal(s))) && Latest(via, s).Some?
  {
    if via != [] && k in EntryFindings(name, via, versions) {
      var v, front := via[|via| - 1], via[..|via| - 1];
      if v.Advisory? && k == KeyOf(FindingOf(name, v, versions)) {
        assert Latest(via, v.source).Some?;
      } else {
        EntryKeys(name, front, versions, k);
        var s: nat :| s > 0 && k == Key(KeyText(name.text, Decimal(s))) && Latest(front, s).Some?;
        assert Latest(via, s).Some?;
      }
    }
  }

  /** The map of an entry answers each advisory number with the last advisory of that number. */
  lemma {:induction false} EntryLookup(name: Name, via: seq<Via>, versions: set<Version>, s: nat)
    requires Advisories(via, name) && s > 0
    ensures var m, k, v := EntryFindings(name, via, versions), Key(KeyText(name.text, Decimal(s))), Latest(via, s);
      && (k in m <==> v.Some?)
      && (v.Some? ==> SoundAdvisory(v.value, name) && v.value.source == s && m[k] == FindingOf(name, v.value, versions))
  {
    if via != [] {
      var v := via[|via| - 1];
      EntryLookup(name, via[..|via| - 1], versions, s);
      if v.Advisory? && KeyText(name.text, Decimal(s)) == KeyText(name.text, Decimal(v.source)) {
        KeyInjective(name.text, name.text, s, v.source);
      }
    }
  }

  /** One more advisory of an entry. */
  function Put(m: map<Key, Finding>, name: Name, v: Via, versions: set<Version>): map<Key, Finding>
    requires v.Advisory? ==> SoundAdvisory(v, name)
  {
    if v.Advisory? then m[KeyOf(FindingOf(name, v, versions)) := FindingOf(name, v, versions)] else m
  }

  lemma PutMerges(findings: map<Key, Finding>, name: Name, via: seq<Via>, versions: set<Version>, i: nat)
    requires i < |via| && Advisories(via[..i + 1], name)
    ensures Advisories(via[..i], name)
    ensures Put(findings + EntryFindings(name, via[..i], versions), name, via[i], versions)
         == findings + EntryFindings(name, via[..i + 1], versions)
  {
    assert via[..i + 1] == via[..i] + [via[i]] && via[..i + 1][..i] == via[..i];
    hide KeyOf, FindingOf, SoundAdvisory;
  }

  lemma SoundPrefix(via: seq<Via>, i: nat, name: Name, report: Report)
    requires i < |via| && forall v | v in via[..i] :: SoundVia(v, name, report)
    ensures SoundVia(via[i], name, report) ==>
      Advisories(via[..i + 1], name) && forall v | v in via[..i + 1] :: SoundVia(v, name, report)
    ensures !SoundVia(via[i], name, report) ==> exists v :: v in via && !SoundVia(v, name, report)
  {
    hide SoundAdvisory;
    assert via[..i + 1] == via[..i] + [via[i]];
  }

  /** One round over an entry of the report: its findings join the map, unless something is malformed. */
  method AddEntry(report: Report, lock: map<Path, Version>, name: Name, findings: map<Key, Finding>)
    returns (r: Option<map<Key, Finding>>)
    requires name in report.vulnerabilities
    ensures r.Some? <==> SoundEntry(report, name, lock)
    ensures r.Some? ==> r.value == findings + OfEntry(report, lock, name)
  {
    var e := report.vulnerabilities[name];
    if !SoundHead(e, name, lock) {
      return None;
    }
    hide KeyOf, FindingOf, SoundAdvisory, EntryFindings, Versions;
    var versions := Versions(e.nodes, lock);
    var merged := findings;
    var i := 0;
    assert merged == findings + EntryFindings(name, e.via[..i], versions) by { NoneYet(name, e.via[..i], versions); }
    while i < |e.via|
      invariant 0 <= i <= |e.via|
      invariant Advisories(e.via[..i], name)
      invariant forall v | v in e.via[..i] :: SoundVia(v, name, report)
      invariant merged == findings + EntryFindings(name, e.via[..i], versions)
    {
      var v := e.via[i];
      SoundPrefix(e.via, i, name, report);
      if v.Ref? {
        if v.name !in report.vulnerabilities {
          return None;
        }
      } else {
        if !SoundAdvisory(v, name) {
          return None;
        }
        var f := FindingOf(name, v, versions);
        merged := merged[KeyOf(f) := f];
      }
      hide Advisories, SoundVia;
      PutMerges(findings, name, e.via, versions, i);
      i := i + 1;
    }
    assert e.via[..i] == e.via;
    return Some(merged);
  }

  lemma NoneYet(name: Name, via: seq<Via>, versions: set<Version>)
    ensures via == [] ==> EntryFindings(name, via, versions) == map[]
  {
  }

  function OfEntry(report: Report, lock: map<Path, Version>, name: Name): map<Key, Finding>
    requires name in report.vulnerabilities && SoundEntry(report, name, lock)
  {
    var e := report.vulnerabilities[name];
    EntryFindings(name, e.via, Versions(e.nodes, lock))
  }

  ghost predicate SoundNames(report: Report, lock: map<Path, Version>, names: set<Name>) {
    forall n | n in names :: n in report.vulnerabilities && SoundEntry(report, n, lock)
  }

  /** The map holds what these entries contribute, and nothing else. */
  ghost predicate Merged(report: Report, lock: map<Path, Version>, names: set<Name>, findings: map<Key, Finding>)
    requires SoundNames(report, lock, names)
  {
    && (forall n, k | n in names && k in OfEntry(report, lock, n) ::
      k in findings && findings[k] == OfEntry(report, lock, n)[k])
    && (forall k | k in findings :: exists n :: n in names && k in OfEntry(report, lock, n))
  }

  /** No entry overwrites another's findings. */
  lemma EntriesApart(report: Report, lock: map<Path, Version>, m: Name, n: Name, k: Key)
    requires m in report.vulnerabilities && SoundEntry(report, m, lock)
    requires n in report.vulnerabilities && SoundEntry(report, n, lock)
    requires k in OfEntry(report, lock, m) && k in OfEntry(report, lock, n)
    ensures m == n
  {
    var a, b := report.vulnerabilities[m], report.vulnerabilities[n];
    EntryKeys(m, a.via, Versions(a.nodes, lock), k);
    EntryKeys(n, b.via, Versions(b.nodes, lock), k);
    var s: nat :| k == Key(KeyText(m.text, Decimal(s)));
    var t: nat :| k == Key(KeyText(n.text, Decimal(t)));
    KeyInjective(m.text, n.text, s, t);
  }

  lemma MergedOneMore(report: Report, lock: map<Path, Version>, names: set<Name>, findings: map<Key, Finding>,
                      name: Name)
    requires name in report.vulnerabilities && SoundEntry(report, name, lock) && name !in names
    requires SoundNames(report, lock, names) && Merged(report, lock, names, findings)
    ensures SoundNames(report, lock, names + {name})
    ensures Merged(report, lock, names + {name}, findings + OfEntry(report, lock, name))
  {
    var all := findings + OfEntry(report, lock, name);
    forall n, k | n in names + {name} && k in OfEntry(report, lock, n)
      ensures k in all && all[k] == OfEntry(report, lock, n)[k]
    {
      if n != name && k in OfEntry(report, lock, name) {
        EntriesApart(report, lock, n, name, k);
      }
    }
    hide OfEntry;
    forall k | k in all ensures exists n :: n in names + {name} && k in OfEntry(report, lock, n) {
      if k in OfEntry(report, lock, name) {
        assert name in names + {name};
      } else {
        var n :| n in names && k in OfEntry(report, lock, n);
        assert n in names + {name};
      }
    }
  }

  ghost predicate DistinctKeys(findings: seq<Finding>) {
    forall i, j :: 0 <= i < j < |findings| ==> KeyOf(findings[i]) != KeyOf(findings[j])
  }

  /** The snapshot lists, once each, the last word of every entry about every advisory it names. */
  ghost predicate Summarizes(report: Report, lock: map<Path, Version>, s: Snapshot)
    requires forall n | n in report.vulnerabilities :: SoundEntry(report, n, lock)
  {
    && s.total == |report.vulnerabilities|
    && DistinctKeys(s.findings)
    && (forall n, source: nat | n in report.vulnerabilities && source > 0 ::
          Answered(report, lock, s.findings, n, source))
    && (forall f | f in s.findings :: exists n, source: nat ::
      n in report.vulnerabilities && source > 0 && Reported(report, lock, n, source, f))
  }

  ghost predicate Answered(report: Report, lock: map<Path, Version>, findings: seq<Finding>, name: Name, source: nat)
    requires name in report.vulnerabilities && SoundEntry(report, name, lock)
  {
    Latest(report.vulnerabilities[name].via, source).Some? ==>
      exists f :: f in findings && Reported(report, lock, name, source, f)
  }

  /** The values of the map, in some order; they are sorted by key for display. */
  method Values(findings: map<Key, Finding>) returns (r: seq<Finding>)
    requires forall k | k in findings :: KeyOf(findings[k]) == k
    ensures DistinctKeys(r)
    ensures forall f :: f in r <==> KeyOf(f) in findings && findings[KeyOf(f)] == f
  {
    hide KeyOf;
    r := [];
    var left := findings.Keys;
    while left != {}
      invariant left <= findings.Keys
      invariant DistinctKeys(r)
      invariant forall f :: f in r <==> KeyOf(f) in findings.Keys - left && findings[KeyOf(f)] == f
    {
      var k :| k in left;
      left := left - {k};
      r := r + [findings[k]];
    }
  }

  /** The findings of all entries, unless some entry is malformed. */
  method Collect(report: Report, lock: map<Path, Version>) returns (r: Option<map<Key, Finding>>)
    ensures r.Some? <==> SoundNames(report, lock, report.vulnerabilities.Keys)
    ensures r.Some? ==> Merged(report, lock, report.vulnerabilities.Keys, r.value)
  {
    var findings: map<Key, Finding> := map[];
    var left := report.vulnerabilities.Keys;
    ghost var done: set<Name> := {};
    hide SoundEntry, OfEntry;
    while left != {}
      invariant left !! done && left + done == report.vulnerabilities.Keys
      invariant SoundNames(report, lock, done) && Merged(report, lock, done, findings)
    {
      hide Merged;
      var name :| name in left;
      var next := AddEntry(report, lock, name, findings);
      if next.None? {
        return None;
      }
      MergedOneMore(report, lock, done, findings, name);
      left, done, findings := left - {name}, done + {name}, next.value;
    }
    hide Merged;
    assert done == report.vulnerabilities.Keys;
    return Some(findings);
  }

  method Summarize(report: Report, lock: map<Path, Version>) returns (r: Option<Snapshot>)
    ensures r.Some? <==> Sound(report, lock)
    ensures r.Some? ==> Summarizes(report, lock, r.value)
  {
    hide SoundEntry, OfEntry, HasAdvisory, Merged, Summarizes, DistinctKeys, KeyOf;
    if report.version != 2 || report.total < 0 || |report.vulnerabilities| != report.total {
      return None;
    }
    var findings := Collect(report, lock);
    if findings.None? {
      return None;
    }
    EmptyMeansNoAdvisory(report, lock, findings.value);
    if report.total > 0 && findings.value == map[] {
      return None;
    }
    MergedKeys(report, lock, findings.value);
    var list := Values(findings.value);
    MergedSummarizes(report, lock, findings.value, list);
    return Some(Snapshot(report.total, list));
  }

  lemma {:induction false} LatestAt(via: seq<Via>, s: int)
    ensures Latest(via, s).Some? ==> Latest(via, s).value in via && Latest(via, s).value.Advisory?
    ensures Latest(via, s).None? ==> forall v | v in via :: v.Advisory? ==> v.source != s
  {
    if via != [] {
      LatestAt(via[..|via| - 1], s);
      assert via == via[..|via| - 1] + [via[|via| - 1]];
    }
  }

  lemma EmptyMeansNoAdvisory(report: Report, lock: map<Path, Version>, findings: map<Key, Finding>)
    requires SoundNames(report, lock, report.vulnerabilities.Keys)
    requires Merged(report, lock, report.vulnerabilities.Keys, findings)
    ensures findings != map[] <==> exists n | n in report.vulnerabilities :: HasAdvisory(report.vulnerabilities[n].via)
  {
    forall n | n in report.vulnerabilities
      ensures HasAdvisory(report.vulnerabilities[n].via) <==> OfEntry(report, lock, n) != map[]
    {
      assert SoundEntry(report, n, lock);
      var e := report.vulnerabilities[n];
      EmptyEntry(report, n, e.via, Versions(e.nodes, lock));
    }
    hide *;
    MergedEmpty(report, lock, findings);
  }

  lemma MergedEmpty(report: Report, lock: map<Path, Version>, findings: map<Key, Finding>)
    requires SoundNames(report, lock, report.vulnerabilities.Keys)
    requires Merged(report, lock, report.vulnerabilities.Keys, findings)
    ensures findings != map[] <==> exists n :: n in report.vulnerabilities && OfEntry(report, lock, n) != map[]
  {
    hide OfEntry, SoundEntry;
    if findings != map[] {
      var k :| k in findings;
      var n :| n in report.vulnerabilities && k in OfEntry(report, lock, n);
    }
    if n :| n in report.vulnerabilities && OfEntry(report, lock, n) != map[] {
      var k :| k in OfEntry(report, lock, n);
      assert k in findings;
    }
  }

  lemma EmptyEntry(report: Report, name: Name, via: seq<Via>, versions: set<Version>)
    requires Advisories(via, name)
    ensures HasAdvisory(via) <==> EntryFindings(name, via, versions) != map[]
  {
    if k :| k in EntryFindings(name, via, versions) {
      EntryKeys(name, via, versions, k);
      var s: nat :| Latest(via, s).Some?;
      LatestAt(via, s);
    }
    if v :| v in via && v.Advisory? {
      LatestAt(via, v.source);
      EntryLookup(name, via, versions, v.source);
    }
  }

  lemma MergedKeys(report: Report, lock: map<Path, Version>, findings: map<Key, Finding>)
    requires SoundNames(report, lock, report.vulnerabilities.Keys)
    requires Merged(report, lock, report.vulnerabilities.Keys, findings)
    ensures forall k | k in findings :: KeyOf(findings[k]) == k
    ensures forall k | k in findings :: exists n, source: nat ::
      n in report.vulnerabilities && source > 0 && Reported(report, lock, n, source, findings[k])
  {
    forall k | k in findings
      ensures KeyOf(findings[k]) == k && exists n, source: nat ::
        n in report.vulnerabilities && source > 0 && Reported(report, lock, n, source, findings[k])
    {
      var n :| n in report.vulnerabilities && k in OfEntry(report, lock, n);
      var e := report.vulnerabilities[n];
      EntryKeys(n, e.via, Versions(e.nodes, lock), k);
      var s: nat :| s > 0 && k == Key(KeyText(n.text, Decimal(s))) && Latest(e.via, s).Some?;
      EntryLookup(n, e.via, Versions(e.nodes, lock), s);
      assert Reported(report, lock, n, s, findings[k]);
    }
  }

  lemma MergedSummarizes(report: Report, lock: map<Path, Version>, findings: map<Key, Finding>, list: seq<Finding>)
    requires SoundNames(report, lock, report.vulnerabilities.Keys)
    requires Merged(report, lock, report.vulnerabilities.Keys, findings)
    requires DistinctKeys(list)
    requires forall f :: f in list <==> KeyOf(f) in findings && findings[KeyOf(f)] == f
    ensures Summarizes(report, lock, Snapshot(|report.vulnerabilities|, list))
  {
    MergedKeys(report, lock, findings);
    forall n, s: nat | n in report.vulnerabilities && s > 0 ensures Answered(report, lock, list, n, s) {
      var e := report.vulnerabilities[n];
      if Latest(e.via, s).Some? {
        EntryLookup(n, e.via, Versions(e.nodes, lock), s);
        var k := Key(KeyText(n.text, Decimal(s)));
        assert k in OfEntry(report, lock, n);
        assert findings[k] in list && Reported(report, lock, n, s, findings[k]);
      }
    }
  }

  // ----- Judging evidence -----

  function Keys(findings: seq<Finding>): set<Key> { set f | f in findings :: KeyOf(f) }

  /** The finding a map filled from the list in order has under a key. */
  function LastWith(findings: seq<Finding>, k: Key): Option<Finding> {
    if findings == [] then None
    else
      var f := findings[|findings| - 1];
      if KeyOf(f) == k then Some(f) else LastWith(findings[..|findings| - 1], k)
  }

  /** The findings whose keys are not among some others. */
  function Without(findings: seq<Finding>, keys: set<Key>): seq<Finding> {
    if findings == [] then []
    else
      var f := findings[|findings| - 1];
      Without(findings[..|findings| - 1], keys) + if KeyOf(f) in keys then [] else [f]
  }

  function Resolved(e: Evidence): seq<Finding> { Without(e.before.findings, Keys(e.after.findings)) }

  predicate NewOrRaised(f: Finding, before: seq<Finding>) {
    var was := LastWith(before, KeyOf(f));
    was.None? || f.rank > was.value.rank
  }

  function Validate(evidence: Option<Evidence>): Option<Error> {
    if evidence.None? then Some(NoEvidence)
    else
      var e := evidence.value;
      if e.before.total == 0 && e.after.total == 0 then Some(NothingVulnerable)
      else if exists f | f in e.after.findings :: NewOrRaised(f, e.before.findings) then Some(NewOrWorse)
      else if Resolved(e) == [] then Some(NothingResolved)
      else None
  }

  lemma {:induction false} LastWithAt(findings: seq<Finding>, k: Key)
    ensures var r := LastWith(findings, k);
      (r.Some? <==> k in Keys(findings)) && (r.Some? ==> r.value in findings && KeyOf(r.value) == k)
  {
    if findings != [] {
      var n := |findings| - 1;
      LastWithAt(findings[..n], k);
      assert findings == findings[..n] + [findings[n]];
      assert Keys(findings) == Keys(findings[..n]) + {KeyOf(findings[n])};
    }
  }

  lemma {:induction false} KeyCount(findings: seq<Finding>)
    requires DistinctKeys(findings)
    ensures |Keys(findings)| == |findings|
  {
    if findings == [] {
      assert Keys(findings) == {};
    } else {
      var n := |findings| - 1;
      KeyCount(findings[..n]);
      assert findings == findings[..n] + [findings[n]];
      assert Keys(findings) == Keys(findings[..n]) + {KeyOf(findings[n])};
    }
  }

  lemma {:induction false} WithoutIs(findings: seq<Finding>, keys: set<Key>)
    ensures forall f :: f in Without(findings, keys) <==> f in findings && KeyOf(f) !in keys
  {
    if findings != [] {
      var n := |findings| - 1;
      WithoutIs(findings[..n], keys);
      assert findings == findings[..n] + [findings[n]];
    }
  }

  /** Filtering keeps one finding for each key that stays. */
  lemma {:induction false} WithoutCount(findings: seq<Finding>, keys: set<Key>)
    requires DistinctKeys(findings)
    ensures |Without(findings, keys)| == |Keys(findings) - keys|
  {
    if findings == [] {
      assert Keys(findings) - keys == {};
    } else {
      var n := |findings| - 1;
      var k := KeyOf(findings[n]);
      WithoutCount(findings[..n], keys);
      KeysOneMore(findings);
      assert k !in Keys(findings[..n]);
      hide *;
      assert Keys(findings) - keys
          == if k in keys then Keys(findings[..n]) - keys else Keys(findings[..n]) - keys + {k};
    }
  }

  lemma KeysOneMore(findings: seq<Finding>)
    requires findings != []
    ensures Keys(findings) == Keys(findings[..|findings| - 1]) + {KeyOf(findings[|findings| - 1])}
  {
    hide KeyOf;
    var n := |findings| - 1;
    assert findings == findings[..n] + [findings[n]];
  }

  ghost predicate Covered(f: Finding, before: seq<Finding>) {
    exists g :: g in before && KeyOf(g) == KeyOf(f) && f.rank <= g.rank
  }

  lemma CoveredIff(f: Finding, before: seq<Finding>)
    requires DistinctKeys(before)
    ensures Covered(f, before) <==> !NewOrRaised(f, before)
  {
    hide KeyOf;
    LastWithAt(before, KeyOf(f));
  }

  lemma ResolvedKeys(e: Evidence)
    ensures Keys(Resolved(e)) == Keys(e.before.findings) - Keys(e.after.findings)
    ensures forall f | f in Resolved(e) :: f in e.before.findings
  {
    WithoutIs(e.before.findings, Keys(e.after.findings));
    hide KeyOf, Without;
  }

  lemma Apart(all: set<Key>, part: set<Key>)
    requires part <= all
    ensures all == all - part + part && (all - part) !! part && |all| == |all - part| + |part|
  {
    assert all == all - part + part;
  }

  /** What remains is what was there before, minus what is resolved. */
  lemma Split(e: Evidence)
    requires DistinctKeys(e.before.findings) && DistinctKeys(e.after.findings)
    requires Keys(e.after.findings) <= Keys(e.before.findings)
    ensures Keys(e.before.findings) == Keys(Resolved(e)) + Keys(e.after.findings)
    ensures Keys(Resolved(e)) !! Keys(e.after.findings)
    ensures |e.before.findings| == |Resolved(e)| + |e.after.findings|
  {
    var was, now := e.before.findings, e.after.findings;
    WithoutCount(was, Keys(now));
    KeyCount(was);
    KeyCount(now);
    ResolvedKeys(e);
    hide *;
    Apart(Keys(was), Keys(now));
  }

  lemma CoveredKeys(now: seq<Finding>, before: seq<Finding>)
    requires forall f | f in now :: Covered(f, before)
    ensures Keys(now) <= Keys(before)
  {
    hide KeyOf;
  }

  /** Evidence is accepted exactly when something was vulnerable, every finding that remains was there
    * before and is no more severe, and strictly fewer remain than there were; for lists without
    * repeated keys, as Summarize makes them. A refusal names the first of these that fails. */
  lemma AcceptedIff(e: Evidence)
    requires DistinctKeys(e.before.findings) && DistinctKeys(e.after.findings)
    ensures Validate(Some(e)).None? <==>
      && e.before.total + e.after.total > 0
      && (forall f | f in e.after.findings :: Covered(f, e.before.findings))
      && |e.after.findings| < |e.before.findings|
    ensures Validate(Some(e)) == Some(NothingVulnerable) <==> e.before.total == 0 && e.after.total == 0
    ensures Validate(Some(e)) == Some(NewOrWorse) <==>
      e.before.total + e.after.total > 0 && exists f | f in e.after.findings :: !Covered(f, e.before.findings)
    ensures Validate(Some(e)) != Some(NoEvidence) && Validate(None) == Some(NoEvidence)
  {
    forall f | f in e.after.findings ensures Covered(f, e.before.findings) <==> !NewOrRaised(f, e.before.findings) {
      CoveredIff(f, e.before.findings);
    }
    if forall f | f in e.after.findings :: Covered(f, e.before.findings) {
      CoveredKeys(e.after.findings, e.before.findings);
      Split(e);
    }
    hide Covered, NewOrRaised, DistinctKeys, Resolved, Keys;
  }

  /** Accepted evidence splits the findings before into the resolved and the remaining ones. */
  lemma AcceptedSplits(e: Evidence)
    requires DistinctKeys(e.before.findings) && DistinctKeys(e.after.findings)
    requires Validate(Some(e)).None?
    ensures Keys(e.before.findings) == Keys(Resolved(e)) + Keys(e.after.findings)
    ensures Keys(Resolved(e)) !! Keys(e.after.findings)
    ensures |e.before.findings| == |Resolved(e)| + |e.after.findings|
    ensures forall f | f in Resolved(e) :: f in e.before.findings
  {
    AcceptedIff(e);
    CoveredKeys(e.after.findings, e.before.findings);
    Split(e);
    ResolvedKeys(e);
    hide *;
  }
}
