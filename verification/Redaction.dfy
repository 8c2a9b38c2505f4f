/** The literal part of log redaction (apps/backend/src/deploy/deployment-diagnostics.service.ts).
  *
  * Texts are sequences of UTF-16 code units, as JavaScript counts them.
  */
module Redaction {
  newtype Unit = u: int | 0 <= u < 0x10000
  type Text = seq<Unit>

  const OPEN: Unit := 0x5b
  const CLOSE: Unit := 0x5d
  const MARK: Text := [OPEN, 0xC228, 0xAE40, CLOSE]
  const MIN_LENGTH := 4

  predicate OccursAt(v: Text, t: Text, i: nat) { i + |v| <= |t| && t[i..i + |v|] == v }

  predicate Occurs(v: Text, t: Text) { exists i: nat | i <= |t| :: OccursAt(v, t, i) }

  // ----- Replacing one value -----

  /** The pieces of a text between the occurrences of a value, found from the left. */
  function SplitOn(t: Text, v: Text): (r: seq<Text>)
    requires v != []
    ensures r != []
  {
    if |t| < |v| then [t]
    else if t[..|v|] == v then [[]] + SplitOn(t[|v|..], v)
    else
      var rest := SplitOn(t[1..], v);
      [[t[0]] + rest[0]] + rest[1..]
  }

  function JoinWith(pieces: seq<Text>, mark: Text): Text
    requires pieces != []
  {
    if |pieces| == 1 then pieces[0] else pieces[0] + mark + JoinWith(pieces[1..], mark)
  }

  function Replace(t: Text, v: Text): Text
    requires v != []
  {
    if |t| < |v| then t
    else if t[..|v|] == v then MARK + Replace(t[|v|..], v)
    else [t[0]] + Replace(t[1..], v)
  }

  /** Splitting at a value and joining with the mark is replacing from the left. */
  lemma {:induction false} ReplaceIsSplitJoin(t: Text, v: Text)
    requires v != []
    ensures JoinWith(SplitOn(t, v), MARK) == Replace(t, v)
  {
    if |t| >= |v| {
      if t[..|v|] == v {
        var rest := SplitOn(t[|v|..], v);
        ReplaceIsSplitJoin(t[|v|..], v);
        assert ([[]] + rest)[1..] == rest;
        assert [] + MARK + JoinWith(rest, MARK) == MARK + JoinWith(rest, MARK);
      } else {
        var rest := SplitOn(t[1..], v);
        ReplaceIsSplitJoin(t[1..], v);
        JoinLonger(rest, t[0]);
      }
    }
  }

  lemma JoinLonger(pieces: seq<Text>, u: Unit)
    requires pieces != []
    ensures JoinWith([[u] + pieces[0]] + pieces[1..], MARK) == [u] + JoinWith(pieces, MARK)
  {
    var more := [[u] + pieces[0]] + pieces[1..];
    assert more[1..] == pieces[1..];
    if |pieces| > 1 {
      assert [u] + pieces[0] + MARK + JoinWith(pieces[1..], MARK)
          == [u] + (pieces[0] + MARK + JoinWith(pieces[1..], MARK));
    }
  }

  // ----- Values that can share units with the mark -----

  /** Laid over the mark with its start at this offset, the value shares some units with it, and agrees with
    * it on all of them. */
  predicate FitsAt(v: Text, d: int) {
    && -|v| < d < |MARK|
    && forall k | 0 <= k < |v| && 0 <= d + k < |MARK| :: v[k] == MARK[d + k]
  }

  predicate Touches(v: Text) { exists d: int | -|v| < d < |MARK| :: FitsAt(v, d) }

  /** A value without square brackets, and long enough not to lie inside the mark, cannot. */
  lemma BracketFreeSafe(v: Text)
    requires |v| >= MIN_LENGTH && OPEN !in v && CLOSE !in v
    ensures !Touches(v)
  {
    forall d: int | -|v| < d < |MARK| ensures !FitsAt(v, d) {
      var k := if d <= 0 then -d else |MARK| - 1 - d;
      assert v[k] in v;
    }
  }

  /** A mark begins here, as far as the first n units show. */
  predicate MarkAt(r: Text, n: nat, j: nat) {
    j < n <= |r| && forall k | j <= k < n && k < j + |MARK| :: r[k] == MARK[k - j]
  }

  /** The start of a replaced text is the start of the original, unless a mark begins within it. */
  lemma {:induction false} StartOfReplaced(t: Text, w: Text, n: nat) returns (j: nat)
    requires w != [] && n <= |Replace(t, w)|
    requires !(n <= |t| && Replace(t, w)[..n] == t[..n])
    ensures MarkAt(Replace(t, w), n, j)
  {
    var r := Replace(t, w);
    if |t| >= |w| && t[..|w|] == w {
      j := 0;
    } else {
      var rest := Replace(t[1..], w);
      assert |t| >= |w| && r == [t[0]] + rest;
      assert r[..n] == [t[0]] + rest[..n - 1];
      j := StartOfReplaced(t[1..], w, n - 1);
      assert forall k | j + 1 <= k < n :: r[k] == rest[k - 1];
      j := j + 1;
    }
  }

  /** A value at the start of a replaced text was at the start of the original, or touches the mark. */
  lemma AtStart(t: Text, w: Text, v: Text)
    requires w != [] && v != [] && !Touches(v) && OccursAt(v, Replace(t, w), 0)
    ensures OccursAt(v, t, 0)
  {
    var r := Replace(t, w);
    assert r[..|v|] == v;
    if !(|v| <= |t| && r[..|v|] == t[..|v|]) {
      var j := StartOfReplaced(t, w, |v|);
      assert forall k | j <= k < |v| && k < j + |MARK| :: v[k] == r[k];
      assert FitsAt(v, -j);
    }
  }

  lemma Shift(v: Text, t: Text, n: nat)
    requires n <= |t| && Occurs(v, t[n..])
    ensures Occurs(v, t)
  {
    var i: nat :| i <= |t[n..]| && OccursAt(v, t[n..], i);
    assert OccursAt(v, t, n + i);
  }

  /** A value across the mark touches it. */
  lemma OverMark(rest: Text, v: Text, i: nat)
    requires v != [] && i < |MARK| && OccursAt(v, MARK + rest, i)
    ensures Touches(v)
  {
    var r := MARK + rest;
    assert forall k | 0 <= k < |v| :: v[k] == r[i..i + |v|][k] == r[i + k];
    assert FitsAt(v, i);
  }

  lemma Within(v: Text, t: Text, i: nat)
    ensures OccursAt(v, t, i) ==> i + |v| <= |t|
  {
  }

  /** An occurrence past the front part is one in the rest. */
  lemma Past(front: Text, rest: Text, v: Text, i: nat)
    requires i >= |front| && OccursAt(v, front + rest, i)
    ensures OccursAt(v, rest, i - |front|)
  {
    assert (front + rest)[i..i + |v|] == rest[i - |front|..i - |front| + |v|];
  }

  /** Replacing anything brings in no value that cannot touch the mark. */
  lemma {:induction false} NoneAppear(t: Text, w: Text, v: Text, i: nat)
    requires w != [] && v != [] && !Touches(v) && OccursAt(v, Replace(t, w), i)
    ensures Occurs(v, t)
  {
    hide OccursAt, Touches;
    if |t| < |w| {
      assert OccursAt(v, t, i) && i <= |t| by { Within(v, t, i); }
    } else if t[..|w|] == w {
      var rest := Replace(t[|w|..], w);
      if i < |MARK| {
        OverMark(rest, v, i);
      }
      Past(MARK, rest, v, i);
      NoneAppear(t[|w|..], w, v, i - |MARK|);
      Shift(v, t, |w|);
    } else if i == 0 {
      AtStart(t, w, v);
    } else {
      var rest := Replace(t[1..], w);
      Past([t[0]], rest, v, i);
      NoneAppear(t[1..], w, v, i - 1);
      Shift(v, t, 1);
    }
  }

  /** Replacing a value that cannot touch the mark leaves none of it. */
  lemma {:induction false} NoneLeft(t: Text, v: Text, i: nat)
    requires v != [] && !Touches(v)
    ensures !OccursAt(v, Replace(t, v), i)
  {
    hide OccursAt, Touches;
    if OccursAt(v, Replace(t, v), i) {
      if |t| >= |v| && t[..|v|] == v {
        var rest := Replace(t[|v|..], v);
        if i < |MARK| {
          OverMark(rest, v, i);
        } else {
          Past(MARK, rest, v, i);
          NoneLeft(t[|v|..], v, i - |MARK|);
        }
      } else if |t| >= |v| {
        if i == 0 {
          AtStart(t, v, v);
        } else {
          var rest := Replace(t[1..], v);
          Past([t[0]], rest, v, i);
          NoneLeft(t[1..], v, i - 1);
        }
      } else {
        Within(v, t, i);
      }
    }
  }

  // ----- The loop -----

  predicate NoneEmpty(values: seq<Text>) { forall i | 0 <= i < |values| :: values[i] != [] }

  function RedactAll(t: Text, values: seq<Text>): Text
    requires NoneEmpty(values)
    decreases |values|
  {
    if values == [] then t else RedactAll(Replace(t, values[0]), values[1..])
  }

  lemma {:induction false} StaysOut(t: Text, values: seq<Text>, v: Text)
    requires NoneEmpty(values) && v != [] && !Touches(v) && !Occurs(v, t)
    ensures !Occurs(v, RedactAll(t, values))
    decreases |values|
  {
    if values != [] {
      var r := Replace(t, values[0]);
      if Occurs(v, r) {
        var i: nat :| i <= |r| && OccursAt(v, r, i);
        NoneAppear(t, values[0], v, i);
      }
      StaysOut(r, values[1..], v);
    }
  }

  lemma {:induction false} AllOut(t: Text, values: seq<Text>, v: Text)
    requires NoneEmpty(values) && v in values && !Touches(v)
    ensures !Occurs(v, RedactAll(t, values))
    decreases |values|
  {
    var r := Replace(t, values[0]);
    if v == values[0] {
      forall i: nat ensures !OccursAt(v, r, i) { NoneLeft(t, v, i); }
      StaysOut(r, values[1..], v);
    } else {
      AllOut(r, values[1..], v);
    }
  }

  // ----- The order of the values -----

  /** Distinct values of at least four units, longer ones first and otherwise as they came. */
  function Ordered(values: seq<Text>): (r: seq<Text>)
    ensures forall v :: v in r <==> v in values && |v| >= MIN_LENGTH
    ensures NoneEmpty(r)
  {
    if values == [] then []
    else
      var last := values[|values| - 1];
      var front := Ordered(values[..|values| - 1]);
      assert values == values[..|values| - 1] + [last];
      if |last| < MIN_LENGTH || last in front then front else Insert(last, front)
  }

  /** After everything at least as long. */
  function Insert(v: Text, sorted: seq<Text>): (r: seq<Text>)
    ensures forall w :: w in r <==> w == v || w in sorted
    ensures |r| == |sorted| + 1
  {
    if sorted == [] || |v| > |sorted[0]| then [v] + sorted else [sorted[0]] + Insert(v, sorted[1..])
  }

  method RedactValues(raw: Text, values: seq<Text>) returns (r: Text)
    ensures r == RedactAll(raw, Ordered(values))
    ensures forall v | v in values && |v| >= MIN_LENGTH && !Touches(v) :: !Occurs(v, r)
    ensures forall v | v in values && |v| >= MIN_LENGTH && OPEN !in v && CLOSE !in v :: !Occurs(v, r)
  {
    var ordered := Ordered(values);
    r := raw;
    var i := 0;
    while i < |ordered|
      invariant 0 <= i <= |ordered|
      invariant RedactAll(r, ordered[i..]) == RedactAll(raw, ordered)
    {
      assert ordered[i..][0] == ordered[i] && ordered[i..][1..] == ordered[i + 1..];
      ReplaceIsSplitJoin(r, ordered[i]);
      r := JoinWith(SplitOn(r, ordered[i]), MARK);
      i := i + 1;
    }
    forall v | v in values && |v| >= MIN_LENGTH && !Touches(v) ensures !Occurs(v, r) { AllOut(raw, ordered, v); }
    forall v | v in values && |v| >= MIN_LENGTH && OPEN !in v && CLOSE !in v ensures !Occurs(v, r) {
      BracketFreeSafe(v);
    }
  }

  ghost predicate LongestFirst(values: seq<Text>) {
    forall i, j | 0 <= i < j < |values| :: |values[i]| >= |values[j]| && values[i] != values[j]
  }

  lemma {:induction false} InsertKeeps(v: Text, sorted: seq<Text>)
    requires LongestFirst(sorted) && v !in sorted
    ensures LongestFirst(Insert(v, sorted))
  {
    if sorted != [] && |v| <= |sorted[0]| {
      InsertKeeps(v, sorted[1..]);
      var rest := Insert(v, sorted[1..]);
      forall j | 0 <= j < |rest| ensures |sorted[0]| >= |rest[j]| && sorted[0] != rest[j] {
        assert rest[j] in rest;
        if rest[j] != v {
          var k :| 0 <= k < |sorted[1..]| && sorted[1..][k] == rest[j];
          assert sorted[k + 1] == rest[j];
        } else {
          assert sorted[0] in sorted;
        }
      }
    }
  }

  lemma {:induction false} OrderedSorted(values: seq<Text>)
    ensures LongestFirst(Ordered(values))
  {
    if values != [] {
      OrderedSorted(values[..|values| - 1]);
      var last, front := values[|values| - 1], Ordered(values[..|values| - 1]);
      if |last| >= MIN_LENGTH && last !in front {
        InsertKeeps(last, front);
      }
    }
  }

  // ----- Which values are always gone -----

  /** Whatever else is redacted, in whatever text, nothing is left of the value. */
  ghost predicate AlwaysGone(v: Text) {
    forall raw: Text, values: seq<Text> | v in values :: !Occurs(v, RedactAll(raw, Ordered(values)))
  }

  lemma {:induction false} ReplaceOthers(t: Text, v: Text)
    requires v != [] && !Occurs(v, t)
    ensures Replace(t, v) == t
  {
    if |t| >= |v| {
      assert OccursAt(v, t, 0) ==> Occurs(v, t);
      if Occurs(v, t[1..]) { Shift(v, t, 1); }
      ReplaceOthers(t[1..], v);
    }
  }

  /** Four units that do not occur in the value. */
  function Filler(c: Unit): Text { [c, c, c, c] }

  /** The part of the value before, and the part after, the mark it touches at this offset. */
  function Before(v: Text, d: int): Text
    requires -|v| < d
  {
    if d < 0 then v[..-d] else []
  }

  function After(v: Text, d: int): Text
    requires -|v| < d < |MARK|
  {
    if d + |v| > |MARK| then v[|MARK| - d..] else []
  }

  /** A value that touches the mark reappears around the mark of another value. */
  lemma TouchingReappears(v: Text, c: Unit, d: int)
    requires |v| >= MIN_LENGTH && FitsAt(v, d) && c !in v
    ensures !AlwaysGone(v)
  {
    var w, before, after := Filler(c), Before(v, d), After(v, d);
    var raw, values := before + w + after, [v, w];
    PartsLackFiller(v, c, d);
    OrderOfTwo(v, w);
    NotAround(v, c, before, after);
    ReplaceOthers(raw, v);
    FillerReplaced(before, after, c);
    Surrounds(v, d);
    TwoReplacements(raw, v, w);
    hide Replace, Ordered, RedactAll, Occurs;
    assert v in values && Occurs(v, RedactAll(raw, Ordered(values)));
  }

  lemma TwoReplacements(t: Text, v: Text, w: Text)
    requires v != [] && w != []
    ensures RedactAll(t, [v, w]) == Replace(Replace(t, v), w)
  {
    hide Replace;
    assert [v, w][1..] == [w] && [w][1..] == [];
    assert RedactAll(Replace(t, v), [w]) == RedactAll(Replace(Replace(t, v), w), []);
  }

  lemma PartsLackFiller(v: Text, c: Unit, d: int)
    requires v != [] && FitsAt(v, d) && c !in v
    ensures |Before(v, d)| < |v| && |After(v, d)| < |v| && c !in Before(v, d) && c !in After(v, d) && v != Filler(c)
  {
    assert v != [] && v[0] in v;
    assert |After(v, d)| == |v| ==> d >= |MARK|;
  }

  lemma OrderOfTwo(v: Text, w: Text)
    requires |v| >= MIN_LENGTH && |w| == MIN_LENGTH && v != w
    ensures Ordered([v, w]) == [v, w]
  {
    assert [v, w][..1] == [v] && [v][..0] == [];
    assert Ordered([v]) == [v];
  }

  lemma UnitInside(v: Text, t: Text, i: nat, k: nat)
    requires OccursAt(v, t, i) && i <= k < i + |v|
    ensures t[k] in v
  {
    assert t[k] == t[i..i + |v|][k - i];
  }

  lemma NotAround(v: Text, c: Unit, before: Text, after: Text)
    requires c !in v && |before| < |v| && |after| < |v|
    ensures !Occurs(v, before + Filler(c) + after)
  {
    var t := before + Filler(c) + after;
    assert forall k | |before| <= k < |before| + 4 :: t[k] == c;
    forall i: nat | i <= |t| ensures !OccursAt(v, t, i) {
      if OccursAt(v, t, i) {
        UnitInside(v, t, i, if i <= |before| then |before| else i);
      }
    }
  }

  lemma FillerInside(t: Text, c: Unit, i: nat)
    requires OccursAt(Filler(c), t, i)
    ensures c in t
  {
    assert t[i] == t[i..i + 4][0];
  }

  lemma {:induction false} FillerReplaced(before: Text, after: Text, c: Unit)
    requires c !in before && c !in after
    ensures Replace(before + Filler(c) + after, Filler(c)) == before + MARK + after
  {
    var w := Filler(c);
    var t := before + w + after;
    if before == [] {
      assert t == w + after && t[..4] == w && t[4..] == after;
      forall i: nat | i <= |after| ensures !OccursAt(w, after, i) {
        if OccursAt(w, after, i) {
          FillerInside(after, c, i);
        }
      }
      ReplaceOthers(after, w);
      assert [] + MARK + after == MARK + after;
    } else {
      assert t[0] == before[0] && before[0] in before && t[..4][0] != w[0];
      assert t[1..] == before[1..] + w + after;
      FillerReplaced(before[1..], after, c);
      assert [before[0]] + (before[1..] + MARK + after) == before + MARK + after;
    }
  }

  lemma Surrounds(v: Text, d: int)
    requires FitsAt(v, d)
    ensures Occurs(v, Before(v, d) + MARK + After(v, d))
  {
    var t, i := Before(v, d) + MARK + After(v, d), if d < 0 then 0 else d;
    assert i + |v| <= |t|;
    assert forall k | 0 <= k < |v| :: t[i + k] == v[k];
    assert t[i..i + |v|] == v;
    assert OccursAt(v, t, i);
  }

  /** A value is always gone exactly when it cannot touch the mark; for every value of at least four units
    * that does not use all the units there are. */
  lemma AlwaysGoneIff(v: Text, c: Unit)
    requires |v| >= MIN_LENGTH && c !in v
    ensures AlwaysGone(v) <==> !Touches(v)
  {
    if Touches(v) {
      var d: int :| -|v| < d < |MARK| && FitsAt(v, d);
      TouchingReappears(v, c, d);
    } else {
      forall raw: Text, values: seq<Text> | v in values ensures !Occurs(v, RedactAll(raw, Ordered(values))) {
        AllOut(raw, Ordered(values), v);
      }
    }
  }
}
