/** Statistics over a pipeline's sync events (apps/backend/src/events/events.repository.ts).
  *
  * Times are milliseconds; seconds are exact fractions of them, rounded at the end as Math.round does.
  */
module Events {
  import opened Common

  datatype Kind = Succeeded | Failed
  datatype Event = Event(at: int, kind: Kind)

  datatype Summary = Summary(deploys: nat, failures: nat, mttrSeconds: Option<int>, avgIntervalSeconds: Option<int>)

  ghost predicate Ordered(events: seq<Event>) { forall i, j | 0 <= i <= j < |events| :: events[i].at <= events[j].at }

  // ----- What the statistics are about -----

  /** A recovery ends here: a success whose previous event is a failure. */
  predicate RecoversAt(events: seq<Event>, i: nat) {
    0 < i < |events| && events[i].kind == Succeeded && events[i - 1].kind == Failed
  }

  /** The times of all recoveries, in order. */
  function Recoveries(events: seq<Event>): seq<int> {
    if events == [] then []
    else
      var n := |events| - 1;
      Recoveries(events[..n]) + if RecoversAt(events, n) then [events[n].at - events[n - 1].at] else []
  }

  function Times(events: seq<Event>, kind: Kind): seq<int> {
    if events == [] then []
    else
      var n := |events| - 1;
      Times(events[..n], kind) + if events[n].kind == kind then [events[n].at] else []
  }

  function Gaps(times: seq<int>): seq<int> {
    if |times| < 2 then [] else Gaps(times[..|times| - 1]) + [times[|times| - 1] - times[|times| - 2]]
  }

  function Sum(s: seq<int>): int { if s == [] then 0 else Sum(s[..|s| - 1]) + s[|s| - 1] }

  /** Math.round of the mean of some milliseconds, in seconds. */
  function MeanSeconds(s: seq<int>): Option<int> {
    if s == [] then None else Some((2 * Sum(s) + 1000 * |s|) / (2000 * |s|))
  }

  // ----- The loops -----

  method RecoveryTimes(events: seq<Event>) returns (r: seq<int>)
    ensures r == Recoveries(events)
  {
    r := [];
    var lastFailure: Option<int> := None;
    var i := 0;
    while i < |events|
      invariant 0 <= i <= |events|
      invariant r == Recoveries(events[..i])
      invariant lastFailure == if i > 0 && events[i - 1].kind == Failed then Some(events[i - 1].at) else None
    {
      assert events[..i + 1][..i] == events[..i];
      var e := events[i];
      if e.kind == Failed {
        lastFailure := Some(e.at);
      } else if lastFailure.Some? {
        r := r + [e.at - lastFailure.value];
        lastFailure := None;
      }
      i := i + 1;
    }
    assert events[..i] == events;
  }

  method Intervals(times: seq<int>) returns (r: seq<int>)
    ensures r == Gaps(times)
  {
    r := [];
    var i := 1;
    while i < |times|
      invariant 1 <= i && (i <= |times| || times == [])
      invariant r == if times == [] then [] else Gaps(times[..i])
    {
      assert times[..i + 1][..i] == times[..i];
      r := r + [times[i] - times[i - 1]];
      i := i + 1;
    }
    assert times != [] ==> times[..i] == times;
  }

  method Total(s: seq<int>) returns (r: int)
    ensures r == Sum(s)
  {
    r := 0;
    var i := 0;
    while i < |s|
      invariant 0 <= i <= |s| && r == Sum(s[..i])
    {
      assert s[..i + 1][..i] == s[..i];
      r := r + s[i];
      i := i + 1;
    }
    assert s[..i] == s;
  }

  method Mean(s: seq<int>) returns (r: Option<int>)
    ensures r == MeanSeconds(s)
  {
    if s == [] {
      return None;
    }
    var total := Total(s);
    return Some((2 * total + 1000 * |s|) / (2000 * |s|));
  }

  method Summarize(events: seq<Event>) returns (r: Summary)
    requires Ordered(events)
    ensures r.deploys == |Times(events, Succeeded)| && r.failures == |Times(events, Failed)|
    ensures r.mttrSeconds == MeanSeconds(Recoveries(events))
    ensures r.mttrSeconds.Some? <==> exists i | 0 <= i < |events| :: RecoversAt(events, i)
    ensures r.avgIntervalSeconds == MeanSeconds(Gaps(Times(events, Succeeded)))
    ensures r.avgIntervalSeconds.Some? <==> r.deploys >= 2
  {
    var recoveries := RecoveryTimes(events);
    var mttr := Mean(recoveries);
    var successes := Times(events, Succeeded);
    var gaps := Intervals(successes);
    var avg := Mean(gaps);
    GapsCount(successes);
    RecoveriesExist(events);
    return Summary(|successes|, |Times(events, Failed)|, mttr, avg);
  }

  // ----- What they mean -----

  lemma {:induction false} RecoveriesExist(events: seq<Event>)
    ensures Recoveries(events) != [] <==> exists i | 0 <= i < |events| :: RecoversAt(events, i)
  {
    if events != [] {
      var n := |events| - 1;
      RecoveriesExist(events[..n]);
      forall i | 0 <= i < n ensures RecoversAt(events[..n], i) == RecoversAt(events, i) {}
    }
  }

  lemma {:induction false} GapsCount(times: seq<int>)
    ensures |Gaps(times)| == if times == [] then 0 else |times| - 1
  {
    if |times| >= 2 {
      GapsCount(times[..|times| - 1]);
    }
  }

  /** The intervals between successes add up to the time from the first to the last. */
  lemma {:induction false} GapsTelescope(times: seq<int>)
    requires times != []
    ensures Sum(Gaps(times)) == times[|times| - 1] - times[0]
  {
    if |times| >= 2 {
      var front := times[..|times| - 1];
      GapsTelescope(front);
      SumSnoc(Gaps(front), times[|times| - 1] - times[|times| - 2]);
    } else {
      assert Gaps(times) == [];
    }
  }

  lemma SumSnoc(s: seq<int>, x: int)
    ensures Sum(s + [x]) == Sum(s) + x
  {
    assert (s + [x])[..|s|] == s;
  }

  /** Each recovery runs from the last failure before a success to that success, and is over before the
    * next one begins. */
  lemma RecoveriesApart(events: seq<Event>, i: nat, j: nat)
    requires Ordered(events) && RecoversAt(events, i) && RecoversAt(events, j) && i < j
    ensures events[i - 1].at <= events[i].at <= events[j - 1].at <= events[j].at
  {
    assert i != j - 1;
  }

  /** Together they take no longer than the time from the first event to the last. */
  lemma {:induction false} RecoveriesFit(events: seq<Event>)
    requires Ordered(events) && events != []
    ensures 0 <= Sum(Recoveries(events)) <= events[|events| - 1].at - events[0].at
  {
    var n := |events| - 1;
    if n > 0 {
      var front := events[..n];
      RecoveriesFit(front);
      assert front[n - 1] == events[n - 1] && front[0] == events[0];
      assert events[n - 1].at <= events[n].at;
      if RecoversAt(events, n) {
        SumSnoc(Recoveries(front), events[n].at - events[n - 1].at);
        assert Recoveries(events) == Recoveries(front) + [events[n].at - events[n - 1].at];
      } else {
        assert Recoveries(events) == Recoveries(front);
      }
    } else {
      assert Recoveries(events) == [];
    }
  }

  /** There are at most as many recoveries as failures, and as successes. */
  lemma {:induction false} RecoveriesCount(events: seq<Event>)
    ensures |Recoveries(events)| <= |Times(events, Failed)|
    ensures |Recoveries(events)| <= |Times(events, Succeeded)|
    ensures events != [] && events[|events| - 1].kind == Failed ==> |Recoveries(events)| < |Times(events, Failed)|
  {
    if events != [] {
      RecoveriesCount(events[..|events| - 1]);
    }
  }

  lemma DivisionBounds(x: int, d: int)
    ensures d > 0 ==> d * (x / d) <= x < d * (x / d) + d
  {
  }

  /** The mean is rounded to the nearest second, halves upwards: it is off by at most half a second for each
    * of the addends. */
  lemma MeanNearest(s: seq<int>)
    requires s != []
    ensures var m := MeanSeconds(s).value; -1000 * |s| < 2 * (1000 * |s| * m - Sum(s)) <= 1000 * |s|
  {
    var x, d := 2 * Sum(s) + 1000 * |s|, 2000 * |s|;
    DivisionBounds(x, d);
    var m := x / d;
    assert d * m == 2 * (1000 * |s| * m);
  }
}
