/** Frequency histograms as sequences of bin counts: their total, and the
    histogram that results from counting a sequence of events into it. */
module Histograms {

  /** Total of all bins. */
  function Sum(h: seq<nat>): nat
  {
    if h == [] then 0 else Sum(h[..|h| - 1]) + h[|h| - 1]
  }

  /** `n` empty bins. */
  function Zeros(n: nat): (h: seq<nat>)
    ensures |h| == n && forall e :: 0 <= e < n ==> h[e] == 0
  {
    seq(n, _ => 0)
  }

  /** Every event names a bin of a histogram with `size` bins. */
  predicate AllBelow(events: seq<nat>, size: nat)
  {
    events == [] || (AllBelow(events[..|events| - 1], size) && events[|events| - 1] < size)
  }

  /** `AllBelow` holds exactly when each event is below `size`. */
  lemma {:induction false} AllBelowAt(events: seq<nat>, size: nat, i: nat)
    requires i < |events|
    ensures AllBelow(events, size) ==> events[i] < size
  {
    if i < |events| - 1 {
      AllBelowAt(events[..|events| - 1], size, i);
    }
  }

  lemma {:induction false} AllBelowIntro(events: seq<nat>, size: nat)
    ensures (forall i :: 0 <= i < |events| ==> events[i] < size) ==> AllBelow(events, size)
  {
    if events != [] {
      AllBelowIntro(events[..|events| - 1], size);
    }
  }

  /** A concatenation fits exactly when both of its parts do. */
  lemma {:induction false} AllBelowAppend(a: seq<nat>, b: seq<nat>, size: nat)
    ensures AllBelow(a + b, size) <==> AllBelow(a, size) && AllBelow(b, size)
  {
    if b == [] {
      assert a + b == a;
    } else {
      assert (a + b)[..|a + b| - 1] == a + b[..|b| - 1];
      AllBelowAppend(a, b[..|b| - 1], size);
    }
  }

  /** The histogram `h` after adding one to the bin of each event, in order. */
  function Tally(h: seq<nat>, events: seq<nat>): (r: seq<nat>)
    requires AllBelow(events, |h|)
    ensures |r| == |h|
  {
    if events == [] then h
    else
      var last := events[|events| - 1];
      var before := Tally(h, events[..|events| - 1]);
      before[last := before[last] + 1]
  }

  /** How many events name bin `e`. */
  function Hits(events: seq<nat>, e: nat): nat
  {
    if events == [] then 0
    else Hits(events[..|events| - 1], e) + (if events[|events| - 1] == e then 1 else 0)
  }

  lemma {:induction false} SumOfZeros(n: nat)
    ensures Sum(Zeros(n)) == 0
  {
    if n > 0 {
      assert Zeros(n)[..n - 1] == Zeros(n - 1);
      SumOfZeros(n - 1);
    }
  }

  /** Overwriting bin `e` with `v` moves the total by `v - h[e]`. */
  lemma {:induction false} SumUpdate(h: seq<nat>, e: nat, v: nat)
    requires e < |h|
    ensures Sum(h[e := v]) + h[e] == Sum(h) + v
  {
    var n := |h|;
    if e < n - 1 {
      assert h[e := v][..n - 1] == h[..n - 1][e := v];
      SumUpdate(h[..n - 1], e, v);
    } else {
      assert h[e := v][..n - 1] == h[..n - 1];
    }
  }

  /** The total is positive exactly when some bin is. */
  lemma {:induction false} SumPositive(h: seq<nat>)
    ensures Sum(h) > 0 <==> exists e :: 0 <= e < |h| && h[e] > 0
  {
    if h != [] {
      var n := |h|;
      SumPositive(h[..n - 1]);
      if Sum(h[..n - 1]) > 0 {
        var e :| 0 <= e < n - 1 && h[..n - 1][e] > 0;
        assert h[e] > 0;
      }
      if exists e :: 0 <= e < n && h[e] > 0 {
        var e :| 0 <= e < n && h[e] > 0;
        if e < n - 1 { assert h[..n - 1][e] > 0; }
      }
    }
  }

  /** Counting one more event after a run: the run, then that event. */
  lemma TallySnoc(h: seq<nat>, events: seq<nat>, e: nat)
    requires AllBelow(events, |h|) && e < |h|
    ensures AllBelow(events + [e], |h|)
    ensures Tally(h, events + [e]) == Tally(h, events)[e := Tally(h, events)[e] + 1]
  {
    assert (events + [e])[..|events|] == events;
  }

  /** The histogram of a run, bumped at `e`, is the histogram of the run followed by `e`. */
  lemma TallyStep(h: seq<nat>, hist: seq<nat>, events: seq<nat>, after: seq<nat>, e: nat)
    requires AllBelow(events, |h|) && hist == Tally(h, events) && e < |h| && after == events + [e]
    ensures AllBelow(after, |h|) && hist[e := hist[e] + 1] == Tally(h, after)
  {
    TallySnoc(h, events, e);
  }

  /** Bin `e` of a tallied histogram holds its old count plus the events naming it. */
  lemma {:induction false} TallyAt(h: seq<nat>, events: seq<nat>, e: nat)
    requires AllBelow(events, |h|) && e < |h|
    ensures Tally(h, events)[e] == h[e] + Hits(events, e)
  {
    if events != [] {
      TallyAt(h, events[..|events| - 1], e);
    }
  }

  /** Counting `events` raises the total by exactly their number. */
  lemma {:induction false} TallySum(h: seq<nat>, events: seq<nat>)
    requires AllBelow(events, |h|)
    ensures Sum(Tally(h, events)) == Sum(h) + |events|
  {
    if events != [] {
      var before := Tally(h, events[..|events| - 1]);
      TallySum(h, events[..|events| - 1]);
      SumUpdate(before, events[|events| - 1], before[events[|events| - 1]] + 1);
    }
  }

  /** Fresh bins counting `events` hold exactly their number. */
  lemma FreshTallySum(size: nat, events: seq<nat>)
    requires AllBelow(events, size)
    ensures Sum(Tally(Zeros(size), events)) == |events|
  {
    SumOfZeros(size);
    TallySum(Zeros(size), events);
  }

  /** Counting two runs of events one after the other is counting their concatenation. */
  lemma {:induction false} TallyAppend(h: seq<nat>, a: seq<nat>, b: seq<nat>)
    requires AllBelow(a, |h|) && AllBelow(b, |h|)
    ensures AllBelow(a + b, |h|)
    ensures Tally(Tally(h, a), b) == Tally(h, a + b)
  {
    if b != [] {
      var n := |b|;
      assert (a + b)[..|a + b| - 1] == a + b[..n - 1];
      TallyAppend(h, a, b[..n - 1]);
    } else {
      assert a + b == a;
    }
  }
}
