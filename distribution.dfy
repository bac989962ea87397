/** `inform::distribution`: a histogram of event counts over the events
    `0 .. size() - 1` together with the running total of those counts. */
module Distributions {
  import opened Histograms
  import opened Errors

  /** `std::accumulate(begin, end, 0)` over the bins. */
  method Accumulate(bins: seq<nat>) returns (total: nat)
    ensures total == Sum(bins)
  {
    total := 0;
    var i := 0;
    while i < |bins|
      invariant 0 <= i <= |bins|
      invariant total == Sum(bins[..i])
    {
      assert bins[..i + 1][..i] == bins[..i];
      total := total + bins[i];
      i := i + 1;
    }
    assert bins[..i] == bins;
  }

  class Distribution {
    /** The bins, `hist[e]` being the number of times event `e` was seen. */
    var hist: seq<nat>
    /** The running total the class keeps beside the bins. */
    var sampleSize: nat

    /** The class invariant: at least one bin, and the total is their sum. */
    ghost predicate Valid()
      reads this
    {
      |hist| >= 1 && sampleSize == Sum(hist)
    }

    /** `distribution(n)`: `n` empty bins; size 0 is refused. */
    static method OfSize(n: nat) returns (r: Result<Distribution>)
      ensures n == 0 ==> r == Throws(InvalidArgument)
      ensures n != 0 ==> r.Ok? && fresh(r.value) && r.value.Valid()
      ensures n != 0 ==> r.value.hist == Zeros(n) && r.value.Size() == n
      ensures n != 0 ==> r.value.Count() == 0 && !r.value.IsValid()
    {
      var d := new Distribution;
      d.hist, d.sampleSize := Zeros(n), 0;
      if n == 0 {
        return Throws(InvalidArgument);
      }
      SumOfZeros(n);
      return Ok(d);
    }

    /** The initializer-list and vector constructors: copy the bins; no bins is refused. */
    static method FromCounts(v: seq<nat>) returns (r: Result<Distribution>)
      ensures |v| == 0 ==> r == Throws(InvalidArgument)
      ensures |v| != 0 ==> r.Ok? && fresh(r.value) && r.value.Valid()
      ensures |v| != 0 ==> r.value.hist == v && r.value.Size() == |v| && r.value.Count() == Sum(v)
    {
      var d := new Distribution;
      d.hist := v;
      if |v| == 0 {
        return Throws(InvalidArgument);
      }
      d.sampleSize := Accumulate(d.hist);
      return Ok(d);
    }

    /** The iterator-range constructor over `a[first..last]`; an empty range is refused. */
    static method FromRange(a: seq<nat>, first: nat, last: nat) returns (r: Result<Distribution>)
      requires first <= last <= |a|
      ensures first == last ==> r == Throws(InvalidArgument)
      ensures first < last ==> r.Ok? && fresh(r.value) && r.value.Valid()
      ensures first < last ==> r.value.hist == a[first..last] && r.value.Size() == last - first
      ensures first < last ==> r.value.Count() == Sum(a[first..last])
    {
      var d := new Distribution;
      d.hist := a[first..last];
      if |d.hist| == 0 {
        return Throws(InvalidArgument);
      }
      d.sampleSize := Accumulate(d.hist);
      return Ok(d);
    }

    /** `is_valid()`: usable for an entropy, i.e. some event has been counted. */
    function IsValid(): (b: bool)
      reads this
      requires Valid()
      ensures b <==> exists e :: 0 <= e < |hist| && hist[e] > 0
    {
      SumPositive(hist);
      sampleSize != 0 && |hist| != 0
    }

    /** `size()`: never 0. */
    function Size(): (n: nat)
      reads this
      requires Valid()
      ensures n >= 1 && n == |hist|
    {
      |hist|
    }

    /** `count()`: the sum of the bins. */
    function Count(): (c: nat)
      reads this
      requires Valid()
      ensures c == Sum(hist)
    {
      sampleSize
    }

    /** `get(event)`: the raw count, without changing anything. */
    function Get(event: nat): (r: Result<nat>)
      reads this
      ensures event < |hist| <==> r.Ok?
      ensures r.Ok? ==> r.value == hist[event]
      ensures !r.Ok? ==> r == Throws(OutOfRange)
    {
      if event < |hist| then Ok(hist[event]) else Throws(OutOfRange)
    }

    /** `tic(event, n)`: add `n` (1 by default) to one bin and to the total;
        an unknown event throws before anything changes. */
    method Tic(event: nat, n: nat := 1) returns (r: Result<nat>)
      requires Valid()
      modifies this
      ensures Valid()
      ensures event < old(|hist|) ==> hist == old(hist)[event := old(hist)[event] + n]
      ensures event < old(|hist|) ==> sampleSize == old(sampleSize) + n && r == Ok(hist[event])
      ensures event >= old(|hist|) ==> r == Throws(OutOfRange)
      ensures event >= old(|hist|) ==> hist == old(hist) && sampleSize == old(sampleSize)
    {
      if event >= |hist| {
        return Throws(OutOfRange);
      }
      SumUpdate(hist, event, hist[event] + n);
      hist := hist[event := hist[event] + n];
      sampleSize := sampleSize + n;
      return Ok(hist[event]);
    }

    /** `set(event, v)`: overwrite one bin and move the total by the difference;
        an unknown event throws before anything changes. */
    method Set(event: nat, occurrence: nat) returns (r: Result<nat>)
      requires Valid()
      modifies this
      ensures Valid()
      ensures event < old(|hist|) ==> hist == old(hist)[event := occurrence] && r == Ok(occurrence)
      ensures event < old(|hist|) ==> sampleSize + old(hist)[event] == old(sampleSize) + occurrence
      ensures event >= old(|hist|) ==> r == Throws(OutOfRange)
      ensures event >= old(|hist|) ==> hist == old(hist) && sampleSize == old(sampleSize)
    {
      if event >= |hist| {
        return Throws(OutOfRange);
      }
      SumUpdate(hist, event, occurrence);
      sampleSize := sampleSize + occurrence - hist[event];
      hist := hist[event := occurrence];
      return Ok(occurrence);
    }

    /** The defaulted copy constructor: a new object with the same bins and total. */
    method Copy() returns (d: Distribution)
      requires Valid()
      ensures fresh(d) && d.Valid()
      ensures d.hist == hist && d.sampleSize == sampleSize
    {
      d := new Distribution;
      d.hist, d.sampleSize := hist, sampleSize;
    }
  }

  /** Two `set(e, v)` calls with the same value: the second returns what the
      first did and changes nothing. */
  method SetTwice(d: Distribution, event: nat, occurrence: nat) returns (first: Result<nat>, second: Result<nat>)
    requires d.Valid()
    modifies d
    ensures d.Valid() && second == first
    ensures d.hist == (if event < old(|d.hist|) then old(d.hist)[event := occurrence] else old(d.hist))
    ensures event < old(|d.hist|) ==> d.sampleSize + old(d.hist)[event] == old(d.sampleSize) + occurrence
    ensures event >= old(|d.hist|) ==> d.sampleSize == old(d.sampleSize)
  {
    first := d.Set(event, occurrence);
    ghost var hist1, count1 := d.hist, d.sampleSize;
    second := d.Set(event, occurrence);
    assert d.hist == hist1 && d.sampleSize == count1;
  }

  /** Ticking a copy leaves the original untouched. */
  method TicCopy(d: Distribution, event: nat) returns (c: Distribution)
    requires d.Valid()
    ensures fresh(c) && c.Valid() && d.hist == old(d.hist) && d.sampleSize == old(d.sampleSize)
    ensures event < |d.hist| ==> c.hist == d.hist[event := d.hist[event] + 1] && c.Count() == d.Count() + 1
  {
    c := d.Copy();
    var _ := c.Tic(event);
  }

  /** The tic sequence of the library's own unit tests, replayed against the
      contracts above. */
  method TicExamples()
  {
    var r := Distribution.OfSize(2);
    var d := r.value;
    var x := d.Tic(0);
    assert x == Ok(1) && d.Count() == 1;
    assert d.hist[0] > 0;
    assert d.IsValid();
    x := d.Tic(0);
    assert x == Ok(2) && d.Count() == 2;
    x := d.Tic(1, 2);
    assert x == Ok(2) && d.Count() == 4;
    x := d.Tic(2);
    assert x == Throws(OutOfRange) && d.Count() == 4;
  }

  /** The set and get sequence of the unit tests. */
  method SetGetExamples()
  {
    var r := Distribution.OfSize(2);
    var d := r.value;
    var x := d.Set(0, 2);
    assert x == Ok(2) && d.Count() == 2;
    x := d.Set(0, 0);
    assert x == Ok(0) && d.Count() == 0 && !d.IsValid();
    x := d.Set(0, 4);
    x := d.Set(1, 2);
    assert x == Ok(2) && d.Count() == 6;
    x := d.Set(0, 0);
    assert x == Ok(0) && d.Count() == 2;
    assert d.Get(0) == Ok(0) && d.Get(1) == Ok(2) && d.Get(2) == Throws(OutOfRange);
  }

  /** Building a distribution from counts, as the unit tests do. */
  method FromCountsExamples()
  {
    var r := Distribution.FromCounts([1, 2, 3]);
    assert Sum([1, 2, 3]) == 6 by {
      assert [1, 2, 3][..2] == [1, 2];
      assert [1, 2][..1] == [1];
      assert [1][..0] == [];
    }
    assert r.value.Size() == 3 && r.value.Count() == 6;
    r := Distribution.FromCounts([]);
    assert r == Throws(InvalidArgument);
  }
}
