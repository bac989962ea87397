/** The C entry points of active information (`src/time_series.c`): the same
    sliding window as the C++ templates, over arrays of values, reporting
    errors as NaN payload codes and counting into heap-allocated
    `inform_dist` histograms. */
module ActiveInfoC {
  import opened Bits
  import opened Histograms
  import opened Errors
  import opened Arith
  import opened ActiveInfo

  /** `inform_dist`: a histogram with its running count of observations. */
  class InformDist {
    var histogram: seq<nat>
    var counts: nat

    /** The count is the total of the bins. */
    ghost predicate Valid()
      reads this
    {
      counts == Sum(histogram)
    }

    /** `inform_dist_alloc(n)`: `n` empty bins. Its body is not part of this
        model; this is the contract the callers rely on. */
    static method Alloc(n: nat) returns (d: InformDist)
      ensures fresh(d) && d.Valid() && d.histogram == Zeros(n) && d.counts == 0
    {
      d := new InformDist;
      d.histogram, d.counts := Zeros(n), 0;
      SumOfZeros(n);
    }

    /** `inform_dist_tick(d, event)`: one more observation of an event that
        names a bin. Its body is not part of this model either. */
    method Tick(event: nat)
      requires Valid() && event < |histogram|
      modifies this
      ensures Valid() && histogram == old(histogram)[event := old(histogram)[event] + 1]
      ensures counts == old(counts) + 1
    {
      SumUpdate(histogram, event, histogram[event] + 1);
      histogram := histogram[event := histogram[event] + 1];
      counts := counts + 1;
    }
  }

  /** Every window of `s` was counted from `before` into `after`. */
  ghost predicate CountedInto(s: seq<nat>, k: nat, before: Observations, after: Observations)
  {
    k <= |s| && Fits(before, s, k) && after == Count(before, s, k)
  }

  /** `d` holds `base` plus the events of the windows of `s[..n]`. */
  ghost predicate Ticked(d: InformDist, kind: Kind, s: seq<nat>, n: nat, k: nat, base: seq<nat>)
    reads d
  {
    && k <= n <= |s| && d.Valid() && |d.histogram| == |base|
    && AllBelow(Events(kind, s[..n], k), |base|)
    && d.histogram == Tally(base, Events(kind, s[..n], k))
  }

  /** The tick of the window at `t` into `d`, whose events all fit. */
  method TickWindow(d: InformDist, ghost kind: Kind, ghost s: seq<nat>, ghost t: nat, ghost k: nat,
                    ghost base: seq<nat>, e: nat)
    requires t + k < |s| && e == EventAt(kind, s, t, k)
    requires AllBelow(Events(kind, s, k), |base|)
    requires Ticked(d, kind, s, t + k, k, base)
    modifies d
    ensures Ticked(d, kind, s, t + 1 + k, k, base)
  {
    if e >= |base| {
      WindowMisfit(kind, s, t, k, |base|, e);
    }
    WindowTallied(kind, s, t, k, base, d.histogram, e);
    d.Tick(e);
  }

  /** One turn of the loop of `inform_active_info_dist`: encode the window at
      `t` and tick the three distributions. */
  method TickAll(series: seq<nat>, t: nat, k: nat, states: InformDist, histories: InformDist, futures: InformDist,
                 ghost hs: seq<nat>, ghost hh: seq<nat>, ghost hf: seq<nat>)
    requires t + k < |series|
    requires states != histories && states != futures && histories != futures
    requires Fits(Observations(hs, hh, hf), series, k)
    requires Ticked(states, States, series, t + k, k, hs)
    requires Ticked(histories, Histories, series, t + k, k, hh)
    requires Ticked(futures, Futures, series, t + k, k, hf)
    modifies states, histories, futures
    ensures Ticked(states, States, series, t + 1 + k, k, hs)
    ensures Ticked(histories, Histories, series, t + 1 + k, k, hh)
    ensures Ticked(futures, Futures, series, t + 1 + k, k, hf)
  {
    var history := HistoryAt(series, t, k);
    var future := series[t + k];
    var state := Xor(history, Shl(future, k));
    TickWindow(states, States, series, t, k, hs, state);
    TickWindow(histories, Histories, series, t, k, hh, history);
    TickWindow(futures, Futures, series, t, k, hf, future);
  }

  /** `inform_active_info_dist`: slide the window of `k` values over the `n`
      values of `series`, ticking the state, the history and the future of
      each position. */
  method ActiveInfoDist(series: seq<nat>, n: nat, k: nat,
                        states: InformDist, histories: InformDist, futures: InformDist)
    requires n == |series| && k <= n
    requires states.Valid() && histories.Valid() && futures.Valid()
    requires states != histories && states != futures && histories != futures
    requires Fits(Observations(states.histogram, histories.histogram, futures.histogram), series, k)
    modifies states, histories, futures
    ensures states.Valid() && histories.Valid() && futures.Valid()
    ensures CountedInto(series, k, old(Observations(states.histogram, histories.histogram, futures.histogram)),
                        Observations(states.histogram, histories.histogram, futures.histogram))
  {
    ghost var hs, hh, hf := states.histogram, histories.histogram, futures.histogram;
    var t := 0;
    while t + k != n
      invariant t + k <= n
      invariant Ticked(states, States, series, t + k, k, hs)
      invariant Ticked(histories, Histories, series, t + k, k, hh)
      invariant Ticked(futures, Futures, series, t + k, k, hf)
      decreases n - t - k
    {
      TickAll(series, t, k, states, histories, futures, hs, hh, hf);
      t := t + 1;
    }
    assert series[..t + k] == series;
  }

  /** `inform_active_info` up to the distributions it hands to
      `inform_mutual_info`: code 1 for fewer than two values, code 2 for a
      history as long as the series. */
  method InformActiveInfo(series: seq<nat>, n: nat, k: nat) returns (r: Coded<Observations>)
    requires n == |series|
    requires 1 < n && k < n ==> FitsAll(series, k)
    ensures n <= 1 ==> r == Nan(1)
    ensures 1 < n <= k ==> r == Nan(2)
    ensures 1 < n && k < n ==> r == Value(Observe(series, k))
  {
    if n <= 1 {
      return Nan(1);
    } else if n <= k {
      return Nan(2);
    }
    var states := InformDist.Alloc(2 * Pow2(k));
    var histories := InformDist.Alloc(Pow2(k));
    var futures := InformDist.Alloc(2);
    ActiveInfoDist(series, n, k, states, histories, futures);
    return Value(Observations(states.histogram, histories.histogram, futures.histogram));
  }

  /** Every window of the run at `j` fits fresh distributions when every run does. */
  lemma BlockFits(s: seq<nat>, j: nat, ts: nat, k: nat, h: Observations)
    requires 0 < ts && k <= ts && Multiple(|s|, ts) && Multiple(j, ts) && j + ts <= |s|
    requires BlocksFit(s, ts, k) && CountedRuns(s, j, ts, k, h)
    ensures Fits(h, s[j..j + ts], k)
  {
    CountedSizes(s, j, ts, k, h);
    if !Fits(h, s[j..j + ts], k) {
      RunMisfit(s, j, ts, k, s[j..j + ts], h);
    }
  }

  /** Counting the run at `j` on top of the runs before it. */
  lemma BlockTicked(s: seq<nat>, j: nat, ts: nat, k: nat, before: Observations, after: Observations)
    requires j + ts <= |s|
    requires CountedRuns(s, j, ts, k, before) && CountedInto(s[j..j + ts], k, before, after)
    ensures CountedRuns(s, j + ts, ts, k, after)
  {
    CountedFacts(s, j, ts, k, before);
    BlockStep(States, s, j, ts, k, HistogramSize(States, k), before.states, after.states);
    BlockStep(Histories, s, j, ts, k, HistogramSize(Histories, k), before.histories, after.histories);
    BlockStep(Futures, s, j, ts, k, HistogramSize(Futures, k), before.futures, after.futures);
  }

  /** One turn of the ensemble loop: the run of `m` values at `off`. */
  method TickBlock(series: seq<nat>, off: nat, m: nat, k: nat,
                   states: InformDist, histories: InformDist, futures: InformDist)
    requires 0 < m && k <= m && Multiple(|series|, m) && Multiple(off, m) && off < |series|
    requires BlocksFit(series, m, k)
    requires states.Valid() && histories.Valid() && futures.Valid()
    requires states != histories && states != futures && histories != futures
    requires CountedRuns(series, off, m, k, Observations(states.histogram, histories.histogram, futures.histogram))
    modifies states, histories, futures
    ensures states.Valid() && histories.Valid() && futures.Valid()
    ensures off + m <= |series| && Multiple(off + m, m)
    ensures CountedRuns(series, off + m, m, k, Observations(states.histogram, histories.histogram, futures.histogram))
  {
    MultiplesApart(|series|, off, m);
    BlockFits(series, off, m, k, Observations(states.histogram, histories.histogram, futures.histogram));
    ActiveInfoDist(series[off..off + m], m, k, states, histories, futures);
    BlockTicked(series, off, m, k, old(Observations(states.histogram, histories.histogram, futures.histogram)),
                Observations(states.histogram, histories.histogram, futures.histogram));
  }

  /** The block loop of `inform_active_info_ensemble`: each run of `m` values
      is counted on its own into the same distributions. */
  method TickBlocks(series: seq<nat>, m: nat, k: nat, states: InformDist, histories: InformDist, futures: InformDist)
    requires 0 < m && k <= m && Multiple(|series|, m) && BlocksFit(series, m, k)
    requires states.Valid() && histories.Valid() && futures.Valid()
    requires states != histories && states != futures && histories != futures
    requires Observations(states.histogram, histories.histogram, futures.histogram) == Fresh(k)
    modifies states, histories, futures
    ensures Observations(states.histogram, histories.histogram, futures.histogram) == ObserveBlocks(series, m, k)
  {
    EmptyEnsemble(series, m, k);
    var off := 0;
    while off != |series|
      invariant off <= |series| && Multiple(off, m)
      invariant states.Valid() && histories.Valid() && futures.Valid()
      invariant CountedRuns(series, off, m, k, Observations(states.histogram, histories.histogram, futures.histogram))
      decreases |series| - off
    {
      TickBlock(series, off, m, k, states, histories, futures);
      off := off + m;
    }
    WholeEnsemble(series, off, m, k, Observations(states.histogram, histories.histogram, futures.histogram));
  }

  /** `inform_active_info_ensemble` up to the distributions it hands to
      `inform_mutual_info`: the checks of `inform_active_info`, then code 3
      when the values do not split into runs of `m`. */
  method InformActiveInfoEnsemble(series: seq<nat>, n: nat, m: nat, k: nat) returns (r: Coded<Observations>)
    requires n == |series|
    requires 1 < n && k < n ==> m > 0
    requires 1 < n && k < n && n % m == 0 ==> k <= m && BlocksFit(series, m, k)
    ensures n <= 1 ==> r == Nan(1)
    ensures 1 < n <= k ==> r == Nan(2)
    ensures 1 < n && k < n && n % m != 0 ==> r == Nan(3)
    ensures 1 < n && k < n && n % m == 0 ==> r == Value(ObserveBlocks(series, m, k))
  {
    if n <= 1 {
      return Nan(1);
    } else if n <= k {
      return Nan(2);
    } else if n % m != 0 {
      return Nan(3);
    }
    MultipleIsMod(n, m);
    var states := InformDist.Alloc(2 * Pow2(k));
    var histories := InformDist.Alloc(Pow2(k));
    var futures := InformDist.Alloc(2);
    TickBlocks(series, m, k, states, histories, futures);
    return Value(Observations(states.histogram, histories.histogram, futures.histogram));
  }
}
