/** Active information (the C++ templates of `inform/time_series.h`): a window
    of `k` values slides over a binary series; each position counts the encoded
    history, the next value (the future) and the joint state into three
    distributions, from which the mutual information is taken. */
module ActiveInfo {
  import opened Bits
  import opened Histograms
  import opened Errors
  import opened StateEncoding
  import opened Distributions
  import opened Seqs
  import opened Arith

  /** The three distributions every window is counted into. */
  datatype Kind = States | Histories | Futures

  /** The three histograms an active-information computation fills. */
  datatype Observations = Observations(states: seq<nat>, histories: seq<nat>, futures: seq<nat>)

  /** Encoding of the window `s[t..t+k)`. */
  function HistoryAt(s: seq<nat>, t: nat, k: nat): nat
    requires t + k <= |s|
  {
    Encode(s[t..t + k])
  }

  /** `history ^ (future << k)` for the window at `t`. */
  function StateAt(s: seq<nat>, t: nat, k: nat): nat
    requires t + k < |s|
  {
    Xor(HistoryAt(s, t, k), Shl(s[t + k], k))
  }

  /** The event the window at `t` contributes to the distribution `kind`. */
  function EventAt(kind: Kind, s: seq<nat>, t: nat, k: nat): nat
    requires t + k < |s|
  {
    match kind
    case States => StateAt(s, t, k)
    case Histories => HistoryAt(s, t, k)
    case Futures => s[t + k]
  }

  /** The events of all `|s| - k` windows, in the order they are counted. */
  function Events(kind: Kind, s: seq<nat>, k: nat): (e: seq<nat>)
    requires k <= |s|
    ensures |e| == |s| - k
    decreases |s|
  {
    if |s| == k then [] else Events(kind, s[..|s| - 1], k) + [EventAt(kind, s, |s| - 1 - k, k)]
  }

  /** A window inside a prefix of the series sees what it sees in the whole series. */
  lemma EventAtPrefix(kind: Kind, s: seq<nat>, p: nat, t: nat, k: nat)
    requires t + k < p <= |s|
    ensures EventAt(kind, s[..p], t, k) == EventAt(kind, s, t, k)
  {
    assert s[..p][t..t + k] == s[t..t + k];
  }

  /** Event `t` is the one of the window at `t`. */
  lemma {:induction false} EventsAt(kind: Kind, s: seq<nat>, t: nat, k: nat)
    requires t + k < |s|
    ensures Events(kind, s, k)[t] == EventAt(kind, s, t, k)
    decreases |s|
  {
    if t + k < |s| - 1 {
      EventsAt(kind, s[..|s| - 1], t, k);
      EventAtPrefix(kind, s, |s| - 1, t, k);
    }
  }

  /** The events of one more window: those before it, then its own. */
  lemma EventsExtend(kind: Kind, s: seq<nat>, t: nat, k: nat)
    requires t + k < |s|
    ensures Events(kind, s[..t + k + 1], k) == Events(kind, s[..t + k], k) + [EventAt(kind, s, t, k)]
  {
    var p := s[..t + k + 1];
    assert p[..|p| - 1] == s[..t + k];
    EventAtPrefix(kind, s, t + k + 1, t, k);
  }

  /** The sizes the drivers give the distributions: `2 << k`, `1 << k` and `2`. */
  function HistogramSize(kind: Kind, k: nat): nat
  {
    match kind
    case States => 2 * Pow2(k)
    case Histories => Pow2(k)
    case Futures => 2
  }

  /** The histogram of `o` that the distribution `kind` fills. */
  function Bins(o: Observations, kind: Kind): seq<nat>
  {
    match kind
    case States => o.states
    case Histories => o.histories
    case Futures => o.futures
  }

  /** Three empty distributions of the sizes the drivers allocate. */
  function Fresh(k: nat): (o: Observations)
    ensures forall kind: Kind :: Bins(o, kind) == Zeros(HistogramSize(kind, k))
  {
    Observations(Zeros(HistogramSize(States, k)), Zeros(HistogramSize(Histories, k)), Zeros(HistogramSize(Futures, k)))
  }

  /** Every event of every window of `s` names a bin of its histogram in `o`. */
  predicate Fits(o: Observations, s: seq<nat>, k: nat)
    requires k <= |s|
  {
    && AllBelow(Events(States, s, k), |o.states|)
    && AllBelow(Events(Histories, s, k), |o.histories|)
    && AllBelow(Events(Futures, s, k), |o.futures|)
  }

  /** The histograms of `o` after counting every window of `s` into them. */
  function Count(o: Observations, s: seq<nat>, k: nat): Observations
    requires k <= |s| && Fits(o, s, k)
  {
    Observations(
      Tally(o.states, Events(States, s, k)),
      Tally(o.histories, Events(Histories, s, k)),
      Tally(o.futures, Events(Futures, s, k)))
  }

  /** Every window of `s` fits the distributions the drivers allocate. */
  predicate FitsAll(s: seq<nat>, k: nat)
    requires k <= |s|
  {
    Fits(Fresh(k), s, k)
  }

  /** The three histograms after counting every window of `s` into fresh distributions. */
  function Observe(s: seq<nat>, k: nat): Observations
    requires k <= |s| && FitsAll(s, k)
  {
    Count(Fresh(k), s, k)
  }

  /** What `active_information_distributions` does over `s` with distributions
      holding `o`: whether it finishes or which exception escapes. Only the
      sizes of the histograms matter. */
  function WindowsOutcome(s: seq<nat>, k: nat, o: Observations): Outcome
    requires k <= |s|
  {
    if |s| == k then Done
    else if k == 0 || k > MaxSize then Raised(InvalidArgument)
    else if Fits(o, s, k) then Done
    else Raised(OutOfRange)
  }

  /** A pass over the windows of `s` that started from the histograms `before`
      ends with `r` and, when it finishes, with every window counted into them. */
  ghost predicate WindowsRun(r: Outcome, s: seq<nat>, k: nat, before: Observations, after: Observations)
  {
    && k <= |s| && r == WindowsOutcome(s, k, before)
    && (r == Done ==> after == Count(before, s, k))
  }

  /** The three events of the window at `t` name bins of the histograms of `o`. */
  predicate WindowFits(o: Observations, w: seq<nat>, t: nat, k: nat)
    requires t + k < |w|
  {
    && EventAt(States, w, t, k) < |o.states|
    && EventAt(Histories, w, t, k) < |o.histories|
    && EventAt(Futures, w, t, k) < |o.futures|
  }

  /** `h` is `base` plus the events of the windows of `w[..n]`. */
  predicate Tallied(h: seq<nat>, kind: Kind, w: seq<nat>, n: nat, k: nat, base: seq<nat>)
  {
    && k <= n <= |w| && |h| == |base|
    && AllBelow(Events(kind, w[..n], k), |base|)
    && h == Tally(base, Events(kind, w[..n], k))
  }

  /** What the window at `t` leaves when it raises `r`, reached with every
      window before it counted: `encode_state` refusing the history leaves
      `before` plus the windows before `t`; a tic that throws leaves each
      histogram holding the window at `t` too exactly when its tic came
      before the one that threw (states, then histories, then futures). */
  predicate RaisedAt(r: Outcome, w: seq<nat>, t: nat, k: nat, before: Observations, after: Observations)
    requires t + k < |w|
  {
    var st, hi := EventAt(States, w, t, k), EventAt(Histories, w, t, k);
    && (r == Raised(InvalidArgument) || r == Raised(OutOfRange))
    && (r == Raised(InvalidArgument) ==> k == 0 || k > MaxSize)
    && (r == Raised(OutOfRange) ==> !WindowFits(before, w, t, k))
    && Tallied(after.states, States, w, if r == Raised(OutOfRange) && st < |before.states| then t + 1 + k else t + k,
               k, before.states)
    && Tallied(after.histories, Histories, w,
               if r == Raised(OutOfRange) && st < |before.states| && hi < |before.histories| then t + 1 + k else t + k,
               k, before.histories)
    && Tallied(after.futures, Futures, w, t + k, k, before.futures)
  }

  /** What a pass over `s` that raised `r` leaves in the distributions it was
      given: nothing when `encode_state` refused the history at the first
      window; otherwise every window before the first one that misses, then
      the tics of that window that came before the one that threw. */
  ghost predicate RaisedRun(r: Outcome, s: seq<nat>, k: nat, before: Observations, after: Observations)
  {
    && k <= |s|
    && (r == Raised(InvalidArgument) ==> after == before)
    && (r == Raised(OutOfRange) ==>
          exists t: nat :: t + k < |s| && Fits(before, s[..t + k], k) && RaisedAt(r, s, t, k, before, after))
  }

  /** The window `RaisedRun` speaks of is the first that misses: every earlier
      window fits. */
  lemma {:induction false} EarlierWindowsFit(o: Observations, s: seq<nat>, t: nat, k: nat, p: nat)
    requires t + k < |s| && Fits(o, s[..t + k], k) && p < t
    ensures WindowFits(o, s, p, k)
  {
    var w := s[..t + k];
    EventsAt(States, w, p, k);
    EventsAt(Histories, w, p, k);
    EventsAt(Futures, w, p, k);
    AllBelowAt(Events(States, w, k), |o.states|, p);
    AllBelowAt(Events(Histories, w, k), |o.histories|, p);
    AllBelowAt(Events(Futures, w, k), |o.futures|, p);
    EventAtPrefix(States, s, t + k, p, k);
    EventAtPrefix(Histories, s, t + k, p, k);
    EventAtPrefix(Futures, s, t + k, p, k);
  }

  /** A run that finishes counted every window into its distribution. */
  lemma DoneFits(s: seq<nat>, k: nat, o: Observations)
    requires k <= |s| && WindowsOutcome(s, k, o) == Done
    ensures Fits(o, s, k)
  {
  }

  /** For a binary window the history is below `2^k` and the xor is a sum. */
  lemma StateIsSum(s: seq<nat>, t: nat, k: nat)
    requires t + k < |s| && IsBinary(s[t..t + k])
    ensures HistoryAt(s, t, k) < Pow2(k)
    ensures StateAt(s, t, k) == HistoryAt(s, t, k) + Shl(s[t + k], k)
  {
    HistoryBelow(s, t, k);
    XorOfDisjointIsSum(HistoryAt(s, t, k), s[t + k], k);
  }

  /** A binary window encodes below `2^k`. */
  lemma HistoryBelow(s: seq<nat>, t: nat, k: nat)
    requires t + k <= |s| && IsBinary(s[t..t + k])
    ensures HistoryAt(s, t, k) < Pow2(k)
  {
    EncodeBound(s[t..t + k]);
  }

  /** On a binary series the window at `t` lands inside each distribution. */
  lemma BinaryWindowFits(s: seq<nat>, t: nat, k: nat)
    requires t + k < |s| && IsBinary(s)
    ensures EventAt(States, s, t, k) < HistogramSize(States, k)
    ensures EventAt(Histories, s, t, k) < HistogramSize(Histories, k)
    ensures EventAt(Futures, s, t, k) < HistogramSize(Futures, k)
  {
    var window := s[t..t + k];
    assert IsBinary(window) by {
      forall j | 0 <= j < k ensures window[j] <= 1 {
        assert window[j] == s[t + j];
      }
    }
    StateIsSum(s, t, k);
    assert s[t + k] <= 1;
    ShlBit(s[t + k], k);
  }

  /** On a binary series every tic lands inside its distribution. */
  lemma BinaryFits(s: seq<nat>, k: nat)
    requires k <= |s| && IsBinary(s)
    ensures FitsAll(s, k)
  {
    forall t | 0 <= t < |s| - k
      ensures Events(States, s, k)[t] < HistogramSize(States, k)
      ensures Events(Histories, s, k)[t] < HistogramSize(Histories, k)
      ensures Events(Futures, s, k)[t] < HistogramSize(Futures, k)
    {
      EventsAt(States, s, t, k);
      EventsAt(Histories, s, t, k);
      EventsAt(Futures, s, t, k);
      BinaryWindowFits(s, t, k);
    }
    AllBelowIntro(Events(States, s, k), HistogramSize(States, k));
    AllBelowIntro(Events(Histories, s, k), HistogramSize(Histories, k));
    AllBelowIntro(Events(Futures, s, k), HistogramSize(Futures, k));
  }

  /** Counting fills each histogram with the events of its own distribution. */
  lemma CountBins(o: Observations, s: seq<nat>, k: nat, kind: Kind)
    requires k <= |s| && Fits(o, s, k)
    ensures AllBelow(Events(kind, s, k), |Bins(o, kind)|)
    ensures Bins(Count(o, s, k), kind) == Tally(Bins(o, kind), Events(kind, s, k))
  {
  }

  /** Each of the three histograms receives exactly `|s| - k` tics, and bin `e`
      holds the number of windows whose event is `e`. */
  lemma ObserveCounts(s: seq<nat>, k: nat, kind: Kind, e: nat)
    requires k <= |s| && FitsAll(s, k)
    ensures Sum(Bins(Observe(s, k), kind)) == |s| - k
    ensures e < HistogramSize(kind, k) ==> Bins(Observe(s, k), kind)[e] == Hits(Events(kind, s, k), e)
  {
    CountBins(Fresh(k), s, k, kind);
    SumOfZeros(HistogramSize(kind, k));
    TallySum(Zeros(HistogramSize(kind, k)), Events(kind, s, k));
    if e < HistogramSize(kind, k) {
      TallyAt(Zeros(HistogramSize(kind, k)), Events(kind, s, k), e);
    }
  }

  /** A window whose event misses a histogram of `size` bins makes the series miss. */
  lemma WindowMisfit(kind: Kind, w: seq<nat>, t: nat, k: nat, size: nat, e: nat)
    requires t + k < |w| && e == EventAt(kind, w, t, k) && e >= size
    ensures !AllBelow(Events(kind, w, k), size)
  {
    EventsAt(kind, w, t, k);
    AllBelowAt(Events(kind, w, k), size, t);
  }

  /** Counting the event of the window at `t` into a histogram that holds
      `base` plus the events before it. */
  lemma WindowTallied(kind: Kind, w: seq<nat>, t: nat, k: nat, base: seq<nat>, hist: seq<nat>, e: nat)
    requires t + k < |w| && e == EventAt(kind, w, t, k) && e < |base|
    requires AllBelow(Events(kind, w[..t + k], k), |base|) && hist == Tally(base, Events(kind, w[..t + k], k))
    ensures AllBelow(Events(kind, w[..t + 1 + k], k), |base|)
    ensures hist[e := hist[e] + 1] == Tally(base, Events(kind, w[..t + 1 + k], k))
  {
    EventsExtend(kind, w, t, k);
    assert w[..t + 1 + k] == w[..t + k + 1];
    TallyStep(base, hist, Events(kind, w[..t + k], k), Events(kind, w[..t + 1 + k], k), e);
  }

  /** `d` holds `base` plus the events of the windows of `w[..n]`. */
  ghost predicate Counted(d: Distribution, kind: Kind, w: seq<nat>, n: nat, k: nat, base: seq<nat>)
    reads d
  {
    d.Valid() && Tallied(d.hist, kind, w, n, k, base)
  }

  /** One `tic` of the window at `t` into `d`, which so far holds `base` plus
      the events of the earlier windows. */
  method TicWindow(d: Distribution, ghost kind: Kind, ghost w: seq<nat>, ghost t: nat, ghost k: nat, ghost base: seq<nat>, e: nat)
    returns (x: Result<nat>)
    requires t + k < |w| && e == EventAt(kind, w, t, k)
    requires Counted(d, kind, w, t + k, k, base)
    modifies d
    ensures d.Valid() && |d.hist| == |base|
    ensures x.Ok? ==> e < |base| && Counted(d, kind, w, t + 1 + k, k, base)
    ensures x.Throws? ==> x.error == OutOfRange && !AllBelow(Events(kind, w, k), |base|)
    ensures x.Throws? ==> e >= |base| && Counted(d, kind, w, t + k, k, base)
  {
    ghost var before := d.hist;
    x := d.Tic(e);
    if x.Throws? {
      WindowMisfit(kind, w, t, k, |base|, e);
      return;
    }
    WindowTallied(kind, w, t, k, base, before, e);
  }

  /** The three tics of the window at `t`; the first that throws ends it. */
  method TicAll(states: Distribution, histories: Distribution, futures: Distribution,
                ghost w: seq<nat>, ghost t: nat, ghost k: nat, ghost hs: seq<nat>, ghost hh: seq<nat>, ghost hf: seq<nat>,
                state: nat, history: nat, future: nat)
    returns (r: Outcome)
    requires t + k < |w|
    requires state == EventAt(States, w, t, k) && history == EventAt(Histories, w, t, k)
    requires future == EventAt(Futures, w, t, k)
    requires states != histories && states != futures && histories != futures
    requires Counted(states, States, w, t + k, k, hs)
    requires Counted(histories, Histories, w, t + k, k, hh)
    requires Counted(futures, Futures, w, t + k, k, hf)
    modifies states, histories, futures
    ensures states.Valid() && histories.Valid() && futures.Valid()
    ensures r.Done? ==> Counted(states, States, w, t + 1 + k, k, hs)
    ensures r.Done? ==> Counted(histories, Histories, w, t + 1 + k, k, hh)
    ensures r.Done? ==> Counted(futures, Futures, w, t + 1 + k, k, hf)
    ensures r.Raised? ==> r == Raised(OutOfRange)
    ensures r.Raised? ==> !Fits(Observations(hs, hh, hf), w, k) && !WindowFits(Observations(hs, hh, hf), w, t, k)
    ensures r.Raised? ==> Counted(states, States, w, if state < |hs| then t + 1 + k else t + k, k, hs)
    ensures r.Raised? ==> Counted(histories, Histories, w, if state < |hs| && history < |hh| then t + 1 + k else t + k, k, hh)
    ensures r.Raised? ==> Counted(futures, Futures, w, t + k, k, hf)
  {
    var x := TicWindow(states, States, w, t, k, hs, state);
    if x.Throws? {
      return Raised(x.error);
    }
    x := TicWindow(histories, Histories, w, t, k, hh, history);
    if x.Throws? {
      return Raised(x.error);
    }
    x := TicWindow(futures, Futures, w, t, k, hf, future);
    if x.Throws? {
      return Raised(x.error);
    }
    return Done;
  }

  /** The window at `t` of `series[first..last)` read off `series` itself. */
  lemma WindowOfRange(series: seq<nat>, first: nat, last: nat, t: nat, k: nat)
    requires first + t + k < last <= |series|
    ensures EventAt(Histories, series[first..last], t, k) == Encode(series[first + t..first + t + k])
    ensures EventAt(Futures, series[first..last], t, k) == series[first + t + k]
  {
    var w := series[first..last];
    RunOfSlice(series, first, last, t, k, first + t);
    assert w[t + k] == series[first + t + k];
  }

  /** The state of a window from its history and its future. */
  lemma StateOfParts(s: seq<nat>, t: nat, k: nat, history: nat, future: nat)
    requires t + k < |s| && history == EventAt(Histories, s, t, k) && future == EventAt(Futures, s, t, k)
    ensures EventAt(States, s, t, k) == Xor(history, Shl(future, k))
  {
  }

  /** One turn of the loop of `active_information_distributions`: encode the
      window at `t` of `w == series[first..last)` and tic the three
      distributions, or report the exception that escapes. */
  method SlideWindow(series: seq<nat>, first: nat, last: nat, t: nat, k: nat,
                     states: Distribution, histories: Distribution, futures: Distribution,
                     ghost w: seq<nat>, ghost hs: seq<nat>, ghost hh: seq<nat>, ghost hf: seq<nat>)
    returns (r: Outcome)
    requires first + t + k < last <= |series| && w == series[first..last]
    requires states != histories && states != futures && histories != futures
    requires Counted(states, States, w, t + k, k, hs)
    requires Counted(histories, Histories, w, t + k, k, hh)
    requires Counted(futures, Futures, w, t + k, k, hf)
    modifies states, histories, futures
    ensures states.Valid() && histories.Valid() && futures.Valid()
    ensures r.Done? ==> 1 <= k <= MaxSize && Counted(states, States, w, t + 1 + k, k, hs)
    ensures r.Done? ==> Counted(histories, Histories, w, t + 1 + k, k, hh)
    ensures r.Done? ==> Counted(futures, Futures, w, t + 1 + k, k, hf)
    ensures r.Raised? ==> r == WindowsOutcome(w, k, Observations(hs, hh, hf))
    ensures r.Raised? ==> Fits(Observations(hs, hh, hf), w[..t + k], k)
    ensures r.Raised? ==> RaisedAt(r, w, t, k, Observations(hs, hh, hf), Observations(states.hist, histories.hist, futures.hist))
  {
    WindowOfRange(series, first, last, t, k);
    var h := EncodeRange(series, first + t, first + t + k);
    if h.Throws? {
      return Raised(h.error);
    }
    var history := h.value;
    var future := series[first + t + k];
    var state := Xor(history, Shl(future, k));
    StateOfParts(w, t, k, history, future);
    r := TicAll(states, histories, futures, w, t, k, hs, hh, hf, state, history, future);
    if r.Raised? {
      assert k != |w|;
    }
  }

  /** `active_information_distributions`: slide the window over
      `series[first..last)` one element at a time and tic the three
      distributions. An exception from `encode_state` or `tic` escapes. */
  method ActiveInformationDistributions(series: seq<nat>, first: nat, last: nat, k: nat,
                                        states: Distribution, histories: Distribution, futures: Distribution)
    returns (r: Outcome)
    requires first + k <= last <= |series|
    requires states.Valid() && histories.Valid() && futures.Valid()
    requires states != histories && states != futures && histories != futures
    modifies states, histories, futures
    ensures states.Valid() && histories.Valid() && futures.Valid()
    ensures WindowsRun(r, series[first..last], k, old(Observations(states.hist, histories.hist, futures.hist)),
                       Observations(states.hist, histories.hist, futures.hist))
    ensures r.Raised? ==> RaisedRun(r, series[first..last], k, old(Observations(states.hist, histories.hist, futures.hist)),
                                    Observations(states.hist, histories.hist, futures.hist))
  {
    ghost var w := series[first..last];
    ghost var hs, hh, hf := states.hist, histories.hist, futures.hist;
    var t := 0;
    while first + t + k != last
      invariant first + t + k <= last
      invariant t > 0 ==> 1 <= k <= MaxSize
      invariant Counted(states, States, w, t + k, k, hs)
      invariant Counted(histories, Histories, w, t + k, k, hh)
      invariant Counted(futures, Futures, w, t + k, k, hf)
      decreases last - (first + t + k)
    {
      r := SlideWindow(series, first, last, t, k, states, histories, futures, w, hs, hh, hf);
      if r.Raised? {
        RunRaisedAt(w, t, k, r, Observations(hs, hh, hf), Observations(states.hist, histories.hist, futures.hist));
        return;
      }
      t := t + 1;
    }
    WindowsDone(w, t, k, Observations(hs, hh, hf), Observations(states.hist, histories.hist, futures.hist));
    return Done;
  }

  /** The state a pass leaves when the window at `t` raised, with every
      window before it counted. */
  /** A pass that raised at the window at `t`, every earlier window counted,
      raised as `RaisedRun` says: at the first window with nothing counted
      when `encode_state` refused the history. */
  lemma RunRaisedAt(w: seq<nat>, t: nat, k: nat, r: Outcome, before: Observations, after: Observations)
    requires t + k < |w| && (t > 0 ==> 1 <= k <= MaxSize)
    requires Fits(before, w[..t + k], k) && RaisedAt(r, w, t, k, before, after)
    ensures RaisedRun(r, w, k, before, after)
  {
    if r == Raised(InvalidArgument) {
      assert Events(States, w[..k], k) == [] && Events(Histories, w[..k], k) == [] && Events(Futures, w[..k], k) == [];
    }
  }

  /** Once the window has reached the end of `w` with every tic counted, the
      pass is done and holds the count of all windows. */
  lemma WindowsDone(w: seq<nat>, t: nat, k: nat, before: Observations, after: Observations)
    requires t + k == |w| && (t > 0 ==> 1 <= k <= MaxSize)
    requires AllBelow(Events(States, w[..t + k], k), |before.states|)
    requires AllBelow(Events(Histories, w[..t + k], k), |before.histories|)
    requires AllBelow(Events(Futures, w[..t + k], k), |before.futures|)
    requires after.states == Tally(before.states, Events(States, w[..t + k], k))
    requires after.histories == Tally(before.histories, Events(Histories, w[..t + k], k))
    requires after.futures == Tally(before.futures, Events(Futures, w[..t + k], k))
    ensures WindowsRun(Done, w, k, before, after)
  {
    assert w[..t + k] == w;
  }

  /** `size - k <= 1` as the C++ code evaluates it: `size` is converted to
      `uint64_t`, so the difference wraps around modulo 2^64 when `k > size`. */
  predicate RejectsHistoryAsWritten(size: nat, k: nat)
  {
    (size - k) % 0x1_0000_0000_0000_0000 <= 1
  }

  /** The evidently intended guard: at least two values beyond the history. */
  predicate RejectsHistory(size: nat, k: nat)
  {
    size <= k + 1
  }

  /** The unsigned guard lets through every history longer than the series,
      and `first + k` then points past `last`. */
  lemma {:induction false} AsWrittenAdmitsLongHistory(size: nat, k: nat)
    requires 2 <= size < k < 0x1_0000_0000_0000_0000
    ensures !RejectsHistoryAsWritten(size, k) && RejectsHistory(size, k)
  {
    var M := 0x1_0000_0000_0000_0000;
    assert -M < size - k < 0;
    assert (size - k) % M == size - k + M;
  }

  /** When the history fits in the series the two guards agree. */
  lemma {:induction false} GuardsAgreeOnShortHistory(size: nat, k: nat)
    requires k <= size < 0x1_0000_0000_0000_0000
    ensures RejectsHistoryAsWritten(size, k) <==> RejectsHistory(size, k)
  {
    var M := 0x1_0000_0000_0000_0000;
    assert 0 <= size - k < M;
    assert (size - k) % M == size - k;
  }

  /** The result of the single-series `active_information` for `s`, before the
      mutual information is taken. */
  function SeriesOutcome(s: seq<nat>, k: nat): Result<Observations>
    requires k < |s|
  {
    if k == 0 || k > MaxSize then Throws(InvalidArgument)
    else if FitsAll(s, k) then Ok(Observe(s, k))
    else Throws(OutOfRange)
  }

  /** `active_information(first, last, k)` up to the distributions it hands to
      `mutual_information`: fewer than two values or fewer than two values
      beyond the history throw `invalid_argument`. */
  method ActiveInformation(series: seq<nat>, first: nat, last: nat, k: nat) returns (r: Result<Observations>)
    requires first <= |series| && last <= |series|
    ensures last <= first + 1 ==> r == Throws(InvalidArgument)
    ensures first + 1 < last && RejectsHistory(last - first, k) ==> r == Throws(InvalidArgument)
    ensures first + 1 < last && !RejectsHistory(last - first, k) ==> r == SeriesOutcome(series[first..last], k)
    ensures first + k + 1 < last && 1 <= k <= MaxSize && IsBinary(series[first..last]) ==> r.Ok?
  {
    if last <= first + 1 {
      return Throws(InvalidArgument);
    } else if RejectsHistory(last - first, k) {
      return Throws(InvalidArgument);
    }
    var rs := Distribution.OfSize(2 * Pow2(k));
    var rh := Distribution.OfSize(Pow2(k));
    var rf := Distribution.OfSize(2);
    var states, histories, futures := rs.value, rh.value, rf.value;
    assert Observations(states.hist, histories.hist, futures.hist) == Fresh(k);
    var o := ActiveInformationDistributions(series, first, last, k, states, histories, futures);
    if 1 <= k <= MaxSize && IsBinary(series[first..last]) {
      BinaryFits(series[first..last], k);
    }
    if o.Raised? {
      return Throws(o.error);
    }
    return Ok(Observations(states.hist, histories.hist, futures.hist));
  }

  /** The events of an ensemble of consecutive runs of `ts` values, every
      window taken inside one run: those of the runs before the last, then
      those of the last run. The model applies it to series whose length is
      a multiple of `ts`, where no values are left over. */
  function BlockEvents(kind: Kind, s: seq<nat>, ts: nat, k: nat): seq<nat>
    requires 0 < ts && k <= ts
    decreases |s|
  {
    if |s| < ts then []
    else BlockEvents(kind, s[..|s| - ts], ts, k) + Events(kind, s[|s| - ts..], k)
  }

  /** Every run contributes `ts - k` events. */
  lemma {:induction false} BlockEventsTimes(kind: Kind, s: seq<nat>, ts: nat, k: nat, r: nat)
    requires 0 < ts && k <= ts && |s| == Times(r, ts)
    ensures |BlockEvents(kind, s, ts, k)| == Times(r, ts - k)
  {
    if r > 0 {
      BlockEventsTimes(kind, s[..|s| - ts], ts, k, r - 1);
    }
  }

  /** Every event of every run names one of the bins of its distribution. */
  predicate BlocksFit(s: seq<nat>, ts: nat, k: nat)
    requires 0 < ts && k <= ts
  {
    && AllBelow(BlockEvents(States, s, ts, k), HistogramSize(States, k))
    && AllBelow(BlockEvents(Histories, s, ts, k), HistogramSize(Histories, k))
    && AllBelow(BlockEvents(Futures, s, ts, k), HistogramSize(Futures, k))
  }

  /** The runs up to the one starting at `j`, then that run. */
  lemma BlockEventsSnoc(kind: Kind, s: seq<nat>, j: nat, ts: nat, k: nat)
    requires 0 < ts && k <= ts && j + ts <= |s|
    ensures BlockEvents(kind, s[..j + ts], ts, k) == BlockEvents(kind, s[..j], ts, k) + Events(kind, s[j..j + ts], k)
  {
    var p := s[..j + ts];
    assert p[..|p| - ts] == s[..j];
    assert p[|p| - ts..] == s[j..j + ts];
  }

  /** The events of the runs before `j` come first among those of the ensemble. */
  lemma {:induction false} BlockEventsPrefix(kind: Kind, s: seq<nat>, j: nat, ts: nat, k: nat)
    requires 0 < ts && k <= ts && Multiple(|s|, ts) && Multiple(j, ts) && j <= |s|
    ensures |BlockEvents(kind, s[..j], ts, k)| <= |BlockEvents(kind, s, ts, k)|
    ensures BlockEvents(kind, s, ts, k)[..|BlockEvents(kind, s[..j], ts, k)|] == BlockEvents(kind, s[..j], ts, k)
    decreases |s|
  {
    if j == |s| {
      assert s[..j] == s;
    } else {
      MultiplesApart(|s|, j, ts);
      var front := s[..|s| - ts];
      assert front[..j] == s[..j];
      BlockEventsPrefix(kind, front, j, ts, k);
    }
  }

  /** A window of some run that misses its distribution makes the whole
      ensemble miss: no window spans two runs. */
  lemma {:induction false} BlockMisfit(kind: Kind, s: seq<nat>, j: nat, ts: nat, k: nat, size: nat, run: seq<nat>)
    requires 0 < ts && k <= ts && Multiple(|s|, ts) && Multiple(j, ts) && j + ts <= |s|
    requires run == s[j..j + ts] && !AllBelow(Events(kind, run, k), size)
    ensures !AllBelow(BlockEvents(kind, s, ts, k), size)
    decreases |s|, 1
  {
    var front, last := BlockEvents(kind, s[..|s| - ts], ts, k), Events(kind, s[|s| - ts..], k);
    assert BlockEvents(kind, s, ts, k) == front + last;
    AllBelowAppend(front, last, size);
    if j + ts == |s| {
      assert run == s[|s| - ts..];
      assert !AllBelow(last, size);
    } else {
      FrontMisfit(kind, s, j, ts, k, size, run);
    }
  }

  /** The same for a run before the last: it misses in the runs before the last. */
  lemma {:induction false} FrontMisfit(kind: Kind, s: seq<nat>, j: nat, ts: nat, k: nat, size: nat, run: seq<nat>)
    requires 0 < ts && k <= ts && Multiple(|s|, ts) && Multiple(j, ts) && j + ts < |s|
    requires run == s[j..j + ts] && !AllBelow(Events(kind, run, k), size)
    ensures !AllBelow(BlockEvents(kind, s[..|s| - ts], ts, k), size)
    decreases |s|, 0
  {
    MultiplesApart(|s|, j, ts);
    MultiplesApart(|s| - ts, j, ts);
    SlicesOfPrefix(s, |s| - ts, j, j + ts);
    BlockMisfit(kind, s[..|s| - ts], j, ts, k, size, run);
  }

  /** Counting one more run into a histogram that holds the runs before it. */
  lemma BlockStep(kind: Kind, s: seq<nat>, j: nat, ts: nat, k: nat, size: nat, before: seq<nat>, after: seq<nat>)
    requires 0 < ts && k <= ts && j + ts <= |s|
    requires AllBelow(BlockEvents(kind, s[..j], ts, k), size)
    requires before == Tally(Zeros(size), BlockEvents(kind, s[..j], ts, k))
    requires AllBelow(Events(kind, s[j..j + ts], k), size)
    requires after == Tally(before, Events(kind, s[j..j + ts], k))
    ensures AllBelow(BlockEvents(kind, s[..j + ts], ts, k), size)
    ensures after == Tally(Zeros(size), BlockEvents(kind, s[..j + ts], ts, k))
  {
    BlockEventsSnoc(kind, s, j, ts, k);
    TallyAppend(Zeros(size), BlockEvents(kind, s[..j], ts, k), Events(kind, s[j..j + ts], k));
  }

  /** The three histograms of an ensemble, counted run by run into fresh distributions. */
  function ObserveBlocks(s: seq<nat>, ts: nat, k: nat): Observations
    requires 0 < ts && k <= ts && BlocksFit(s, ts, k)
  {
    Observations(
      Tally(Zeros(HistogramSize(States, k)), BlockEvents(States, s, ts, k)),
      Tally(Zeros(HistogramSize(Histories, k)), BlockEvents(Histories, s, ts, k)),
      Tally(Zeros(HistogramSize(Futures, k)), BlockEvents(Futures, s, ts, k)))
  }

  /** With `r` runs of `ts` values, each ensemble histogram receives `ts - k` tics from every run. */
  lemma ObserveBlocksCounts(s: seq<nat>, ts: nat, k: nat, r: nat)
    requires 0 < ts && k <= ts && |s| == r * ts && BlocksFit(s, ts, k)
    ensures Sum(ObserveBlocks(s, ts, k).states) == r * (ts - k)
    ensures Sum(ObserveBlocks(s, ts, k).histories) == r * (ts - k)
    ensures Sum(ObserveBlocks(s, ts, k).futures) == r * (ts - k)
  {
    TimesMul(r, ts);
    BlockTallySum(States, s, ts, k, r);
    BlockTallySum(Histories, s, ts, k, r);
    BlockTallySum(Futures, s, ts, k, r);
    TimesMul(r, ts - k);
  }

  /** The fresh histogram of one kind of event receives `ts - k` tics from every run. */
  lemma BlockTallySum(kind: Kind, s: seq<nat>, ts: nat, k: nat, r: nat)
    requires 0 < ts && k <= ts && |s| == Times(r, ts)
    requires AllBelow(BlockEvents(kind, s, ts, k), HistogramSize(kind, k))
    ensures Sum(Tally(Zeros(HistogramSize(kind, k)), BlockEvents(kind, s, ts, k))) == Times(r, ts - k)
  {
    FreshTallySum(HistogramSize(kind, k), BlockEvents(kind, s, ts, k));
    BlockEventsTimes(kind, s, ts, k, r);
  }

  /** The result of the ensemble `active_information` for `s`, before the
      mutual information is taken. */
  function EnsembleOutcome(s: seq<nat>, ts: nat, k: nat): Result<Observations>
    requires 0 < ts && k <= ts
  {
    if k < ts && (k == 0 || k > MaxSize) then Throws(InvalidArgument) else CountRuns(s, ts, k)
  }

  /** The runs of `s` counted into fresh distributions, or the exception a
      misfit window raises. */
  function CountRuns(s: seq<nat>, ts: nat, k: nat): Result<Observations>
    requires 0 < ts && k <= ts
  {
    if BlocksFit(s, ts, k) then Ok(ObserveBlocks(s, ts, k)) else Throws(OutOfRange)
  }

  /** `h` holds the events of the runs of `w[..n]`, counted into fresh distributions. */
  ghost predicate CountedRuns(w: seq<nat>, n: nat, ts: nat, k: nat, h: Observations)
  {
    0 < ts && k <= ts && n <= |w| && forall p :: p == w[..n] ==> CountRuns(p, ts, k) == Ok(h)
  }

  /** What `CountedRuns` says, histogram by histogram. */
  lemma CountedFacts(w: seq<nat>, n: nat, ts: nat, k: nat, h: Observations)
    requires CountedRuns(w, n, ts, k, h)
    ensures BlocksFit(w[..n], ts, k)
    ensures h.states == Tally(Zeros(HistogramSize(States, k)), BlockEvents(States, w[..n], ts, k))
    ensures h.histories == Tally(Zeros(HistogramSize(Histories, k)), BlockEvents(Histories, w[..n], ts, k))
    ensures h.futures == Tally(Zeros(HistogramSize(Futures, k)), BlockEvents(Futures, w[..n], ts, k))
  {
    assert CountRuns(w[..n], ts, k) == Ok(h);
  }

  /** The histograms `CountedRuns` speaks of have the sizes the drivers allocate. */
  lemma CountedSizes(w: seq<nat>, n: nat, ts: nat, k: nat, h: Observations)
    requires CountedRuns(w, n, ts, k, h)
    ensures |h.states| == HistogramSize(States, k) && |h.histories| == HistogramSize(Histories, k)
    ensures |h.futures| == HistogramSize(Futures, k)
  {
    CountedFacts(w, n, ts, k, h);
  }

  /** A run some window of which misses the distributions `o` of the drivers'
      sizes makes the whole ensemble miss. */
  lemma RunMisfit(w: seq<nat>, j: nat, ts: nat, k: nat, run: seq<nat>, o: Observations)
    requires 0 < ts && k <= ts && Multiple(|w|, ts) && Multiple(j, ts) && j + ts <= |w| && run == w[j..j + ts]
    requires |o.states| == HistogramSize(States, k) && |o.histories| == HistogramSize(Histories, k)
    requires |o.futures| == HistogramSize(Futures, k)
    requires !Fits(o, run, k)
    ensures !BlocksFit(w, ts, k)
  {
    if !AllBelow(Events(States, run, k), |o.states|) {
      BlockMisfit(States, w, j, ts, k, HistogramSize(States, k), run);
    } else if !AllBelow(Events(Histories, run, k), |o.histories|) {
      BlockMisfit(Histories, w, j, ts, k, HistogramSize(Histories, k), run);
    } else {
      BlockMisfit(Futures, w, j, ts, k, HistogramSize(Futures, k), run);
    }
  }

  /** A run that raised: the exception is the one of the whole ensemble. */
  lemma RunRaised(o: Outcome, series: seq<nat>, first: nat, last: nat, start: nat, j: nat, ts: nat, k: nat,
                  before: Observations, after: Observations)
    requires first <= last <= |series| && 0 < ts && Multiple(last - first, ts) && Multiple(j, ts)
    requires start == first + j && j + ts <= last - first
    requires CountedRuns(series[first..last], j, ts, k, before)
    requires WindowsRun(o, series[start..start + ts], k, before, after) && o.Raised?
    ensures Throws(o.error) == EnsembleOutcome(series[first..last], ts, k)
  {
    var w, run := series[first..last], series[start..start + ts];
    if o.error == OutOfRange {
      CountedSizes(w, j, ts, k, before);
      RunOfSlice(series, first, last, j, ts, start);
      RunMisfit(w, j, ts, k, run, before);
    }
  }

  /** A run that finished: counted on top of the runs before it. */
  lemma RunDone(o: Outcome, series: seq<nat>, first: nat, last: nat, start: nat, j: nat, ts: nat, k: nat,
                before: Observations, after: Observations)
    requires first <= last <= |series| && 0 < ts && Multiple(last - first, ts) && Multiple(j, ts)
    requires start == first + j && j + ts <= last - first
    requires CountedRuns(series[first..last], j, ts, k, before)
    requires WindowsRun(o, series[start..start + ts], k, before, after) && o.Done?
    ensures Multiple(j + ts, ts) && !(k < ts && (k == 0 || k > MaxSize))
    ensures CountedRuns(series[first..last], j + ts, ts, k, after)
  {
    var w, run := series[first..last], series[start..start + ts];
    CountedFacts(w, j, ts, k, before);
    RunOfSlice(series, first, last, j, ts, start);
    DoneFits(run, k, before);
    BlockStep(States, w, j, ts, k, HistogramSize(States, k), before.states, after.states);
    BlockStep(Histories, w, j, ts, k, HistogramSize(Histories, k), before.histories, after.histories);
    BlockStep(Futures, w, j, ts, k, HistogramSize(Futures, k), before.futures, after.futures);
  }

  /** One turn of the ensemble loop: the run of `w == series[first..last)`
      starting at `start`, `j` values into it, goes through
      `active_information_distributions`. */
  method CountBlock(series: seq<nat>, first: nat, last: nat, start: nat, ts: nat, k: nat,
                    states: Distribution, histories: Distribution, futures: Distribution,
                    ghost w: seq<nat>, ghost j: nat)
    returns (o: Outcome)
    requires first <= last <= |series| && w == series[first..last] && 0 < ts && Multiple(|w|, ts)
    requires start == first + j && j < |w| && Multiple(j, ts)
    requires states != histories && states != futures && histories != futures
    requires states.Valid() && histories.Valid() && futures.Valid()
    requires CountedRuns(w, j, ts, k, Observations(states.hist, histories.hist, futures.hist))
    modifies states, histories, futures
    ensures states.Valid() && histories.Valid() && futures.Valid()
    ensures o.Done? ==> j + ts <= |w| && Multiple(j + ts, ts) && !(k < ts && (k == 0 || k > MaxSize))
    ensures o.Done? ==> CountedRuns(w, j + ts, ts, k, Observations(states.hist, histories.hist, futures.hist))
    ensures o.Raised? ==> Throws(o.error) == EnsembleOutcome(w, ts, k)
  {
    MultiplesApart(|w|, j, ts);
    o := ActiveInformationDistributions(series, start, start + ts, k, states, histories, futures);
    if o.Raised? {
      RunRaised(o, series, first, last, start, j, ts, k, old(Observations(states.hist, histories.hist, futures.hist)),
                Observations(states.hist, histories.hist, futures.hist));
    } else {
      RunDone(o, series, first, last, start, j, ts, k, old(Observations(states.hist, histories.hist, futures.hist)),
              Observations(states.hist, histories.hist, futures.hist));
    }
  }

  /** `active_information(first, last, time_steps, k)`: the series is an
      ensemble of consecutive runs of `time_steps` values; each run is counted
      on its own into the same three distributions. */
  method ActiveInformationEnsemble(series: seq<nat>, first: nat, last: nat, timeSteps: nat, k: nat)
    returns (r: Result<Observations>)
    requires first <= |series| && last <= |series|
    requires first + 1 < last && !RejectsHistory(last - first, k) ==> timeSteps > 0
    requires first + 1 < last && !RejectsHistory(last - first, k) && (last - first) % timeSteps == 0 ==> k <= timeSteps
    ensures last <= first + 1 ==> r == Throws(InvalidArgument)
    ensures first + 1 < last && RejectsHistory(last - first, k) ==> r == Throws(InvalidArgument)
    ensures first + 1 < last && !RejectsHistory(last - first, k) && (last - first) % timeSteps != 0
            ==> r == Throws(InvalidArgument)
    ensures first + 1 < last && !RejectsHistory(last - first, k) && (last - first) % timeSteps == 0
            ==> r == EnsembleOutcome(series[first..last], timeSteps, k)
  {
    if last <= first + 1 {
      return Throws(InvalidArgument);
    } else if RejectsHistory(last - first, k) {
      return Throws(InvalidArgument);
    } else if (last - first) % timeSteps != 0 {
      return Throws(InvalidArgument);
    }
    MultipleIsMod(last - first, timeSteps);
    var rs := Distribution.OfSize(2 * Pow2(k));
    var rh := Distribution.OfSize(Pow2(k));
    var rf := Distribution.OfSize(2);
    var states, histories, futures := rs.value, rh.value, rf.value;
    EmptyEnsemble(series[first..last], timeSteps, k);
    var o := CountEnsemble(series, first, last, timeSteps, k, states, histories, futures);
    if o.Raised? {
      return Throws(o.error);
    }
    return Ok(Observations(states.hist, histories.hist, futures.hist));
  }

  /** The loop of the ensemble `active_information`: one call of
      `active_information_distributions` per run, the first exception ending it. */
  method CountEnsemble(series: seq<nat>, first: nat, last: nat, ts: nat, k: nat,
                       states: Distribution, histories: Distribution, futures: Distribution)
    returns (r: Outcome)
    requires first < last <= |series| && 0 < ts && k <= ts && Multiple(last - first, ts)
    requires states != histories && states != futures && histories != futures
    requires states.Valid() && histories.Valid() && futures.Valid()
    requires CountedRuns(series[first..last], 0, ts, k, Observations(states.hist, histories.hist, futures.hist))
    modifies states, histories, futures
    ensures r.Done? ==> EnsembleOutcome(series[first..last], ts, k) == Ok(Observations(states.hist, histories.hist, futures.hist))
    ensures r.Raised? ==> EnsembleOutcome(series[first..last], ts, k) == Throws(r.error)
  {
    ghost var w := series[first..last];
    var start := first;
    ghost var j := 0;
    while start != last
      invariant start == first + j && j <= |w| && Multiple(j, ts)
      invariant j > 0 ==> !(k < ts && (k == 0 || k > MaxSize))
      invariant states.Valid() && histories.Valid() && futures.Valid()
      invariant CountedRuns(w, j, ts, k, Observations(states.hist, histories.hist, futures.hist))
      decreases last - start
    {
      r := CountBlock(series, first, last, start, ts, k, states, histories, futures, w, j);
      if r.Raised? {
        return;
      }
      start, j := start + ts, j + ts;
    }
    WholeEnsemble(w, j, ts, k, Observations(states.hist, histories.hist, futures.hist));
    return Done;
  }

  /** No runs counted yet: the fresh distributions. */
  lemma EmptyEnsemble(w: seq<nat>, ts: nat, k: nat)
    requires 0 < ts && k <= ts
    ensures CountedRuns(w, 0, ts, k, Fresh(k))
  {
    assert w[..0] == [];
  }

  /** Every run counted: the histograms of the whole ensemble. */
  lemma WholeEnsemble(w: seq<nat>, n: nat, ts: nat, k: nat, h: Observations)
    requires n == |w| && CountedRuns(w, n, ts, k, h)
    ensures CountRuns(w, ts, k) == Ok(h)
  {
    assert w[..|w|] == w;
  }
}
