/** Transfer entropy from `y` to `x` (`src/transfer_entropy.c`): a rolling
    base-`b` history of the last `k` values of `x`, together with the next
    value of `x` and the previous value of `y`, is counted into four
    histograms that share one zero-filled buffer. */
module TransferEntropy {
  import opened Bits
  import opened Histograms
  import opened Errors
  import opened Arith

  /** Every value of `s` is a digit of base `b`. */
  predicate Digits(s: seq<nat>, b: nat)
  {
    forall i :: 0 <= i < |s| ==> s[i] < b
  }

  /** A window of a series of digits is a series of digits. */
  lemma DigitsSlice(s: seq<nat>, b: nat, lo: nat, hi: nat)
    requires lo <= hi <= |s| && Digits(s, b)
    ensures Digits(s[lo..hi], b)
  {
    var w := s[lo..hi];
    forall j | 0 <= j < |w| ensures w[j] < b {
      assert w[j] == s[lo + j];
    }
  }

  /** `s` read as a base-`b` number, the last (newest) value least significant:
      what `history = history * b + x` computes value by value. */
  function BaseEnc(s: seq<nat>, b: nat): nat
  {
    if s == [] then 0 else BaseEnc(s[..|s| - 1], b) * b + s[|s| - 1]
  }

  /** Appending a digit shifts the number up by one place. */
  lemma BaseEncSnoc(s: seq<nat>, d: nat, b: nat)
    ensures BaseEnc(s + [d], b) == BaseEnc(s, b) * b + d
  {
    assert (s + [d])[..|s|] == s;
  }

  /** The oldest digit carries the weight `b^(|s|)` of the digits after it. */
  lemma {:induction false} BaseEncCons(d: nat, s: seq<nat>, b: nat)
    ensures BaseEnc([d] + s, b) == d * Pow(b, |s|) + BaseEnc(s, b)
  {
    if s != [] {
      var n := |s|;
      assert ([d] + s)[..n] == [d] + s[..n - 1];
      BaseEncCons(d, s[..n - 1], b);
      ShiftIn(d, Pow(b, n - 1), BaseEnc(s[..n - 1], b), b, s[n - 1]);
    }
  }

  /** Below `P`, one more digit stays below `P * b`. */
  lemma DigitStep(x: nat, P: nat, d: nat, b: nat)
    requires x < P && d < b
    ensures x * b + d < P * b
  {
    MulMono(x, P - 1, b);
    assert (P - 1) * b + b == P * b;
  }

  /** `k` digits of base `b` encode below `b^k`. */
  lemma {:induction false} BaseEncBound(s: seq<nat>, b: nat)
    requires Digits(s, b)
    ensures BaseEnc(s, b) < Pow(b, |s|)
  {
    if s != [] {
      var n := |s|;
      DigitsSlice(s, b, 0, n - 1);
      assert s[0..n - 1] == s[..n - 1];
      BaseEncBound(s[..n - 1], b);
      DigitStep(BaseEnc(s[..n - 1], b), Pow(b, n - 1), s[n - 1], b);
    }
  }

  /** The rolling update: shifting in `x[i]` and taking away the oldest digit
      `x[i-k] * b^k` leaves the encoding of the next window, and the
      subtraction never goes below zero. */
  lemma RollHistory(xs: seq<nat>, b: nat, k: nat, i: nat)
    requires k <= i < |xs|
    ensures BaseEnc(xs[i - k..i], b) * b + xs[i] >= xs[i - k] * Pow(b, k)
    ensures BaseEnc(xs[i - k..i], b) * b + xs[i] - xs[i - k] * Pow(b, k) == BaseEnc(xs[i - k + 1..i + 1], b)
  {
    var w := xs[i - k..i + 1];
    assert w[..k] == xs[i - k..i];
    assert w[..|w| - 1] == xs[i - k..i];
    assert w == [xs[i - k]] + xs[i - k + 1..i + 1];
    BaseEncCons(xs[i - k], xs[i - k + 1..i + 1], b);
  }

  /** The four histograms, in the order of the shared buffer. */
  datatype TeKind = TeStates | TeHistories | TeSources | TePredicates

  /** The observation of the window that ends just before `x[i]`: its
      history, with the next value `x[i]` and the previous value `y[i-1]`. */
  function TeEventAt(kind: TeKind, ys: seq<nat>, xs: seq<nat>, b: nat, k: nat, i: nat): nat
    requires 1 <= k <= i < |xs| && |ys| == |xs|
  {
    var history := BaseEnc(xs[i - k..i], b);
    match kind
    case TeStates => (history * b + xs[i]) * b + ys[i - 1]
    case TeHistories => history
    case TeSources => history * b + ys[i - 1]
    case TePredicates => history * b + xs[i]
  }

  /** The observations of `i = k .. |xs| - 1`, in the order they are counted. */
  function TeEvents(kind: TeKind, ys: seq<nat>, xs: seq<nat>, b: nat, k: nat): (e: seq<nat>)
    requires 1 <= k <= |xs| && |ys| == |xs|
    ensures |e| == |xs| - k
    decreases |xs|
  {
    if |xs| == k then []
    else TeEvents(kind, ys[..|ys| - 1], xs[..|xs| - 1], b, k) + [TeEventAt(kind, ys, xs, b, k, |xs| - 1)]
  }

  /** An observation inside a prefix is the one of the whole series. */
  lemma TeEventAtPrefix(kind: TeKind, ys: seq<nat>, xs: seq<nat>, b: nat, k: nat, p: nat, i: nat)
    requires 1 <= k <= i < p <= |xs| && |ys| == |xs|
    ensures TeEventAt(kind, ys[..p], xs[..p], b, k, i) == TeEventAt(kind, ys, xs, b, k, i)
  {
    assert xs[..p][i - k..i] == xs[i - k..i];
  }

  /** `q = pow(b, k)` and the sizes `b*b*q`, `q`, `b*q` and `b*q`. */
  function TeSize(kind: TeKind, b: nat, k: nat): nat
  {
    var q := Pow(b, k);
    match kind
    case TeStates => b * b * q
    case TeHistories => q
    case TeSources => b * q
    case TePredicates => b * q
  }

  /** With every value a digit of base `b`, each observation lands inside its histogram. */
  lemma TeEventBound(kind: TeKind, ys: seq<nat>, xs: seq<nat>, b: nat, k: nat, i: nat)
    requires 1 <= k <= i < |xs| && |ys| == |xs| && Digits(xs, b) && Digits(ys, b)
    ensures TeEventAt(kind, ys, xs, b, k, i) < TeSize(kind, b, k)
  {
    var window := xs[i - k..i];
    DigitsSlice(xs, b, i - k, i);
    BaseEncBound(window, b);
    var q, history := Pow(b, k), BaseEnc(window, b);
    assert xs[i] < b && ys[i - 1] < b;
    match kind
    case TeStates =>
      DigitStep(history, q, xs[i], b);
      DigitStep(history * b + xs[i], q * b, ys[i - 1], b);
      MulSquare(q, b);
    case TeHistories =>
    case TeSources =>
      DigitStep(history, q, ys[i - 1], b);
    case TePredicates =>
      DigitStep(history, q, xs[i], b);
  }

  /** The four histograms of one transfer-entropy computation. */
  datatype TeHistograms = TeHistograms(states: seq<nat>, histories: seq<nat>, sources: seq<nat>, predicates: seq<nat>)

  /** The histogram of `h` that observations of `kind` go to. */
  function Part(h: TeHistograms, kind: TeKind): seq<nat>
  {
    match kind
    case TeStates => h.states
    case TeHistories => h.histories
    case TeSources => h.sources
    case TePredicates => h.predicates
  }

  /** The histograms one after the other, as they lie in the shared buffer. */
  function Flatten(h: TeHistograms): seq<nat>
  {
    h.states + h.histories + h.sources + h.predicates
  }

  /** Where histogram `kind` starts in the shared buffer. */
  function Offset(kind: TeKind, b: nat, k: nat): nat
  {
    match kind
    case TeStates => 0
    case TeHistories => TeSize(TeStates, b, k)
    case TeSources => TeSize(TeStates, b, k) + TeSize(TeHistories, b, k)
    case TePredicates => TeSize(TeStates, b, k) + TeSize(TeHistories, b, k) + TeSize(TeSources, b, k)
  }

  /** `total_size`, the length of the shared buffer. */
  function TeTotal(b: nat, k: nat): nat
  {
    Offset(TePredicates, b, k) + TeSize(TePredicates, b, k)
  }

  /** Each histogram has the size the driver gives it. */
  predicate Shaped(h: TeHistograms, b: nat, k: nat)
  {
    && |h.states| == TeSize(TeStates, b, k) && |h.histories| == TeSize(TeHistories, b, k)
    && |h.sources| == TeSize(TeSources, b, k) && |h.predicates| == TeSize(TePredicates, b, k)
  }

  /** The shared buffer cut into its four histograms. */
  function Regions(d: seq<nat>, b: nat, k: nat): (h: TeHistograms)
    requires |d| == TeTotal(b, k)
    ensures Shaped(h, b, k)
  {
    var o1, o2, o3 := Offset(TeHistories, b, k), Offset(TeSources, b, k), Offset(TePredicates, b, k);
    TeHistograms(d[..o1], d[o1..o2], d[o2..o3], d[o3..])
  }

  /** Cutting the buffer and laying the pieces out again gives the buffer back,
      and the other way round. */
  lemma RegionsFlatten(d: seq<nat>, h: TeHistograms, b: nat, k: nat)
    requires |d| == TeTotal(b, k) && Shaped(h, b, k)
    ensures Flatten(Regions(d, b, k)) == d
    ensures |Flatten(h)| == TeTotal(b, k) && Regions(Flatten(h), b, k) == h
  {
    var o1, o2, o3 := Offset(TeHistories, b, k), Offset(TeSources, b, k), Offset(TePredicates, b, k);
    assert d[..o1] + d[o1..o2] + d[o2..o3] + d[o3..] == d;
    var f := Flatten(h);
    assert f[..o1] == h.states;
    assert f[o1..o2] == h.histories;
    assert f[o2..o3] == h.sources;
    assert f[o3..] == h.predicates;
  }

  /** One more observation of `e` in histogram `kind`. */
  function Bump(h: TeHistograms, kind: TeKind, e: nat): (r: TeHistograms)
    requires e < |Part(h, kind)|
    ensures Part(r, kind) == Part(h, kind)[e := Part(h, kind)[e] + 1]
    ensures |r.states| == |h.states| && |r.histories| == |h.histories|
    ensures |r.sources| == |h.sources| && |r.predicates| == |h.predicates|
  {
    match kind
    case TeStates => h.(states := h.states[e := h.states[e] + 1])
    case TeHistories => h.(histories := h.histories[e := h.histories[e] + 1])
    case TeSources => h.(sources := h.sources[e := h.sources[e] + 1])
    case TePredicates => h.(predicates := h.predicates[e := h.predicates[e] + 1])
  }

  /** Incrementing bin `e` of histogram `kind` is incrementing cell
      `Offset(kind) + e` of the shared buffer. */
  lemma FlattenBump(h: TeHistograms, kind: TeKind, e: nat, b: nat, k: nat)
    requires Shaped(h, b, k) && e < TeSize(kind, b, k)
    ensures Offset(kind, b, k) + e < |Flatten(h)|
    ensures Shaped(Bump(h, kind, e), b, k)
    ensures Flatten(Bump(h, kind, e)) == Flatten(h)[Offset(kind, b, k) + e := Flatten(h)[Offset(kind, b, k) + e] + 1]
  {
    var f, g, o := Flatten(h), Flatten(Bump(h, kind, e)), Offset(kind, b, k);
    assert |g| == |f|;
    forall j | 0 <= j < |f| ensures g[j] == f[o + e := f[o + e] + 1][j] {
    }
  }

  /** Four empty histograms of the driver's sizes, as `calloc` leaves them. */
  function TeEmpty(b: nat, k: nat): (h: TeHistograms)
    ensures Shaped(h, b, k) && Flatten(h) == Zeros(TeTotal(b, k))
  {
    var h := TeHistograms(Zeros(TeSize(TeStates, b, k)), Zeros(TeSize(TeHistories, b, k)),
                          Zeros(TeSize(TeSources, b, k)), Zeros(TeSize(TePredicates, b, k)));
    assert Flatten(h) == Zeros(TeTotal(b, k));
    h
  }

  /** The prefixes of a series of digits are series of digits. */
  lemma DigitsPrefixes(ys: seq<nat>, xs: seq<nat>, b: nat, i: nat)
    requires i <= |xs| && i <= |ys| && Digits(xs, b) && Digits(ys, b)
    ensures Digits(xs[..i], b) && Digits(ys[..i], b)
  {
    DigitsSlice(xs, b, 0, i);
    DigitsSlice(ys, b, 0, i);
    assert xs[0..i] == xs[..i] && ys[0..i] == ys[..i];
  }

  /** With every value a digit, every observation of `kind` lands in its histogram. */
  lemma {:induction false} TeEventsFit(kind: TeKind, ys: seq<nat>, xs: seq<nat>, b: nat, k: nat)
    requires 1 <= k <= |xs| && |ys| == |xs| && Digits(xs, b) && Digits(ys, b)
    ensures AllBelow(TeEvents(kind, ys, xs, b, k), TeSize(kind, b, k))
    decreases |xs|
  {
    if |xs| != k {
      var n := |xs|;
      DigitsPrefixes(ys, xs, b, n - 1);
      TeEventsFit(kind, ys[..n - 1], xs[..n - 1], b, k);
      TeEventBound(kind, ys, xs, b, k, n - 1);
      AllBelowAppend(TeEvents(kind, ys[..n - 1], xs[..n - 1], b, k), [TeEventAt(kind, ys, xs, b, k, n - 1)], TeSize(kind, b, k));
    }
  }

  /** `base` after counting the observations of `kind` of `xs` against `ys`. */
  function TeTally(base: seq<nat>, kind: TeKind, ys: seq<nat>, xs: seq<nat>, b: nat, k: nat): (r: seq<nat>)
    requires |base| == TeSize(kind, b, k) && 1 <= k <= |xs| && |ys| == |xs| && Digits(xs, b) && Digits(ys, b)
    ensures |r| == |base|
  {
    TeEventsFit(kind, ys, xs, b, k);
    Tally(base, TeEvents(kind, ys, xs, b, k))
  }

  /** `h` after counting every observation of `xs` against `ys`, each into its
      own histogram. */
  function TeCount(h: TeHistograms, ys: seq<nat>, xs: seq<nat>, b: nat, k: nat): (r: TeHistograms)
    requires Shaped(h, b, k) && 1 <= k <= |xs| && |ys| == |xs| && Digits(xs, b) && Digits(ys, b)
    ensures Shaped(r, b, k)
  {
    TeHistograms(TeTally(h.states, TeStates, ys, xs, b, k), TeTally(h.histories, TeHistories, ys, xs, b, k),
                 TeTally(h.sources, TeSources, ys, xs, b, k), TeTally(h.predicates, TePredicates, ys, xs, b, k))
  }

  /** The four increments of position `i`, in the order the source does them. */
  function TeObserve(h: TeHistograms, ys: seq<nat>, xs: seq<nat>, b: nat, k: nat, i: nat): (r: TeHistograms)
    requires Shaped(h, b, k) && 1 <= k <= i < |xs| && |ys| == |xs| && Digits(xs, b) && Digits(ys, b)
    ensures Shaped(r, b, k)
  {
    TeEventBound(TeStates, ys, xs, b, k, i);
    TeEventBound(TeHistories, ys, xs, b, k, i);
    TeEventBound(TeSources, ys, xs, b, k, i);
    TeEventBound(TePredicates, ys, xs, b, k, i);
    var s, hi, so, p := TeEventAt(TeStates, ys, xs, b, k, i), TeEventAt(TeHistories, ys, xs, b, k, i),
                        TeEventAt(TeSources, ys, xs, b, k, i), TeEventAt(TePredicates, ys, xs, b, k, i);
    TeHistograms(h.states[s := h.states[s] + 1], h.histories[hi := h.histories[hi] + 1],
                 h.sources[so := h.sources[so] + 1], h.predicates[p := h.predicates[p] + 1])
  }

  /** The four increments of position `i`, one histogram after the other. */
  lemma ObserveByBumps(h: TeHistograms, ys: seq<nat>, xs: seq<nat>, b: nat, k: nat, i: nat)
    requires Shaped(h, b, k) && 1 <= k <= i < |xs| && |ys| == |xs| && Digits(xs, b) && Digits(ys, b)
    ensures TeEventAt(TeStates, ys, xs, b, k, i) < |h.states| && TeEventAt(TeHistories, ys, xs, b, k, i) < |h.histories|
    ensures TeEventAt(TeSources, ys, xs, b, k, i) < |h.sources| && TeEventAt(TePredicates, ys, xs, b, k, i) < |h.predicates|
    ensures Bump(Bump(Bump(Bump(h, TeStates, TeEventAt(TeStates, ys, xs, b, k, i)),
                                TeHistories, TeEventAt(TeHistories, ys, xs, b, k, i)),
                           TeSources, TeEventAt(TeSources, ys, xs, b, k, i)),
                 TePredicates, TeEventAt(TePredicates, ys, xs, b, k, i))
         == TeObserve(h, ys, xs, b, k, i)
  {
    TeEventBound(TeStates, ys, xs, b, k, i);
    TeEventBound(TeHistories, ys, xs, b, k, i);
    TeEventBound(TeSources, ys, xs, b, k, i);
    TeEventBound(TePredicates, ys, xs, b, k, i);
  }

  /** The observations of a prefix one position longer: those of the
      shorter prefix, then the one of the new position. */
  lemma TeEventsSnoc(kind: TeKind, ys: seq<nat>, xs: seq<nat>, b: nat, k: nat, i: nat)
    requires 1 <= k <= i < |xs| && |ys| == |xs|
    ensures TeEvents(kind, ys[..i + 1], xs[..i + 1], b, k)
         == TeEvents(kind, ys[..i], xs[..i], b, k) + [TeEventAt(kind, ys, xs, b, k, i)]
  {
    TeEventAtPrefix(kind, ys, xs, b, k, i + 1, i);
    assert ys[..i + 1][..i] == ys[..i] && xs[..i + 1][..i] == xs[..i];
  }

  /** One histogram, one position longer: one more observation in its bin. */
  lemma TeTallySnoc(base: seq<nat>, kind: TeKind, ys: seq<nat>, xs: seq<nat>, b: nat, k: nat, i: nat)
    requires |base| == TeSize(kind, b, k) && 1 <= k <= i < |xs| && |ys| == |xs| && Digits(xs, b) && Digits(ys, b)
    requires Digits(xs[..i], b) && Digits(ys[..i], b) && Digits(xs[..i + 1], b) && Digits(ys[..i + 1], b)
    ensures TeEventAt(kind, ys, xs, b, k, i) < |base|
    ensures TeTally(base, kind, ys[..i + 1], xs[..i + 1], b, k)
         == TeTally(base, kind, ys[..i], xs[..i], b, k)[TeEventAt(kind, ys, xs, b, k, i) :=
              TeTally(base, kind, ys[..i], xs[..i], b, k)[TeEventAt(kind, ys, xs, b, k, i)] + 1]
  {
    TeEventBound(kind, ys, xs, b, k, i);
    TeEventsSnoc(kind, ys, xs, b, k, i);
    TeEventsFit(kind, ys[..i], xs[..i], b, k);
    TallySnoc(base, TeEvents(kind, ys[..i], xs[..i], b, k), TeEventAt(kind, ys, xs, b, k, i));
  }

  /** Each bin of a counted histogram holds its old count plus the number of
      observations that name it. */
  lemma TeTallyHits(base: seq<nat>, kind: TeKind, ys: seq<nat>, xs: seq<nat>, b: nat, k: nat, e: nat)
    requires |base| == TeSize(kind, b, k) && 1 <= k <= |xs| && |ys| == |xs| && Digits(xs, b) && Digits(ys, b)
    requires e < |base|
    ensures TeTally(base, kind, ys, xs, b, k)[e] == base[e] + Hits(TeEvents(kind, ys, xs, b, k), e)
  {
    TeEventsFit(kind, ys, xs, b, k);
    TallyAt(base, TeEvents(kind, ys, xs, b, k), e);
  }

  /** Counting a prefix one position longer is counting the shorter prefix and
      then the four increments of the new position. */
  lemma TeCountSnoc(h: TeHistograms, ys: seq<nat>, xs: seq<nat>, b: nat, k: nat, i: nat)
    requires Shaped(h, b, k) && 1 <= k <= i < |xs| && |ys| == |xs| && Digits(xs, b) && Digits(ys, b)
    ensures Digits(xs[..i], b) && Digits(ys[..i], b) && Digits(xs[..i + 1], b) && Digits(ys[..i + 1], b)
    ensures TeCount(h, ys[..i + 1], xs[..i + 1], b, k) == TeObserve(TeCount(h, ys[..i], xs[..i], b, k), ys, xs, b, k, i)
  {
    DigitsPrefixes(ys, xs, b, i);
    DigitsPrefixes(ys, xs, b, i + 1);
    TeTallySnoc(h.states, TeStates, ys, xs, b, k, i);
    TeTallySnoc(h.histories, TeHistories, ys, xs, b, k, i);
    TeTallySnoc(h.sources, TeSources, ys, xs, b, k, i);
    TeTallySnoc(h.predicates, TePredicates, ys, xs, b, k, i);
  }

  /** A series no longer than the history holds no observation. */
  lemma TeCountNone(h: TeHistograms, ys: seq<nat>, xs: seq<nat>, b: nat, k: nat)
    requires Shaped(h, b, k) && 1 <= k == |xs| && |ys| == |xs| && Digits(xs, b) && Digits(ys, b)
    ensures TeCount(h, ys, xs, b, k) == h
  {
  }

  /** Counting `xs` into one histogram raises its total by exactly `|xs| - k`. */
  lemma TeTallySum(base: seq<nat>, kind: TeKind, ys: seq<nat>, xs: seq<nat>, b: nat, k: nat)
    requires |base| == TeSize(kind, b, k) && 1 <= k <= |xs| && |ys| == |xs| && Digits(xs, b) && Digits(ys, b)
    ensures Sum(TeTally(base, kind, ys, xs, b, k)) == Sum(base) + |xs| - k
  {
    TeEventsFit(kind, ys, xs, b, k);
    TallySum(base, TeEvents(kind, ys, xs, b, k));
  }

  /** Counting `xs` raises the total of every histogram by exactly `|xs| - k`. */
  lemma TeCountSum(h: TeHistograms, ys: seq<nat>, xs: seq<nat>, b: nat, k: nat)
    requires Shaped(h, b, k) && 1 <= k <= |xs| && |ys| == |xs| && Digits(xs, b) && Digits(ys, b)
    ensures forall kind :: Sum(Part(TeCount(h, ys, xs, b, k), kind)) == Sum(Part(h, kind)) + |xs| - k
  {
    TeTallySum(h.states, TeStates, ys, xs, b, k);
    TeTallySum(h.histories, TeHistories, ys, xs, b, k);
    TeTallySum(h.sources, TeSources, ys, xs, b, k);
    TeTallySum(h.predicates, TePredicates, ys, xs, b, k);
  }

  /** `h` is `init` plus the observations of `xs[..i]` against `ys[..i]`. */
  ghost predicate TeCounted(init: TeHistograms, h: TeHistograms, ys: seq<nat>, xs: seq<nat>, i: nat, b: nat, k: nat)
  {
    && 1 <= k <= i <= |xs| && |ys| == |xs| && Digits(xs, b) && Digits(ys, b) && Shaped(init, b, k)
    && Digits(xs[..i], b) && Digits(ys[..i], b) && Shaped(h, b, k)
    && forall zs, ws :: zs == xs[..i] && ws == ys[..i] ==> h == TeCount(init, ws, zs, b, k)
  }

  /** Observing position `i` extends the count by one position. */
  lemma CountedStep(init: TeHistograms, h: TeHistograms, ys: seq<nat>, xs: seq<nat>, i: nat, b: nat, k: nat)
    requires TeCounted(init, h, ys, xs, i, b, k) && i < |xs|
    ensures TeCounted(init, TeObserve(h, ys, xs, b, k, i), ys, xs, i + 1, b, k)
  {
    TeCountSnoc(init, ys, xs, b, k, i);
  }

  /** An `inform_dist` as the driver sets it up over the shared buffer: where
      its bins start, how many there are, and the count it is given. */
  datatype DistView = DistView(offset: nat, size: nat, counts: nat)

  /** The four views cut a buffer of `len` cells into the four histograms. */
  predicate Views(len: nat, states: DistView, histories: DistView, sources: DistView, predicates: DistView,
                  b: nat, k: nat)
  {
    && len == TeTotal(b, k)
    && states.offset == Offset(TeStates, b, k) && states.size == TeSize(TeStates, b, k)
    && histories.offset == Offset(TeHistories, b, k) && histories.size == TeSize(TeHistories, b, k)
    && sources.offset == Offset(TeSources, b, k) && sources.size == TeSize(TeSources, b, k)
    && predicates.offset == Offset(TePredicates, b, k) && predicates.size == TeSize(TePredicates, b, k)
  }

  /** `dist->histogram[e]++` on the view of histogram `kind`. */
  method Increment(data: array<nat>, view: DistView, e: nat, ghost kind: TeKind, ghost b: nat, ghost k: nat,
                   ghost h: TeHistograms)
    requires view.offset == Offset(kind, b, k) && Shaped(h, b, k) && e < TeSize(kind, b, k)
    requires data[..] == Flatten(h)
    modifies data
    ensures data[..] == Flatten(Bump(h, kind, e))
  {
    FlattenBump(h, kind, e, b, k);
    data[view.offset + e] := data[view.offset + e] + 1;
  }

  /** One turn of the main loop of `accumulate_observations`: the four
      increments of position `i`, then the history rolled forward by one
      value. */
  method ObserveWindow(ys: seq<nat>, xs: seq<nat>, i: nat, b: nat, k: nat, history: nat, q: nat, data: array<nat>,
                       states: DistView, histories: DistView, sources: DistView, predicates: DistView,
                       ghost init: TeHistograms, ghost h: TeHistograms) returns (next: nat, ghost h': TeHistograms)
    requires Views(data.Length, states, histories, sources, predicates, b, k)
    requires i < |xs| && TeCounted(init, h, ys, xs, i, b, k) && data[..] == Flatten(h)
    requires q == Pow(b, k) && history == BaseEnc(xs[i - k..i], b)
    modifies data
    ensures TeCounted(init, h', ys, xs, i + 1, b, k) && data[..] == Flatten(h')
    ensures next == BaseEnc(xs[i + 1 - k..i + 1], b) && next < q
  {
    CountedStep(init, h, ys, xs, i, b, k);
    var yState := ys[i - 1];
    var future := xs[i];
    var state := (history * b + future) * b + yState;
    var source := history * b + yState;
    var pred := history * b + future;
    assert state == TeEventAt(TeStates, ys, xs, b, k, i) && history == TeEventAt(TeHistories, ys, xs, b, k, i);
    assert source == TeEventAt(TeSources, ys, xs, b, k, i) && pred == TeEventAt(TePredicates, ys, xs, b, k, i);
    ObserveByBumps(h, ys, xs, b, k, i);
    TeEventBound(TeStates, ys, xs, b, k, i);
    TeEventBound(TeHistories, ys, xs, b, k, i);
    TeEventBound(TeSources, ys, xs, b, k, i);
    TeEventBound(TePredicates, ys, xs, b, k, i);
    ghost var h1 := Bump(h, TeStates, state);
    ghost var h2 := Bump(h1, TeHistories, history);
    ghost var h3 := Bump(h2, TeSources, source);
    h' := Bump(h3, TePredicates, pred);
    Increment(data, states, state, TeStates, b, k, h);
    Increment(data, histories, history, TeHistories, b, k, h1);
    Increment(data, sources, source, TeSources, b, k, h2);
    Increment(data, predicates, pred, TePredicates, b, k, h3);
    RollNext(xs, b, k, i, history, q, pred);
    next := pred - xs[i - k] * q;
  }

  /** One more value read into the prologue's history and power. */
  lemma PrologueStep(xs: seq<nat>, b: nat, i: nat, history: nat, q: nat)
    requires i < |xs| && q == Pow(b, i) && history == BaseEnc(xs[..i], b)
    ensures q * b == Pow(b, i + 1) && history * b + xs[i] == BaseEnc(xs[..i + 1], b)
  {
    assert xs[..i + 1] == xs[..i] + [xs[i]];
    BaseEncSnoc(xs[..i], xs[i], b);
  }

  /** The prologue of `accumulate_observations`: `q = b^k` and the first `k`
      values of `x` read as a base-`b` number. */
  method Prologue(seriesX: seq<nat>, b: nat, k: nat) returns (history: nat, q: nat)
    requires k <= |seriesX| && Digits(seriesX, b)
    ensures q == Pow(b, k) && history == BaseEnc(seriesX[..k], b) && history < q
  {
    history, q := 0, 1;
    var i := 0;
    while i < k
      invariant i <= k && q == Pow(b, i) && history == BaseEnc(seriesX[..i], b)
    {
      PrologueStep(seriesX, b, i, history, q);
      q := q * b;
      history := history * b;
      history := history + seriesX[i];
      i := i + 1;
    }
    DigitsSlice(seriesX, b, 0, k);
    assert seriesX[0..k] == seriesX[..k];
    BaseEncBound(seriesX[..k], b);
  }

  /** The rolled history, stated on the values the loop holds. */
  lemma RollNext(xs: seq<nat>, b: nat, k: nat, i: nat, history: nat, q: nat, pred: nat)
    requires k <= i < |xs| && Digits(xs, b)
    requires q == Pow(b, k) && history == BaseEnc(xs[i - k..i], b) && pred == history * b + xs[i]
    ensures pred >= xs[i - k] * q
    ensures pred - xs[i - k] * q == BaseEnc(xs[i + 1 - k..i + 1], b) < q
  {
    RollHistory(xs, b, k, i);
    DigitsSlice(xs, b, i + 1 - k, i + 1);
    BaseEncBound(xs[i + 1 - k..i + 1], b);
  }

  /** The main loop of `accumulate_observations` from position `from` on. */
  method ObserveFrom(seriesY: seq<nat>, seriesX: seq<nat>, n: nat, b: nat, k: nat, from: nat, start: nat, q: nat,
                     data: array<nat>, states: DistView, histories: DistView,
                     sources: DistView, predicates: DistView, ghost init: TeHistograms, ghost h0: TeHistograms)
      returns (ghost h: TeHistograms)
    requires n == |seriesX| && k <= from <= n
    requires q == Pow(b, k) && start == BaseEnc(seriesX[from - k..from], b) && start < q
    requires Views(data.Length, states, histories, sources, predicates, b, k)
    requires TeCounted(init, h0, seriesY, seriesX, from, b, k) && data[..] == Flatten(h0)
    modifies data
    ensures TeCounted(init, h, seriesY, seriesX, n, b, k) && data[..] == Flatten(h)
  {
    var i, history := from, start;
    h := h0;
    while i < n
      invariant k <= i <= n && history == BaseEnc(seriesX[i - k..i], b) && history < q
      invariant TeCounted(init, h, seriesY, seriesX, i, b, k) && data[..] == Flatten(h)
      decreases n - i
    {
      history, h := ObserveWindow(seriesY, seriesX, i, b, k, history, q, data, states, histories, sources, predicates, init, h);
      i := i + 1;
    }
  }

  /** `accumulate_observations`: the prologue encodes the first `k` values
      of `x`, then each later position is observed and the history rolled;
      the buffer `data` holds the histograms `h` before and their counts
      after. */
  method AccumulateObservations(seriesY: seq<nat>, seriesX: seq<nat>, n: nat, b: nat, k: nat,
                                data: array<nat>, states: DistView, histories: DistView,
                                sources: DistView, predicates: DistView, ghost h: TeHistograms)
    requires n == |seriesX| == |seriesY| && 1 <= k <= n && Digits(seriesX, b) && Digits(seriesY, b)
    requires Views(data.Length, states, histories, sources, predicates, b, k)
    requires Shaped(h, b, k) && data[..] == Flatten(h)
    modifies data
    ensures data[..] == Flatten(TeCount(h, seriesY, seriesX, b, k))
  {
    var history, q := Prologue(seriesX, b, k);
    assert seriesX[..k] == seriesX[k - k..k];
    DigitsPrefixes(seriesY, seriesX, b, k);
    TeCountNone(h, seriesY[..k], seriesX[..k], b, k);
    ghost var h' := ObserveFrom(seriesY, seriesX, n, b, k, k, history, q, data, states, histories, sources, predicates, h, h);
    assert seriesX[..n] == seriesX && seriesY[..n] == seriesY;
  }

  /** The suffixes of a series of digits are series of digits. */
  lemma DigitsSuffixes(ys: seq<nat>, xs: seq<nat>, b: nat, i: nat)
    requires i <= |xs| && i <= |ys| && Digits(xs, b) && Digits(ys, b)
    ensures Digits(xs[i..], b) && Digits(ys[i..], b)
  {
    DigitsSlice(xs, b, i, |xs|);
    DigitsSlice(ys, b, i, |ys|);
    assert xs[i..|xs|] == xs[i..] && ys[i..|ys|] == ys[i..];
  }

  /** `h` after counting each run of `m` values of the ensemble on its own:
      a history never reaches across from one run into the next. */
  function TeRuns(h: TeHistograms, ys: seq<nat>, xs: seq<nat>, m: nat, b: nat, k: nat): (r: TeHistograms)
    requires Shaped(h, b, k) && 1 <= k <= m && |ys| == |xs| && Multiple(|xs|, m) && Digits(xs, b) && Digits(ys, b)
    ensures Shaped(r, b, k)
    decreases |xs|
  {
    if xs == [] then h
    else
      DigitsPrefixes(ys, xs, b, m);
      DigitsSuffixes(ys, xs, b, m);
      TeRuns(TeCount(h, ys[..m], xs[..m], b, k), ys[m..], xs[m..], m, b, k)
  }

  /** Counting the ensemble from the run at `off` on: that run, then the rest. */
  lemma TeRunsStep(h: TeHistograms, ys: seq<nat>, xs: seq<nat>, off: nat, m: nat, b: nat, k: nat)
    requires Shaped(h, b, k) && 1 <= k <= m && |ys| == |xs| && off + m <= |xs|
    requires Multiple(|xs| - off, m) && Digits(xs, b) && Digits(ys, b)
    ensures Digits(xs[off..], b) && Digits(ys[off..], b) && Digits(xs[off..off + m], b) && Digits(ys[off..off + m], b)
    ensures Digits(xs[off + m..], b) && Digits(ys[off + m..], b) && Multiple(|xs| - (off + m), m)
    ensures TeRuns(h, ys[off..], xs[off..], m, b, k)
         == TeRuns(TeCount(h, ys[off..off + m], xs[off..off + m], b, k), ys[off + m..], xs[off + m..], m, b, k)
  {
    DigitsSuffixes(ys, xs, b, off);
    DigitsSuffixes(ys, xs, b, off + m);
    DigitsSlice(xs, b, off, off + m);
    DigitsSlice(ys, b, off, off + m);
    assert xs[off..][..m] == xs[off..off + m] && ys[off..][..m] == ys[off..off + m];
    assert xs[off..][m..] == xs[off + m..] && ys[off..][m..] == ys[off + m..];
  }

  /** Counting an ensemble of `r` runs adds `r` times `m - k` observations to
      each histogram. */
  lemma {:induction false} TeRunsSum(h: TeHistograms, ys: seq<nat>, xs: seq<nat>, r: nat, m: nat, b: nat, k: nat)
    requires Shaped(h, b, k) && 1 <= k <= m && |ys| == |xs| == Times(r, m) && Digits(xs, b) && Digits(ys, b)
    ensures Multiple(|xs|, m)
    ensures forall kind :: Sum(Part(TeRuns(h, ys, xs, m, b, k), kind)) == Sum(Part(h, kind)) + Times(r, m - k)
    decreases r
  {
    if r > 0 {
      DigitsPrefixes(ys, xs, b, m);
      DigitsSuffixes(ys, xs, b, m);
      var h' := TeCount(h, ys[..m], xs[..m], b, k);
      TeCountSum(h, ys[..m], xs[..m], b, k);
      TeRunsSum(h', ys[m..], xs[m..], r - 1, m, b, k);
    }
  }

  /** An ensemble of one run is that run counted. */
  lemma TeRunsOne(h: TeHistograms, ys: seq<nat>, xs: seq<nat>, b: nat, k: nat)
    requires Shaped(h, b, k) && 1 <= k <= |xs| && |ys| == |xs| && Digits(xs, b) && Digits(ys, b)
    ensures Multiple(|xs|, |xs|)
    ensures TeRuns(h, ys, xs, |xs|, b, k) == TeCount(h, ys, xs, b, k)
  {
    var m := |xs|;
    assert Multiple(m - m, m);
    assert xs[..m] == xs && ys[..m] == ys;
    DigitsSuffixes(ys, xs, b, m);
    assert xs[m..] == [];
  }

  /** `h` is the count of the runs before `off`: counting the runs from
      `off` on into it gives `final`. */
  ghost predicate RunsLeft(h: TeHistograms, ys: seq<nat>, xs: seq<nat>, off: nat, m: nat, b: nat, k: nat,
                           final: TeHistograms)
  {
    && off <= |xs| && |ys| == |xs| && 1 <= k <= m && Multiple(|xs| - off, m) && Shaped(h, b, k)
    && Digits(xs[off..], b) && Digits(ys[off..], b)
    && forall zs, ws :: zs == xs[off..] && ws == ys[off..] ==> TeRuns(h, ws, zs, m, b, k) == final
  }

  /** Before the first run, every run is left. */
  lemma RunsStart(h: TeHistograms, ys: seq<nat>, xs: seq<nat>, m: nat, b: nat, k: nat)
    requires Shaped(h, b, k) && 1 <= k <= m && |ys| == |xs| && Multiple(|xs|, m) && Digits(xs, b) && Digits(ys, b)
    ensures RunsLeft(h, ys, xs, 0, m, b, k, TeRuns(h, ys, xs, m, b, k))
  {
    assert xs[0..] == xs && ys[0..] == ys;
  }

  /** With no run left, the histograms are the final ones. */
  lemma RunsDone(h: TeHistograms, ys: seq<nat>, xs: seq<nat>, m: nat, b: nat, k: nat, final: TeHistograms)
    requires RunsLeft(h, ys, xs, |xs|, m, b, k, final)
    ensures h == final
  {
    var zs, ws := xs[|xs|..], ys[|xs|..];
    assert zs == [] && ws == [];
    assert TeRuns(h, ws, zs, m, b, k) == final;
  }

  /** One turn of the loop over the initial conditions: the run at `off`. */
  method AccumulateRun(ys: seq<nat>, xs: seq<nat>, off: nat, m: nat, b: nat, k: nat, data: array<nat>,
                       states: DistView, histories: DistView, sources: DistView, predicates: DistView,
                       ghost h: TeHistograms, ghost final: TeHistograms) returns (ghost h': TeHistograms)
    requires off + m <= |xs| && Digits(xs, b) && Digits(ys, b)
    requires Views(data.Length, states, histories, sources, predicates, b, k)
    requires RunsLeft(h, ys, xs, off, m, b, k, final) && data[..] == Flatten(h)
    modifies data
    ensures RunsLeft(h', ys, xs, off + m, m, b, k, final) && data[..] == Flatten(h')
  {
    TeRunsStep(h, ys, xs, off, m, b, k);
    AccumulateObservations(ys[off..off + m], xs[off..off + m], m, b, k, data,
                           states, histories, sources, predicates, h);
    h' := TeCount(h, ys[off..off + m], xs[off..off + m], b, k);
  }

  /** Run `i` of `n` starts at `off` and ends inside the ensemble. */
  lemma NextRun(len: nat, n: nat, i: nat, m: nat, off: nat)
    requires i < n && off <= len && len - off == Times(n - i, m)
    ensures off + m <= len && len - (off + m) == Times(n - (i + 1), m)
  {
  }

  /** The loop over the initial conditions: run `i` is the `m` values at
      `i * m`, counted on top of the runs before it. */
  method AccumulateRuns(ys: seq<nat>, xs: seq<nat>, n: nat, m: nat, b: nat, k: nat, data: array<nat>,
                        states: DistView, histories: DistView, sources: DistView, predicates: DistView,
                        ghost h0: TeHistograms)
    requires 1 <= k <= m && |ys| == |xs| == Times(n, m) && Digits(xs, b) && Digits(ys, b)
    requires Views(data.Length, states, histories, sources, predicates, b, k)
    requires Shaped(h0, b, k) && data[..] == Flatten(h0)
    modifies data
    ensures Multiple(|xs|, m)
    ensures data[..] == Flatten(TeRuns(h0, ys, xs, m, b, k))
  {
    MultipleOfTimes(n, m);
    ghost var final := TeRuns(h0, ys, xs, m, b, k);
    ghost var h := h0;
    RunsStart(h0, ys, xs, m, b, k);
    var i, off := 0, 0;
    while i < n
      invariant i <= n && off <= |xs| && |xs| - off == Times(n - i, m)
      invariant RunsLeft(h, ys, xs, off, m, b, k, final) && data[..] == Flatten(h)
    {
      NextRun(|xs|, n, i, m, off);
      h := AccumulateRun(ys, xs, off, m, b, k, data, states, histories, sources, predicates, h, final);
      i, off := i + 1, off + m;
    }
    RunsDone(h, ys, xs, m, b, k, final);
  }

  /** The four histograms a transfer-entropy computation hands to
      `inform_shannon`, with the number of observations `N` each holds. */
  datatype TeDists = TeDists(hist: TeHistograms, counts: nat)

  /** The checks of `inform_transfer_entropy_ensemble`, in order: code 1 for a
      missing series, 2 for fewer than two steps or no initial condition, 3
      for a history that is not shorter than a run or is empty, 4 for a
      history too long for the base (`tooLong`, the floating-point test
      `k > 25 / log2l(b)`), 6 for a value that is not a digit, 7 when the
      buffer cannot be allocated; `None` when every check passes. */
  function TeCheck(present: bool, n: nat, m: nat, k: nat, tooLong: bool, digits: bool, allocFails: bool): (c: Option<nat>)
    ensures c.Some? ==> c.value in {1, 2, 3, 4, 6, 7}
  {
    if !present then Some(1)
    else if m <= 1 || n < 1 then Some(2)
    else if m <= k || k == 0 then Some(3)
    else if tooLong then Some(4)
    else if !digits then Some(6)
    else if allocFails then Some(7)
    else None
  }

  /** The checks as the driver writes them: no test for an empty history. */
  function TeCheckAsWritten(present: bool, n: nat, m: nat, k: nat, tooLong: bool, digits: bool, allocFails: bool): (c: Option<nat>)
    ensures c.Some? ==> c.value in {1, 2, 3, 4, 6, 7}
  {
    if !present then Some(1)
    else if m <= 1 || n < 1 then Some(2)
    else if m <= k then Some(3)
    else if tooLong then Some(4)
    else if !digits then Some(6)
    else if allocFails then Some(7)
    else None
  }

  /** Every check passes exactly when both series are there, there is at
      least one run of at least two steps, the history is at least one and
      shorter than a run, every value is a digit and the buffer is allocated. */
  lemma TeCheckPasses(present: bool, n: nat, m: nat, k: nat, tooLong: bool, digits: bool, allocFails: bool)
    ensures TeCheck(present, n, m, k, tooLong, digits, allocFails).None?
        <==> present && n >= 1 && m >= 2 && 1 <= k < m && !tooLong && digits && !allocFails
  {
  }

  /** The index of `y` the driver reads at position `i` of a run: `series_y[i-1]`.
      The positions of a run are `k <= i < m`. */
  function SourceIndex(i: nat): int
  {
    i - 1
  }

  /** As written, an empty history passes every check for every series that
      passes the others, and the first position, `i = k = 0`, reads `y` one
      before the start of the run. */
  lemma TeAcceptsEmptyHistoryAsWritten(n: nat, m: nat)
    requires n >= 1 && m >= 2
    ensures TeCheckAsWritten(true, n, m, 0, false, true, false).None?
    ensures !(0 <= SourceIndex(0) < m)
  {
  }

  /** With the empty history rejected, a series that passes the checks reads
      `y` only inside the run at each of its positions, and the two checks
      differ only at the empty history. */
  lemma TeCheckReadsInside(present: bool, n: nat, m: nat, k: nat, tooLong: bool, digits: bool, allocFails: bool)
    ensures TeCheck(present, n, m, k, tooLong, digits, allocFails).None? ==>
              forall i :: k <= i < m ==> 0 <= SourceIndex(i) < m
    ensures k != 0 ==>
              TeCheck(present, n, m, k, tooLong, digits, allocFails)
              == TeCheckAsWritten(present, n, m, k, tooLong, digits, allocFails)
  {
  }

  /** What `inform_transfer_entropy_ensemble` computes, up to the entropies:
      the failing check's code, or the histograms of the `n` runs of `m`
      values counted from empty, each with count `n * (m - k)`. */
  function TeEnsembleOutcome(nodeY: Option<seq<nat>>, nodeX: Option<seq<nat>>, n: nat, m: nat, b: nat, k: nat,
                             tooLong: bool, allocFails: bool): (r: Coded<TeDists>)
    requires nodeY.Some? ==> |nodeY.value| == n * m
    requires nodeX.Some? ==> |nodeX.value| == n * m
  {
    var present := nodeY.Some? && nodeX.Some?;
    var digits := present && Digits(nodeX.value, b) && Digits(nodeY.value, b);
    match TeCheck(present, n, m, k, tooLong, digits, allocFails)
    case Some(code) => Nan(code)
    case None =>
      TeCheckPasses(present, n, m, k, tooLong, digits, allocFails);
      MultipleOfProduct(n, m);
      MulAtLeast(n, m - k);
      Value(TeDists(TeRuns(TeEmpty(b, k), nodeY.value, nodeX.value, m, b, k), n * (m - k)))
  }

  /** Each histogram of a computed ensemble totals its count, and the count
      is the number of windows `n * (m - k)`. */
  lemma TeEnsembleCounts(nodeY: Option<seq<nat>>, nodeX: Option<seq<nat>>, n: nat, m: nat, b: nat, k: nat,
                         tooLong: bool, allocFails: bool)
    requires nodeY.Some? ==> |nodeY.value| == n * m
    requires nodeX.Some? ==> |nodeX.value| == n * m
    ensures TeEnsembleOutcome(nodeY, nodeX, n, m, b, k, tooLong, allocFails).Value? ==>
              var d := TeEnsembleOutcome(nodeY, nodeX, n, m, b, k, tooLong, allocFails).value;
              && Shaped(d.hist, b, k) && d.counts == n * (m - k) && d.counts > 0
              && forall kind :: Sum(Part(d.hist, kind)) == d.counts
  {
    var r := TeEnsembleOutcome(nodeY, nodeX, n, m, b, k, tooLong, allocFails);
    if r.Value? {
      var e := TeEmpty(b, k);
      forall kind ensures Sum(Part(e, kind)) == 0 {
        SumOfZeros(TeSize(kind, b, k));
      }
      TimesMul(n, m);
      TimesMul(n, m - k);
      TeRunsSum(e, nodeY.value, nodeX.value, n, m, b, k);
      MulAtLeast(n, m - k);
    }
  }

  /** A failing check leaves no histograms: the code is the check's. */
  lemma TeEnsembleFails(nodeY: Option<seq<nat>>, nodeX: Option<seq<nat>>, n: nat, m: nat, b: nat, k: nat,
                        tooLong: bool, allocFails: bool)
    requires nodeY.Some? ==> |nodeY.value| == n * m
    requires nodeX.Some? ==> |nodeX.value| == n * m
    ensures (nodeY.None? || nodeX.None?) ==> TeEnsembleOutcome(nodeY, nodeX, n, m, b, k, tooLong, allocFails) == Nan(1)
    ensures TeEnsembleOutcome(nodeY, nodeX, n, m, b, k, tooLong, allocFails).Value?
        <==> nodeY.Some? && nodeX.Some? && n >= 1 && m >= 2 && 1 <= k < m && !tooLong
             && Digits(nodeX.value, b) && Digits(nodeY.value, b) && !allocFails
  {
  }

  /** The digit check over the `len` values of both series. */
  method CheckDigits(ys: seq<nat>, xs: seq<nat>, len: nat, b: nat) returns (ok: bool)
    requires len == |xs| == |ys|
    ensures ok <==> Digits(xs, b) && Digits(ys, b)
  {
    var i := 0;
    while i < len
      invariant i <= len
      invariant forall j :: 0 <= j < i ==> xs[j] < b && ys[j] < b
    {
      if b <= xs[i] || b <= ys[i] {
        return false;
      }
      i := i + 1;
    }
    return true;
  }

  /** `inform_transfer_entropy_ensemble` up to the four histograms it hands
      to `inform_shannon`: the checks, one zero-filled buffer cut into four
      views of count `N = n * (m - k)`, and each run counted into it. */
  method InformTransferEntropyEnsemble(nodeY: Option<seq<nat>>, nodeX: Option<seq<nat>>, n: nat, m: nat, b: nat, k: nat,
                                       tooLong: bool, allocFails: bool) returns (r: Coded<TeDists>)
    requires nodeY.Some? ==> |nodeY.value| == n * m
    requires nodeX.Some? ==> |nodeX.value| == n * m
    ensures r == TeEnsembleOutcome(nodeY, nodeX, n, m, b, k, tooLong, allocFails)
  {
    if nodeX.None? || nodeY.None? {
      return Nan(1);
    } else if m <= 1 || n < 1 {
      return Nan(2);
    } else if m <= k || k == 0 {
      return Nan(3);
    } else if tooLong {
      return Nan(4);
    }
    var ys, xs := nodeY.value, nodeX.value;
    var ok := CheckDigits(ys, xs, n * m, b);
    if !ok {
      return Nan(6);
    }
    var N := n * (m - k);
    var q := Pow(b, k);
    var statesSize, historiesSize, sourcesSize, predicatesSize := b * b * q, q, b * q, b * q;
    var totalSize := statesSize + historiesSize + sourcesSize + predicatesSize;
    if allocFails {
      return Nan(7);
    }
    var data := new nat[totalSize](_ => 0);
    var states := DistView(0, statesSize, N);
    var histories := DistView(statesSize, historiesSize, N);
    var sources := DistView(statesSize + historiesSize, sourcesSize, N);
    var predicates := DistView(statesSize + historiesSize + sourcesSize, predicatesSize, N);
    ghost var empty := TeEmpty(b, k);
    assert data[..] == Flatten(empty);
    TimesMul(n, m);
    AccumulateRuns(ys, xs, n, m, b, k, data, states, histories, sources, predicates, empty);
    ghost var final := TeRuns(empty, ys, xs, m, b, k);
    RegionsFlatten(data[..], final, b, k);
    return Value(TeDists(Regions(data[..], b, k), N));
  }

  /** `inform_transfer_entropy`: one series, the ensemble of a single run. */
  method InformTransferEntropy(nodeY: Option<seq<nat>>, nodeX: Option<seq<nat>>, n: nat, b: nat, k: nat,
                               tooLong: bool, allocFails: bool) returns (r: Coded<TeDists>)
    requires nodeY.Some? ==> |nodeY.value| == n
    requires nodeX.Some? ==> |nodeX.value| == n
    ensures r == TeEnsembleOutcome(nodeY, nodeX, 1, n, b, k, tooLong, allocFails)
  {
    r := InformTransferEntropyEnsemble(nodeY, nodeX, 1, n, b, k, tooLong, allocFails);
  }

  /** A single series is counted as one run from empty histograms. */
  lemma TeSingleRun(nodeY: seq<nat>, nodeX: seq<nat>, n: nat, b: nat, k: nat, tooLong: bool, allocFails: bool)
    requires |nodeY| == n && |nodeX| == n
    ensures TeEnsembleOutcome(Some(nodeY), Some(nodeX), 1, n, b, k, tooLong, allocFails).Value? ==>
              && Digits(nodeX, b) && Digits(nodeY, b) && 1 <= k <= n
              && TeEnsembleOutcome(Some(nodeY), Some(nodeX), 1, n, b, k, tooLong, allocFails)
                 == Value(TeDists(TeCount(TeEmpty(b, k), nodeY, nodeX, b, k), n - k))
  {
    var r := TeEnsembleOutcome(Some(nodeY), Some(nodeX), 1, n, b, k, tooLong, allocFails);
    if r.Value? {
      TeEnsembleFails(Some(nodeY), Some(nodeX), 1, n, b, k, tooLong, allocFails);
      TeRunsOne(TeEmpty(b, k), nodeY, nodeX, b, k);
      assert r.value.hist == TeRuns(TeEmpty(b, k), nodeY, nodeX, n, b, k);
    }
  }
}
