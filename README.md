# Inform: distributions, state encoding, active information, transfer entropy and the PID lattice

A Dafny model of the core of the Inform information-theory library:

- the empirical probability `distribution` class (a histogram of event
  counts with its running total);
- `encode_state`, which reads a binary state as a number, the first
  element least significant;
- active information, in the C++ header (`active_information` and
  `active_information_distributions`, for one series and for an ensemble)
  and in the C library (`inform_active_info` and
  `inform_active_info_ensemble`), up to the mutual information taken from
  the three distributions it fills;
- transfer entropy (`inform_transfer_entropy` and its ensemble form), up to
  the entropies taken from the four histograms it fills in one shared
  buffer;
- the partial-information-decomposition lattice: `pid_source_alloc`,
  `pid_sources` with its recursion `pid_sources_rec`, the order
  `name_below`/`below` and `pid_toposort`.

Counts and states are unbounded naturals and series are sequences. Each C++
exception becomes a `Result` (`Throws(InvalidArgument)`,
`Throws(OutOfRange)`), and each C `nan(code)` becomes `Nan(code)`. Objects
the source mutates are Dafny classes: `Distributions.Distribution` and
`ActiveInfoC.InformDist`. The transfer-entropy buffer is an
`array<nat>`, and the toposort works in place on an `array<Source>`.
Each loop is a `while` loop, proved against a specification function on
sequences: `Events`, `Count`/`Observe`, `BlockEvents`/`ObserveBlocks`,
`TeEvents`/`TeCount`/`TeRuns`, `Gen`/`Blocks`/`Names`.

Module layout:

| file | module | what |
|---|---|---|
| `bits.dfy` | `Bits` | powers of two, shift, `&`, `^`, submasks |
| `arith.dfy` | `Arith` | multiples and products |
| `seqs.dfy` | `Seqs` | slices of slices |
| `histograms.dfy` | `Histograms` | bin totals; counting a run of events into bins |
| `errors.dfy` | `Errors` | exceptions, results, C error codes |
| `distribution.dfy` | `Distributions` | the `distribution` class |
| `state_encoding.dfy` | `StateEncoding` | `encode_state` |
| `time_series.dfy` | `ActiveInfo` | the C++ active information |
| `time_series_c.dfy` | `ActiveInfoC` | the C active information |
| `transfer_entropy.dfy` | `TransferEntropy` | transfer entropy |
| `pid.dfy` | `Pid` | the PID sources and their order |

## Model

| member | source | states |
|---|---|---|
| Distributions.Accumulate | src/distribution.cpp:26 | `std::accumulate` over the bins is their total `Sum` |
| Distributions.Distribution.OfSize | src/distribution.cpp:10-17 | size 0 throws `invalid_argument`; otherwise `n` zero bins, count 0, not valid for an entropy |
| Distributions.Distribution.FromCounts | src/distribution.cpp:19-37 | no bins throws; otherwise the bins are copied and the count is their total |
| Distributions.Distribution.FromRange | include/inform/distribution.h:55-64 | an empty range throws; otherwise the bins are the range and the count is their total |
| Distributions.Distribution.IsValid | src/distribution.cpp:39-42 | valid exactly when some bin is positive (the count is non-zero; the size never is) |
| Distributions.Distribution.Size | src/distribution.cpp:44-47 | the number of bins, never 0 |
| Distributions.Distribution.Count | src/distribution.cpp:49-52 | the count is the total of the bins |
| Distributions.Distribution.Get | src/distribution.cpp:69-72 | the bin's count for a known event, `out_of_range` exactly for an unknown one |
| Distributions.Distribution.Tic | src/distribution.cpp:54-59 | adds `n` (default 1) to one bin and to the count and returns the new bin; an unknown event throws and nothing changes |
| Distributions.Distribution.Set | src/distribution.cpp:61-67 | overwrites one bin, moves the count by the difference, returns the value; an unknown event throws and nothing changes |
| Distributions.Distribution.Copy | include/inform/distribution.h:34 | the defaulted copy: a new object with the same bins and count |
| Distributions.SetTwice | src/distribution.cpp:61-67 | `set` is idempotent: a second equal `set` returns the same and changes nothing |
| Distributions.TicCopy | include/inform/distribution.h:34 | a copy is independent: ticking it leaves the original as it was |
| StateEncoding.EncodeRange | include/inform/state_encoding.h:11-37 | an empty range and one longer than 64 throw `invalid_argument`; otherwise the result is `Encode` of the range |
| StateEncoding.EncodeContainer | include/inform/state_encoding.h:39-43 | the container overload is the range overload on the whole container |
| StateEncoding.EncodeCons | include/inform/state_encoding.h:30-36 | the first element is the least significant bit: prepending `d` gives `d + 2 * old` |
| StateEncoding.EncodeBound | include/inform/state_encoding.h:30-36 | a binary state of length `L` encodes below `2^L` |
| StateEncoding.DecodeEncode | include/inform/state_encoding.h:30-36 | decoding an encoded binary state gives it back |
| StateEncoding.EncodeDecode | include/inform/state_encoding.h:30-36 | encoding the `L`-bit decoding of a number below `2^L` gives it back |
| StateEncoding.EncodeInjective | include/inform/state_encoding.h:30-36 | distinct binary states of one length have distinct encodings |
| StateEncoding.EncodeOfThree | include/inform/state_encoding.h:30-36 | a state `[a, b, c]` encodes as `a + 2 * b + 4 * c` |
| StateEncoding.EncodeLengthThree | test/unittests/state_encoding.cpp:31-42 | all eight encodings the unit tests list for states of length three, `{0,0,0}` to `{1,1,1}` giving 0 to 7 |
| Bits.XorOfDisjointIsSum | include/inform/time_series.h:29 | `history ^ (future << k)` is a sum when the history is below `2^k` |
| ActiveInfo.Events | include/inform/time_series.h:25-37 | one event per window: as many events as the series has values beyond the history, for each distribution |
| ActiveInfo.EventsAt | include/inform/time_series.h:25-37 | event `t` is the one of the window starting at `t` |
| ActiveInfo.EventsExtend | include/inform/time_series.h:35-36 | sliding the window one step appends the event of the next window |
| ActiveInfo.HistoryBelow | include/inform/time_series.h:28 | the history of a binary window is below `2^k` |
| ActiveInfo.StateIsSum | include/inform/time_series.h:28-29 | for a binary window the history is below `2^k` and the state is history plus `future * 2^k` |
| ActiveInfo.BinaryWindowFits | include/inform/time_series.h:55-57 | on a binary series each window's events fit the `2 << k`, `1 << k` and `2` bins |
| ActiveInfo.BinaryFits | include/inform/time_series.h:55-57 | on a binary series no `tic` can throw |
| ActiveInfo.CountBins | include/inform/time_series.h:31-33 | each distribution receives the events of its own kind, in order |
| ActiveInfo.ObserveCounts | include/inform/time_series.h:31-33 | each distribution receives one tic per value beyond the history, and bin `e` counts the windows whose event is `e` |
| ActiveInfo.TicWindow | include/inform/time_series.h:31-33 | one `tic`: the window is counted when its event fits; otherwise `out_of_range` and the distribution keeps the earlier windows |
| ActiveInfo.TicAll | include/inform/time_series.h:31-33 | the three tics of one window; the first that throws raises `out_of_range`, the window then misses, and each distribution holds the window exactly when its tic came before the throw |
| ActiveInfo.SlideWindow | include/inform/time_series.h:28-33 | one turn of the loop: the history's `encode_state` and the three tics; an escaping exception is the series' outcome, and the distributions hold what `RaisedAt` says |
| ActiveInfo.EarlierWindowsFit | include/inform/time_series.h:25-37 | every window before the one a raised pass stops at fits its distributions |
| ActiveInfo.RunRaisedAt | include/inform/time_series.h:21-37 | a pass that raises at a window leaves what `RaisedRun` says: nothing counted when `encode_state` refused the history, otherwise the earlier windows plus that window's tics before the throw |
| ActiveInfo.ActiveInformationDistributions | include/inform/time_series.h:15-38 | when no exception escapes, every window is counted into the three distributions on top of what they held; otherwise the exception is the first one the windows raise, and the distributions hold the windows before the first that misses plus that window's tics before the one that threw |
| ActiveInfo.AsWrittenAdmitsLongHistory | include/inform/time_series.h:49-53 | the unsigned guard `size - k <= 1` lets every `k > size` through |
| ActiveInfo.GuardsAgreeOnShortHistory | include/inform/time_series.h:49-53 | for `k <= size` the unsigned guard is the intended one |
| ActiveInfo.ActiveInformation | include/inform/time_series.h:40-62 | fewer than two values, or too long a history, throw `invalid_argument`; otherwise the outcome of counting the series into fresh distributions of sizes `2 << k`, `1 << k`, `2`, which succeeds on a binary series |
| ActiveInfo.BlockEventsTimes | include/inform/time_series.h:88-91 | with `r` runs of `ts` values, the ensemble has `r * (ts - k)` events of each kind |
| ActiveInfo.BlockMisfit | include/inform/time_series.h:88-91 | no window spans two runs: a window that misses in one run makes the ensemble miss |
| ActiveInfo.ObserveBlocksCounts | include/inform/time_series.h:84-91 | each ensemble distribution holds `r * (ts - k)` observations |
| ActiveInfo.CountBlock | include/inform/time_series.h:88-91 | one run is counted on top of the runs before it, or raises the ensemble's exception |
| ActiveInfo.CountEnsemble | include/inform/time_series.h:88-91 | the run loop ends with the ensemble's histograms or its first exception |
| ActiveInfo.ActiveInformationEnsemble | include/inform/time_series.h:64-94 | the three `invalid_argument` checks, including a size that is no multiple of the run length; otherwise the ensemble counted run by run into the same distributions |
| ActiveInfoC.InformDist.Alloc | src/time_series.c:39-41 | the allocated distribution has `n` zero bins and count 0 |
| ActiveInfoC.InformDist.Tick | src/time_series.c:19-21 | a tick adds one to one bin and to the count |
| ActiveInfoC.TickWindow | src/time_series.c:19-21 | a tick of the window at `t` extends the count by that window |
| ActiveInfoC.TickAll | src/time_series.c:16-21 | one loop turn: encode the history, xor in the shifted future, three ticks |
| ActiveInfoC.ActiveInfoDist | src/time_series.c:7-26 | every window of the series is ticked into the three distributions on top of what they held |
| ActiveInfoC.InformActiveInfo | src/time_series.c:28-51 | `nan(1)` for fewer than two values, `nan(2)` for `n <= k`; otherwise the windows counted into fresh distributions |
| ActiveInfoC.BlockFits | src/time_series.c:73-78 | each run fits when the whole ensemble does |
| ActiveInfoC.TickBlock | src/time_series.c:76-77 | one run of `m` values is counted on top of the runs before it |
| ActiveInfoC.TickBlocks | src/time_series.c:73-78 | the block loop leaves the histograms of all runs, each counted on its own |
| ActiveInfoC.InformActiveInfoEnsemble | src/time_series.c:53-86 | `nan(1)`, `nan(2)`, and `nan(3)` when `n` is no multiple of `m`; otherwise the runs counted into fresh distributions |
| TransferEntropy.BaseEncBound | src/transfer_entropy.c:13-19 | `k` digits of base `b` encode below `b^k`: the history always names a bin |
| TransferEntropy.BaseEncCons | src/transfer_entropy.c:33 | the oldest digit of the history carries weight `b^(k-1)` |
| TransferEntropy.RollHistory | src/transfer_entropy.c:33 | dropping the oldest digit never goes below zero and gives the next window's history |
| TransferEntropy.TeEventBound | src/transfer_entropy.c:22-31 | each of the four observations lands in its histogram of size `b*b*q`, `q`, `b*q`, `b*q` |
| TransferEntropy.TeEventsFit | src/transfer_entropy.c:20-34 | with digits only, no increment writes outside its histogram |
| TransferEntropy.RegionsFlatten | src/transfer_entropy.c:83-97 | the four views cut the buffer into the four histograms and lay them out again without gap or overlap |
| TransferEntropy.FlattenBump | src/transfer_entropy.c:28-31 | incrementing bin `e` of one view increments one cell of the buffer, at its offset plus `e` |
| TransferEntropy.TeEmpty | src/transfer_entropy.c:87 | `calloc` leaves four empty histograms of the driver's sizes |
| TransferEntropy.ObserveByBumps | src/transfer_entropy.c:28-31 | the four increments of one position, in the source's order |
| TransferEntropy.TeCountSnoc | src/transfer_entropy.c:20-34 | one more position is one more observation in each histogram |
| TransferEntropy.TeTallyHits | src/transfer_entropy.c:20-34 | each bin counts the positions whose observation names it |
| TransferEntropy.TeCountSum | src/transfer_entropy.c:20-34 | each histogram gains exactly `n - k` observations |
| TransferEntropy.Increment | src/transfer_entropy.c:28-31 | `histogram[e]++` on a view is the increment of that histogram in the buffer |
| TransferEntropy.ObserveWindow | src/transfer_entropy.c:22-33 | one loop turn counts one position and rolls the history on to the next window |
| TransferEntropy.Prologue | src/transfer_entropy.c:13-19 | `q = b^k`, and the history is the first `k` values as a base-`b` number, below `q` |
| TransferEntropy.RollNext | src/transfer_entropy.c:33 | the rolled history is the next window's, below `q` |
| TransferEntropy.ObserveFrom | src/transfer_entropy.c:20-34 | the main loop counts every remaining position |
| TransferEntropy.AccumulateObservations | src/transfer_entropy.c:7-35 | the buffer ends as the four histograms with every position of the run counted |
| TransferEntropy.TeRunsStep | src/transfer_entropy.c:99-104 | the ensemble is its first run, then the rest: no history spans two runs |
| TransferEntropy.TeRunsSum | src/transfer_entropy.c:75 | an ensemble of `n` runs adds `n * (m - k)` observations to each histogram, the `N` given to every view |
| TransferEntropy.TeRunsOne | src/transfer_entropy.c:37-41 | an ensemble of one run is that run counted |
| TransferEntropy.AccumulateRuns | src/transfer_entropy.c:99-104 | the run loop counts each run of `m` values on its own into the shared buffer |
| TransferEntropy.TeCheck | src/transfer_entropy.c:46-91 | the codes 1, 2, 3, 4, 6, 7 of the checks in order, with the empty history also rejected |
| TransferEntropy.TeCheckAsWritten | src/transfer_entropy.c:46-91 | the same checks as written, without the test for an empty history |
| TransferEntropy.TeCheckPasses | src/transfer_entropy.c:46-91 | every check passes exactly when both series are there, `n >= 1`, `m >= 2`, `1 <= k < m`, the history is short enough, all values are digits and the buffer is allocated |
| TransferEntropy.TeAcceptsEmptyHistoryAsWritten | src/transfer_entropy.c:52-60 | as written, `k = 0` passes every check for every `n >= 1` and `m >= 2`, and the read `series_y[i-1]` at the first position `i = 0` lies outside `[0, m)` |
| TransferEntropy.TeCheckReadsInside | src/transfer_entropy.c:20-22 | with the corrected checks every read `series_y[i-1]`, `k <= i < m`, is inside the run; for `k != 0` the two checks agree |
| TransferEntropy.TeEnsembleCounts | src/transfer_entropy.c:75-104 | every histogram of a result totals its count `N = n * (m - k)`, which is positive |
| TransferEntropy.TeEnsembleFails | src/transfer_entropy.c:46-91 | a missing series gives `nan(1)`; a result exists exactly when every check passes |
| TransferEntropy.CheckDigits | src/transfer_entropy.c:66-72 | the digit loop succeeds exactly when every value of both series is below `b` |
| TransferEntropy.InformTransferEntropyEnsemble | src/transfer_entropy.c:43-115 | the checks, then the buffer of four histograms of count `N`, each run counted into it |
| TransferEntropy.InformTransferEntropy | src/transfer_entropy.c:37-41 | one series is the ensemble of one run of `n` values |
| TransferEntropy.TeSingleRun | src/transfer_entropy.c:37-41 | a single series is counted once from empty histograms, with count `n - k` |
| Pid.SourceAlloc | src/pid.c:7-34 | NULL if any allocation fails; otherwise the source has the name, its length, and empty `above`/`below` with counts 0 |
| Pid.SourcesRec | src/pid.c:47-72 | the recursion pushes the sources named by `Gen(i, m, c)` onto the vector |
| Pid.PidSources | src/pid.c:74-88 | `pid_sources(n)` returns the sources named by `Names(n)`, in push order |
| Pid.GenExactlyOnce | src/pid.c:47-72 | the recursion emits every ascending antichain that extends `c` with masks in `[i, m]` exactly once, and nothing else |
| Pid.BlocksExactlyOnce | src/pid.c:78-85 | the blocks of the outer loop emit every ascending antichain of masks in `[i, m]` exactly once |
| Pid.NamesExactlyOnce | src/pid.c:74-88 | `pid_sources(n)` names every ascending antichain of masks in `[1, 2^n - 1]` exactly once, and nothing else |
| Pid.NamesOfTwoSources | src/pid.c:74-88 | for two inputs: `{1}`, `{1}{2}`, `{2}`, `{12}`, in that order |
| Pid.NamesOfThreeSources | src/pid.c:47-88 | for three inputs `pid_sources` pushes 18 sources, the size of the redundancy lattice of three sources |
| Pid.NamesOfNoSources | src/pid.c:76-78 | for no inputs there is no source |
| Pid.SourcesSortable | src/pid.c:74-88 | the sources it returns are named by ascending antichains, no two alike |
| Pid.CoveredIff | src/pid.c:98-105 | the inner loop of `name_below` succeeds exactly when some mask of `xs` is a submask of `y` |
| Pid.NameBelowIff | src/pid.c:90-112 | `name_below(xs, ys)` holds exactly when every mask of `ys` has a submask in `xs` |
| Pid.BelowReflexive | src/pid.c:114-117 | every source is below itself |
| Pid.BelowTransitive | src/pid.c:114-117 | `below` is transitive |
| Pid.BelowAntisymmetric | src/pid.c:114-117 | two sources named by ascending antichains, each below the other, have the same name |
| Pid.BottomAt | src/pid.c:127-136 | the inner scan finds `a[i]` a bottom exactly when no other source of the window is below it |
| Pid.SwapMultiset | src/pid.c:139-141 | exchanging two entries keeps the sources |
| Pid.SwapBottom | src/pid.c:139-141 | exchanging two entries of the window keeps each source's bottom-ness |
| Pid.Pass | src/pid.c:125-144 | one pass moves every bottom of the window to its front, keeps the sources and the placed prefix, and leaves the rest behind |
| Pid.BottomExists | src/pid.c:125-144 | every non-empty window has a bottom, so each pass places at least one source |
| Pid.PassPlaces | src/pid.c:125-144 | after a pass, nothing after the placed sources is below one of them |
| Pid.Toposort | src/pid.c:119-145 | the result is a permutation of the sources in which no source is below an earlier one |
| Pid.EmptyToposortSpinsAsWritten | src/pid.c:121-123 | for an empty vector `n - 1` wraps around, so the guard as written holds at `v = 0`, where `v + 1 < n` does not |
| Pid.EmptyTurnAsWritten | src/pid.c:121-144 | on an empty vector a turn of the loop leaves `v = 0`, so the guard as written holds again and the loop never stops |
| Pid.ToposortGuardsAgree | src/pid.c:121-123 | for a non-empty vector the guard as written is `v + 1 < n` |

## Left out

- The entropies themselves: `mutual_information`, `inform_mutual_info`, `inform_shannon` and all floating-point arithmetic. The models stop at the histograms these take.
- The `k > 25 / log2l(b)` check of transfer entropy is floating point. It is the parameter `tooLong`.
- The probabilities `at` and `operator[]` and the distribution iterator divide in floating point.
- Memory management: `gvector_shrink`, `gvector_dup`, `free`, `pid_source_free`, and the leaks of `pid_sources_rec`.
- The bodies of `inform_dist_alloc`, `inform_dist_tick`, `inform_encode` and `inform_nan` are not part of this model. `InformDist.Alloc` and `InformDist.Tick` carry the contracts their callers rely on.
- The C windows take `inform_encode` to be `Encode`. The C encoder's error encodings are not modelled: its unit tests give `INFORM_ENCODING_ERROR` codes for a NULL state, for a base-2 state of 64 values and for a value that is not a digit (test/unittests/state_encoding.c:9-12, 22-28, 173-179). This matters for `k = 0` and for non-binary windows, where `inform_encode` may return such a code instead of `Encode`.
- ActiveInfoC.InformDist.Alloc: does not model a NULL result from `inform_dist_alloc`.
- ActiveInfoC.InformActiveInfo: requires every event to fit its distribution. The body of `inform_dist_tick` is not part of this model, so what a tick outside the distribution does is not modelled.
- ActiveInfoC.InformActiveInfoEnsemble: requires `m > 0`, because the source divides by it. It also requires `k <= m` and that every event fits; what the source does otherwise, with the bodies of `inform_dist_tick` and `inform_encode` unseen, is not modelled.
- ActiveInfo.ActiveInformationEnsemble: requires `time_steps > 0`, because the source divides by it. It also requires `k <= time_steps`, because otherwise `first + k` passes the end of the run.
- Fixed-width arithmetic is not modelled. Counts, events and encodings are unbounded. This covers:
  - the `int` shift `1 << k` in `encode_state`, which cannot hold the 64 bits its length check allows;
  - the `int` seed of `std::accumulate`;
  - the `int` `N`, `q` and sizes of transfer entropy;
  - `1 << n` in `pid_sources`;
  - the `int` distribution sizes `2 << k` and `1 << k` of `active_information` (include/inform/time_series.h:55-57), which overflow from `k = 30` on; the model uses the unbounded `Pow2`;
  - 64-bit wrap-around of the count in `tic` and `set`.
- Series values are naturals. The sources take signed values: `int64_t` in the C++ entry points (src/time_series.cpp:6-14) and `int` in the C driver (src/time_series.c:7, 28). Negative values, and the unsigned wrap-around they cause, are not modelled. In the C++, `{-1, 0, 1}` with `k = 1` makes `encode_state` add `-1` to a `uint64_t`, so the history is `2^64 - 1` and the first `tic` throws `out_of_range`.
- StateEncoding.EncodeRange: does not model the `int` shift `1 << k`, which overflows for states longer than 31 values. The model encodes up to the 64 values the length check allows.
- Pid.PidSources: does not model a NULL `pid_source_alloc` result being pushed into the vector. It assumes every allocation succeeds; `SourceAlloc` models the failure itself.
- Pid.Toposort: requires sources named by distinct ascending antichains, which is what `pid_sources` returns (`SourcesSortable`). For other input the source may find no bottom and loop for ever.
- The example methods in `distribution.dfy` (`TicExamples`, `SetGetExamples`, `FromCountsExamples`) replay the library's own unit-test sequences against the contracts above. They have no `ensures`, so they have no rows.

## Findings

| source | as written | input that shows it | evidently intended | confidence | as-written member | corrected member |
|---|---|---|---|---|---|---|
| include/inform/time_series.h:49-53 | `size - k <= 1` with `k` a `uint64_t`: the difference wraps around when `k > size`, and the check passes | a series of 2 values with `k = 3`: `active_information_distributions` then starts at `first + 3`, past `last` | reject every `k >= size - 1`, i.e. `size <= k + 1` | not executed | ActiveInfo.AsWrittenAdmitsLongHistory | ActiveInfo.GuardsAgreeOnShortHistory |
| src/transfer_entropy.c:52-60 | no check rejects `k = 0` | `m = 2`, `n = 1`, `k = 0`: every check passes, and at the first position `i = 0` the loop reads `series_y[-1]` (line 22) | reject an empty history (the model returns code 3 for it, the choice of code being a guess) | not executed | TransferEntropy.TeAcceptsEmptyHistoryAsWritten | TransferEntropy.TeCheckReadsInside |
| src/pid.c:121-123 | `while (v < n - 1)` with `size_t n`: for an empty vector `n - 1` is the largest `size_t` | `pid_toposort` on an empty vector, e.g. the result of `pid_sources(0)`: the guard holds for ever and the loop never stops | loop while `v + 1 < n` | not executed | Pid.EmptyToposortSpinsAsWritten | Pid.Toposort |
