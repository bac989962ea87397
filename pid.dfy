/** The redundancy lattice of partial information decomposition (`src/pid.c`).
    A source is named by an antichain of non-empty subsets of the `n` input
    variables, each subset written as a bit mask. The library enumerates every
    such name, orders the sources by the "below" relation, and sorts them in
    place so that no source comes after one below it. */
module Pid {
  import opened Bits
  import opened Errors

  /** `pid_source`: the name, its length, and the sources above and below it
      in the lattice with their counts. */
  datatype Source = Source(name: seq<nat>, size: nat, above: seq<Source>, below: seq<Source>,
                           nAbove: nat, nBelow: nat)

  /** A source as `pid_source_alloc` leaves it: named, with no neighbours yet. */
  function NewSource(name: seq<nat>): Source
  {
    Source(name, |name|, [], [], 0, 0)
  }

  /** `pid_source_alloc(name)`. `recordOk`, `aboveOk` and `belowOk` are the
      outcomes of its three allocations: the record, then its `above` and its
      `below` vectors. Any failure gives NULL. */
  method SourceAlloc(name: seq<nat>, recordOk: bool, aboveOk: bool, belowOk: bool) returns (r: Option<Source>)
    ensures r.Some? <==> recordOk && aboveOk && belowOk
    ensures r.Some? ==> r.value.name == name && r.value.size == |name|
    ensures r.Some? ==> r.value.above == [] && r.value.below == [] && r.value.nAbove == 0 && r.value.nBelow == 0
  {
    if !recordOk {
      return None;
    }
    if !aboveOk {
      return None;
    }
    if !belowOk {
      return None;
    }
    return Some(NewSource(name));
  }

  /** The sources a vector of names becomes, one after the other. */
  function Allocated(names: seq<seq<nat>>): seq<Source>
  {
    seq(|names|, p requires 0 <= p < |names| => NewSource(names[p]))
  }

  lemma AllocatedAppend(a: seq<seq<nat>>, b: seq<seq<nat>>)
    ensures Allocated(a + b) == Allocated(a) + Allocated(b)
  {
    assert |Allocated(a + b)| == |Allocated(a) + Allocated(b)|;
    forall p | 0 <= p < |a + b| ensures Allocated(a + b)[p] == (Allocated(a) + Allocated(b))[p] {
      if p < |a| {
      } else {
        assert (a + b)[p] == b[p - |a|];
      }
    }
  }

  /** Pushing the sources of `skip`, then of `name`, then of `rest`. */
  lemma AllocatedPushes(srcs: seq<Source>, skip: seq<seq<nat>>, name: seq<nat>, rest: seq<seq<nat>>)
    ensures srcs + Allocated(skip + ([name] + rest)) == srcs + Allocated(skip) + [NewSource(name)] + Allocated(rest)
  {
    AllocatedAppend(skip, [name] + rest);
    AllocatedAppend([name], rest);
    assert Allocated([name]) == [NewSource(name)];
  }

  /* ---------- names ---------- */

  /** `(a & b) == a || (a & b) == b`: one of the masks contains the other. */
  predicate Comparable(a: nat, b: nat)
  {
    And(a, b) == a || And(a, b) == b
  }

  /** No mask of `x` contains an earlier one or is contained in it. */
  predicate Antichain(x: seq<nat>)
  {
    forall p, q :: 0 <= p < q < |x| ==> !Comparable(x[q], x[p])
  }

  /** The masks of `x` strictly increase. */
  predicate Ascending(x: seq<nat>)
  {
    forall p, q :: 0 <= p < q < |x| ==> x[p] < x[q]
  }

  /** `i` is comparable with no mask of `c`: the test `pid_sources_rec` makes
      before it appends `i`. */
  predicate Joinable(i: nat, c: seq<nat>)
  {
    forall p :: 0 <= p < |c| ==> !Comparable(i, c[p])
  }

  /** The names `pid_sources_rec(i, m, c, ...)` pushes, in order: first those
      that leave `i` out, then, when `i` may join `c`, the name `c + [i]` and
      those that extend it. */
  function Gen(i: nat, m: nat, c: seq<nat>): seq<seq<nat>>
    decreases if i <= m then m + 1 - i else 0
  {
    if i > m then []
    else
      (if i < m then Gen(i + 1, m, c) else [])
      + (if Joinable(i, c) then [c + [i]] + Gen(i + 1, m, c + [i]) else [])
  }

  /** The names the loop of `pid_sources` pushes from `i` on: `[i]`, then what
      the recursion under it pushes, then the remaining blocks. */
  function Blocks(i: nat, m: nat): seq<seq<nat>>
    decreases if i <= m then m + 1 - i else 0
  {
    if i > m then [] else [[i]] + Gen(i + 1, m, [i]) + Blocks(i + 1, m)
  }

  /** The names of `pid_sources(n)`, over the masks `1 .. 2^n - 1`. */
  function Names(n: nat): seq<seq<nat>>
  {
    Blocks(1, Pow2(n) - 1)
  }

  /** `x` is `c` followed by at least one more mask, every added mask lies in
      `[i, m]`, and `x` is an ascending antichain. */
  predicate Extends(x: seq<nat>, c: seq<nat>, i: nat, m: nat)
  {
    && |c| < |x| && x[..|c|] == c && Ascending(x) && Antichain(x)
    && forall p :: |c| <= p < |x| ==> i <= x[p] <= m
  }

  /** A name the recursion may start from: an ascending antichain below `i`. */
  predicate Start(c: seq<nat>, i: nat)
  {
    Ascending(c) && Antichain(c) && forall p :: 0 <= p < |c| ==> c[p] < i
  }

  /* ---------- the enumeration ---------- */

  /** `pid_sources_rec(i, m, c, srcs)`: `srcs` with the sources named by
      `Gen(i, m, c)` pushed onto it. */
  method SourcesRec(i: nat, m: nat, c: seq<nat>, srcs: seq<Source>) returns (out: seq<Source>)
    ensures out == srcs + Allocated(Gen(i, m, c))
    decreases if i <= m then m + 1 - i else 0
  {
    if i > m {
      assert Allocated(Gen(i, m, c)) == [];
      return srcs;
    }
    out := srcs;
    ghost var skip: seq<seq<nat>> := [];
    if i < m {
      out := SourcesRec(i + 1, m, c, out);
      skip := Gen(i + 1, m, c);
    } else {
      assert Allocated(skip) == [];
    }
    assert out == srcs + Allocated(skip);
    var j := 0;
    while j < |c|
      invariant j <= |c| && forall p :: 0 <= p < j ==> !Comparable(i, c[p])
    {
      var z := And(i, c[j]);
      if z == i || z == c[j] {
        GenRefuses(i, m, c, j);
        return;
      }
      j := j + 1;
    }
    var name := c + [i];
    GenJoins(i, m, c);
    AllocatedPushes(srcs, skip, name, Gen(i + 1, m, name));
    out := out + [NewSource(name)];
    out := SourcesRec(i + 1, m, name, out);
  }

  /** When `i` is comparable with a mask of `c`, the recursion at `i` pushes
      only what leaving `i` out pushes. */
  lemma GenRefuses(i: nat, m: nat, c: seq<nat>, p: nat)
    requires i <= m && p < |c| && Comparable(i, c[p])
    ensures Gen(i, m, c) == if i < m then Gen(i + 1, m, c) else []
  {
  }

  /** When `i` may join `c`, the recursion at `i` pushes what leaving `i` out
      pushes, then `c + [i]` and its extensions. */
  lemma GenJoins(i: nat, m: nat, c: seq<nat>)
    requires i <= m && Joinable(i, c)
    ensures Gen(i, m, c) == (if i < m then Gen(i + 1, m, c) else []) + ([c + [i]] + Gen(i + 1, m, c + [i]))
  {
  }

  /** `pid_sources(n)`: the sources named by every antichain of non-empty
      masks below `2^n`. */
  method PidSources(n: nat) returns (srcs: seq<Source>)
    ensures srcs == Allocated(Names(n))
  {
    var m := Pow2(n) - 1;
    srcs := [];
    var i := 1;
    while i <= m
      invariant 1 <= i <= m + 1
      invariant srcs + Allocated(Blocks(i, m)) == Allocated(Blocks(1, m))
      decreases m + 1 - i
    {
      var c := [i];
      AllocatedBlock(srcs, i, m);
      srcs := srcs + [NewSource(c)];
      srcs := SourcesRec(i + 1, m, c, srcs);
      i := i + 1;
    }
    assert Allocated(Blocks(i, m)) == [];
  }

  /** The sources of the block of `i`, pushed one after the other. */
  lemma AllocatedBlock(srcs: seq<Source>, i: nat, m: nat)
    requires i <= m
    ensures srcs + Allocated(Blocks(i, m))
         == srcs + [NewSource([i])] + Allocated(Gen(i + 1, m, [i])) + Allocated(Blocks(i + 1, m))
  {
    var g, b := Gen(i + 1, m, [i]), Blocks(i + 1, m);
    assert Blocks(i, m) == [] + ([[i]] + (g + b));
    AllocatedPushes(srcs, [], [i], g + b);
    AllocatedAppend(g, b);
    assert Allocated([]) == [];
  }

  /* ---------- what the enumeration emits ---------- */

  /** Appending a joinable mask above every mask of `c` keeps a start. */
  lemma JoinKeepsStart(i: nat, c: seq<nat>)
    requires Start(c, i) && Joinable(i, c)
    ensures Start(c + [i], i + 1)
  {
  }

  /** A name that extends `c` from `i` either extends it from `i + 1`, or
      continues with `i` itself. */
  lemma {:induction false} ExtendsSplit(x: seq<nat>, c: seq<nat>, i: nat, m: nat)
    requires Start(c, i) && i <= m && Extends(x, c, i, m)
    ensures Extends(x, c, i + 1, m) || (Joinable(i, c) && (x == c + [i] || Extends(x, c + [i], i + 1, m)))
  {
    if x[|c|] == i {
      forall p | 0 <= p < |c| ensures !Comparable(i, c[p]) {
        assert x[p] == c[p];
      }
      if |x| > |c| + 1 {
        assert x[..|c| + 1] == c + [i];
      } else {
        assert x == x[..|c|] + [x[|c|]];
      }
    } else {
      forall p | |c| <= p < |x| ensures i + 1 <= x[p] {
        if p > |c| { assert x[|c|] < x[p]; }
      }
    }
  }

  /** Conversely, each of those is a name that extends `c` from `i`. */
  lemma ExtendsJoin(x: seq<nat>, c: seq<nat>, i: nat, m: nat)
    requires Start(c, i) && i <= m
    ensures Extends(x, c, i + 1, m) ==> Extends(x, c, i, m)
    ensures Joinable(i, c) && x == c + [i] ==> Extends(x, c, i, m)
    ensures Joinable(i, c) && Extends(x, c + [i], i + 1, m) ==> Extends(x, c, i, m)
  {
    if Joinable(i, c) && Extends(x, c + [i], i + 1, m) {
      assert x[..|c|] == (c + [i])[..|c|];
      assert x[|c|] == (c + [i])[|c|];
    }
  }

  /** The three ways apart from each other: by the mask after `c`, or by length. */
  lemma ExtendsApart(x: seq<nat>, c: seq<nat>, i: nat, m: nat)
    requires Start(c, i)
    ensures Extends(x, c, i + 1, m) ==> x != c + [i] && !Extends(x, c + [i], i + 1, m)
    ensures Extends(x, c + [i], i + 1, m) ==> x != c + [i]
    ensures i == m ==> !Extends(x, c, i + 1, m)
  {
    if Extends(x, c + [i], i + 1, m) {
      assert x[|c|] == (c + [i])[|c|];
    }
    if Extends(x, c, i + 1, m) {
      assert x[|c|] >= i + 1;
    }
  }

  /** `pid_sources_rec(i, m, c)` emits every ascending antichain that extends
      `c` with masks from `[i, m]` exactly once, and nothing else. */
  lemma {:induction false} GenExactlyOnce(i: nat, m: nat, c: seq<nat>)
    requires Start(c, i)
    ensures forall x :: multiset(Gen(i, m, c))[x] == if Extends(x, c, i, m) then 1 else 0
    decreases if i <= m then m + 1 - i else 0
  {
    if i > m {
      forall x ensures !Extends(x, c, i, m) {
        if |c| < |x| {
          assert !(i <= x[|c|] <= m);
        }
      }
    } else {
      var skip := if i < m then Gen(i + 1, m, c) else [];
      var take := if Joinable(i, c) then [c + [i]] + Gen(i + 1, m, c + [i]) else [];
      assert Gen(i, m, c) == skip + take;
      if i < m {
        GenExactlyOnce(i + 1, m, c);
      }
      if Joinable(i, c) {
        JoinKeepsStart(i, c);
        GenExactlyOnce(i + 1, m, c + [i]);
      }
      forall x ensures multiset(Gen(i, m, c))[x] == if Extends(x, c, i, m) then 1 else 0 {
        ExtendsApart(x, c, i, m);
        ExtendsJoin(x, c, i, m);
        if Extends(x, c, i, m) {
          ExtendsSplit(x, c, i, m);
        }
      }
    }
  }

  /** The blocks of `pid_sources` from `i` on emit every ascending antichain
      of masks in `[i, m]` exactly once, and nothing else. */
  lemma {:induction false} BlocksExactlyOnce(i: nat, m: nat)
    ensures forall x :: multiset(Blocks(i, m))[x] == if Extends(x, [], i, m) then 1 else 0
    decreases if i <= m then m + 1 - i else 0
  {
    if i > m {
      forall x ensures !Extends(x, [], i, m) {
        if 0 < |x| {
          assert !(i <= x[0] <= m);
        }
      }
    } else {
      var one, b := Gen(i + 1, m, [i]), Blocks(i + 1, m);
      assert Blocks(i, m) == [[i]] + one + b;
      assert Start([], i) && Joinable(i, []) && [] + [i] == [i];
      BlocksExactlyOnce(i + 1, m);
      JoinKeepsStart(i, []);
      GenExactlyOnce(i + 1, m, [i]);
      forall x ensures multiset(Blocks(i, m))[x] == if Extends(x, [], i, m) then 1 else 0 {
        ExtendsApart(x, [], i, m);
        ExtendsJoin(x, [], i, m);
        if Extends(x, [], i, m) {
          ExtendsSplit(x, [], i, m);
        }
      }
    }
  }

  /** `pid_sources(n)` names every ascending antichain of masks in
      `[1, 2^n - 1]` exactly once, and nothing else. */
  lemma NamesExactlyOnce(n: nat)
    ensures forall x :: multiset(Names(n))[x] == if Extends(x, [], 1, Pow2(n) - 1) then 1 else 0
  {
    BlocksExactlyOnce(1, Pow2(n) - 1);
  }

  /* ---------- the order on sources ---------- */

  /** The inner loop of `name_below`: some mask of `xs`, scanned from the
      front, is a submask of `y`. */
  predicate Covered(xs: seq<nat>, y: nat)
  {
    xs != [] && (Submask(xs[0], y) || Covered(xs[1..], y))
  }

  /** `name_below(xs, ys)`: scanning `ys` from the front, every mask is covered
      by `xs`; an empty `ys` is below everything. */
  predicate NameBelow(xs: seq<nat>, ys: seq<nat>)
  {
    ys == [] || (Covered(xs, ys[0]) && NameBelow(xs, ys[1..]))
  }

  /** `below(a, b)`: the name of `a` is below the name of `b`. */
  predicate Below(a: Source, b: Source)
  {
    NameBelow(a.name, b.name)
  }

  /** A mask of `xs` that covers `y`, the first one the scan finds. */
  lemma {:induction false} CoveredAt(xs: seq<nat>, y: nat) returns (p: nat)
    requires Covered(xs, y)
    ensures p < |xs| && Submask(xs[p], y)
  {
    if Submask(xs[0], y) {
      p := 0;
    } else {
      var r := CoveredAt(xs[1..], y);
      p := r + 1;
    }
  }

  /** A submask anywhere in `xs` makes the scan succeed. */
  lemma {:induction false} CoveredBy(xs: seq<nat>, y: nat, p: nat)
    requires p < |xs| && Submask(xs[p], y)
    ensures Covered(xs, y)
  {
    if p > 0 && !Submask(xs[0], y) {
      CoveredBy(xs[1..], y, p - 1);
    }
  }

  lemma {:induction false} CoveredIff(xs: seq<nat>, y: nat)
    ensures Covered(xs, y) <==> exists p :: 0 <= p < |xs| && Submask(xs[p], y)
  {
    if Covered(xs, y) {
      var p := CoveredAt(xs, y);
    }
    if exists p :: 0 <= p < |xs| && Submask(xs[p], y) {
      var p :| 0 <= p < |xs| && Submask(xs[p], y);
      CoveredBy(xs, y, p);
    }
  }

  /** Below means each mask of `ys` is covered. */
  lemma {:induction false} BelowAt(xs: seq<nat>, ys: seq<nat>, q: nat)
    requires NameBelow(xs, ys) && q < |ys|
    ensures Covered(xs, ys[q])
  {
    if q > 0 {
      BelowAt(xs, ys[1..], q - 1);
    }
  }

  lemma {:induction false} BelowIntro(xs: seq<nat>, ys: seq<nat>)
    requires forall q :: 0 <= q < |ys| ==> Covered(xs, ys[q])
    ensures NameBelow(xs, ys)
  {
    if ys != [] {
      assert Covered(xs, ys[0]);
      forall q | 0 <= q < |ys[1..]| ensures Covered(xs, ys[1..][q]) {
        assert ys[1..][q] == ys[q + 1];
      }
      BelowIntro(xs, ys[1..]);
    }
  }

  /** `name_below(xs, ys)` holds exactly when every mask of `ys` has a submask in `xs`. */
  lemma NameBelowIff(xs: seq<nat>, ys: seq<nat>)
    ensures NameBelow(xs, ys) <==> forall q :: 0 <= q < |ys| ==> exists p :: 0 <= p < |xs| && Submask(xs[p], ys[q])
  {
    forall q | 0 <= q < |ys| {
      CoveredIff(xs, ys[q]);
    }
    if NameBelow(xs, ys) {
      forall q | 0 <= q < |ys| ensures Covered(xs, ys[q]) {
        BelowAt(xs, ys, q);
      }
    } else if forall q :: 0 <= q < |ys| ==> Covered(xs, ys[q]) {
      BelowIntro(xs, ys);
    }
  }

  /** Every source is below itself. */
  lemma BelowReflexive(a: Source)
    ensures Below(a, a)
  {
    forall q | 0 <= q < |a.name| ensures Covered(a.name, a.name[q]) {
      SubmaskReflexive(a.name[q]);
      CoveredBy(a.name, a.name[q], q);
    }
    BelowIntro(a.name, a.name);
  }

  lemma BelowTransitive(a: Source, b: Source, c: Source)
    requires Below(a, b) && Below(b, c)
    ensures Below(a, c)
  {
    forall r | 0 <= r < |c.name| ensures Covered(a.name, c.name[r]) {
      BelowAt(b.name, c.name, r);
      var q := CoveredAt(b.name, c.name[r]);
      BelowAt(a.name, b.name, q);
      var p := CoveredAt(a.name, b.name[q]);
      SubmaskTransitive(a.name[p], b.name[q], c.name[r]);
      CoveredBy(a.name, c.name[r], p);
    }
    BelowIntro(a.name, c.name);
  }

  /** A mask of `ys` is a mask of `xs` when each name is below the other and
      `ys` is an antichain. */
  lemma MaskOfMutual(xs: seq<nat>, ys: seq<nat>, q: nat)
    requires NameBelow(xs, ys) && NameBelow(ys, xs) && Antichain(ys) && q < |ys|
    ensures ys[q] in xs
  {
    BelowAt(xs, ys, q);
    var p := CoveredAt(xs, ys[q]);
    BelowAt(ys, xs, p);
    var r := CoveredAt(ys, xs[p]);
    SubmaskTransitive(ys[r], xs[p], ys[q]);
    if r != q {
      AndCommutes(ys[r], ys[q]);
      assert false;
    }
    SubmaskAntisymmetric(xs[p], ys[q]);
  }

  /** Every mask of `xs` is a mask of `ys`. */
  ghost predicate MasksIn(xs: seq<nat>, ys: seq<nat>)
  {
    forall p :: 0 <= p < |xs| ==> xs[p] in ys
  }

  /** Both ascending with the same masks: the least masks agree. */
  lemma SameLeast(xs: seq<nat>, ys: seq<nat>)
    requires Ascending(xs) && Ascending(ys) && MasksIn(xs, ys) && MasksIn(ys, xs) && xs != [] && ys != []
    ensures xs[0] == ys[0]
  {
    assert xs[0] in ys;
    assert ys[0] in xs;
    var q :| 0 <= q < |ys| && ys[q] == xs[0];
    var p :| 0 <= p < |xs| && xs[p] == ys[0];
    assert xs[0] <= xs[p] && ys[0] <= ys[q];
  }

  /** The masks after an equal least mask are the masks after it in the other name. */
  lemma RestIn(xs: seq<nat>, ys: seq<nat>)
    requires Ascending(xs) && Ascending(ys) && MasksIn(xs, ys) && xs != [] && ys != [] && xs[0] == ys[0]
    ensures MasksIn(xs[1..], ys[1..])
  {
    forall p | 0 <= p < |xs| - 1 ensures xs[1..][p] in ys[1..] {
      assert xs[p + 1] in ys;
      var q :| 0 <= q < |ys| && ys[q] == xs[p + 1];
      assert xs[0] < xs[p + 1];
      assert ys[1..][q - 1] == ys[q];
    }
  }

  /** Two ascending names with the same masks are the same name. */
  lemma {:induction false} AscendingSameMasks(xs: seq<nat>, ys: seq<nat>)
    requires Ascending(xs) && Ascending(ys) && MasksIn(xs, ys) && MasksIn(ys, xs)
    ensures xs == ys
  {
    if xs != [] && ys != [] {
      SameLeast(xs, ys);
      RestIn(xs, ys);
      RestIn(ys, xs);
      AscendingTail(xs);
      AscendingTail(ys);
      AscendingSameMasks(xs[1..], ys[1..]);
      assert xs == [xs[0]] + xs[1..] && ys == [ys[0]] + ys[1..];
    } else if xs != [] {
      FirstIn(xs, ys);
    } else if ys != [] {
      FirstIn(ys, xs);
    }
  }

  lemma AscendingTail(xs: seq<nat>)
    requires Ascending(xs) && xs != []
    ensures Ascending(xs[1..])
  {
    forall p, q | 0 <= p < q < |xs| - 1 ensures xs[1..][p] < xs[1..][q] {
      assert xs[1..][p] == xs[p + 1] && xs[1..][q] == xs[q + 1];
    }
  }

  lemma FirstIn(xs: seq<nat>, ys: seq<nat>)
    requires MasksIn(xs, ys) && xs != []
    ensures ys != []
  {
    assert xs[0] in ys;
  }

  /** Two sources named by ascending antichains, each below the other, have the same name. */
  lemma BelowAntisymmetric(a: Source, b: Source)
    requires Ascending(a.name) && Antichain(a.name) && Ascending(b.name) && Antichain(b.name)
    requires Below(a, b) && Below(b, a)
    ensures a.name == b.name
  {
    forall q | 0 <= q < |b.name| ensures b.name[q] in a.name {
      MaskOfMutual(a.name, b.name, q);
    }
    forall p | 0 <= p < |a.name| ensures a.name[p] in b.name {
      MaskOfMutual(b.name, a.name, p);
    }
    AscendingSameMasks(a.name, b.name);
  }

  /* ---------- the sort ---------- */

  /** What `pid_sources` hands on: every source is named by an ascending
      antichain, and no two sources share a name. */
  ghost predicate Lattice(s: seq<Source>)
  {
    && (forall p :: 0 <= p < |s| ==> Ascending(s[p].name) && Antichain(s[p].name))
    && (forall p, q :: 0 <= p < q < |s| ==> s[p].name != s[q].name)
  }

  /** No other source of the window `s[u..]` is below `s[i]`. */
  ghost predicate IsBottom(s: seq<Source>, u: nat, i: nat)
    requires u <= i < |s|
  {
    forall j :: u <= j < |s| && j != i ==> !Below(s[j], s[i])
  }

  /** The inner loop of `pid_toposort`: whether `a[i]` is a bottom of the
      window `a[u..]`, scanning the window from its front. */
  method BottomAt(a: array<Source>, u: nat, i: nat) returns (isBottom: bool)
    requires u <= i < a.Length
    ensures isBottom == IsBottom(a[..], u, i)
  {
    var j := u;
    while j < a.Length
      invariant u <= j <= a.Length
      invariant forall k :: u <= k < j && k != i ==> !Below(a[k], a[i])
    {
      if i != j && Below(a[j], a[i]) {
        return false;
      }
      j := j + 1;
    }
    return true;
  }

  /** `s` with the entries at `x` and `y` exchanged. */
  function Swap(s: seq<Source>, x: nat, y: nat): (t: seq<Source>)
    requires x < |s| && y < |s|
  {
    s[x := s[y]][y := s[x]]
  }

  /** Where the entry at `p` lands when `x` and `y` are exchanged. */
  function Moved(p: nat, x: nat, y: nat): nat
  {
    if p == x then y else if p == y then x else p
  }

  /** Exchanging two entries of the window moves what is at `p` to
      `Moved(p, x, y)` and nothing else. */
  lemma SwapAt(s: seq<Source>, x: nat, y: nat, p: nat)
    requires x < |s| && y < |s| && p < |s|
    ensures |Swap(s, x, y)| == |s| && Moved(p, x, y) < |s| && Swap(s, x, y)[Moved(p, x, y)] == s[p]
  {
  }

  /** Exchanging two entries of the window keeps each source's bottom-ness. */
  lemma SwapBottom(s: seq<Source>, u: nat, x: nat, y: nat, p: nat)
    requires u <= x < |s| && u <= y < |s| && u <= p < |s|
    ensures u <= Moved(p, x, y) < |s|
    ensures IsBottom(Swap(s, x, y), u, Moved(p, x, y)) <==> IsBottom(s, u, p)
  {
    var t := Swap(s, x, y);
    var p' := Moved(p, x, y);
    SwapAt(s, x, y, p);
    if IsBottom(s, u, p) {
      forall j | u <= j < |t| && j != p' ensures !Below(t[j], t[p']) {
        var k := Moved(j, x, y);
        SwapAt(t, x, y, j);
        assert Swap(t, x, y) == s;
        assert t[j] == s[k] && k != p;
      }
    } else {
      var k :| u <= k < |s| && k != p && Below(s[k], s[p]);
      SwapAt(s, x, y, k);
    }
  }

  lemma SwapMultiset(s: seq<Source>, x: nat, y: nat)
    requires x < |s| && y < |s|
    ensures multiset(Swap(s, x, y)) == multiset(s)
  {
  }

  /** Exchanging two entries keeps every source's name and keeps the names apart. */
  lemma SwapLattice(s: seq<Source>, x: nat, y: nat)
    requires x < |s| && y < |s| && Lattice(s)
    ensures Lattice(Swap(s, x, y))
  {
    var t := Swap(s, x, y);
    forall p | 0 <= p < |t| ensures Ascending(t[p].name) && Antichain(t[p].name) {
      SwapAt(t, x, y, p);
      assert Swap(t, x, y) == s;
    }
    forall p, q | 0 <= p < q < |t| ensures t[p].name != t[q].name {
      SwapAt(t, x, y, p);
      SwapAt(t, x, y, q);
      assert Swap(t, x, y) == s;
      var p', q' := Moved(p, x, y), Moved(q, x, y);
      assert p' != q';
      if p' > q' {
        assert s[q'].name != s[p'].name;
      }
    }
  }

  /** The state of a pass from `u` once it has looked at `a[u..i]`: `s0` is the
      array when the pass began, `s[u..v]` holds the bottoms found so far and
      `s[v..i]` the sources that are not bottoms. */
  ghost predicate PassInv(s: seq<Source>, s0: seq<Source>, u: nat, v: nat, i: nat)
  {
    && u <= v <= i <= |s| && |s| == |s0|
    && multiset(s) == multiset(s0) && s[..u] == s0[..u] && Lattice(s)
    && (forall p :: u <= p < v ==> IsBottom(s, u, p))
    && (forall p :: v <= p < i ==> !IsBottom(s, u, p))
    && (forall p, q :: 0 <= p < u <= q < |s| ==> !Below(s[q], s[p]))
  }

  /** A source that is not a bottom stays where it is. */
  lemma PassSkip(s: seq<Source>, s0: seq<Source>, u: nat, v: nat, i: nat)
    requires PassInv(s, s0, u, v, i) && i < |s| && !IsBottom(s, u, i)
    ensures PassInv(s, s0, u, v, i + 1)
  {
  }

  /** A bottom is exchanged with the first source that is not one. */
  /** The bottoms found so far stay bottoms, and the one at `i` joins them at `v`. */
  lemma SwapKeepsBottoms(s: seq<Source>, u: nat, v: nat, i: nat)
    requires u <= v <= i < |s| && IsBottom(s, u, i)
    requires forall p :: u <= p < v ==> IsBottom(s, u, p)
    ensures forall p :: u <= p < v + 1 ==> IsBottom(Swap(s, v, i), u, p)
  {
    forall p | u <= p < v + 1 ensures IsBottom(Swap(s, v, i), u, p) {
      if p < v {
        SwapBottom(s, u, v, i, p);
      } else {
        SwapBottom(s, u, v, i, i);
      }
    }
  }

  /** The sources found not to be bottoms stay so, the one at `v` moving to `i`. */
  lemma SwapKeepsOthers(s: seq<Source>, u: nat, v: nat, i: nat)
    requires u <= v <= i < |s|
    requires forall p :: v <= p < i ==> !IsBottom(s, u, p)
    ensures forall p :: v + 1 <= p < i + 1 ==> !IsBottom(Swap(s, v, i), u, p)
  {
    forall p | v + 1 <= p < i + 1 ensures !IsBottom(Swap(s, v, i), u, p) {
      if p < i {
        SwapBottom(s, u, v, i, p);
      } else {
        SwapBottom(s, u, v, i, v);
      }
    }
  }

  /** An exchange inside the window leaves the placed prefix alone. */
  lemma SwapKeepsPrefix(s: seq<Source>, u: nat, v: nat, i: nat)
    requires u <= v < |s| && u <= i < |s|
    requires forall p, q :: 0 <= p < u <= q < |s| ==> !Below(s[q], s[p])
    ensures Swap(s, v, i)[..u] == s[..u]
    ensures forall p, q :: 0 <= p < u <= q < |s| ==> !Below(Swap(s, v, i)[q], Swap(s, v, i)[p])
  {
    var t := Swap(s, v, i);
    assert t[..u] == s[..u];
    forall p, q | 0 <= p < u <= q < |t| ensures !Below(t[q], t[p]) {
      SwapAt(t, v, i, q);
      assert Swap(t, v, i) == s;
    }
  }

  /** A bottom is exchanged with the first source that is not one. */
  lemma PassSwap(s: seq<Source>, s0: seq<Source>, u: nat, v: nat, i: nat, t: seq<Source>)
    requires PassInv(s, s0, u, v, i) && i < |s| && IsBottom(s, u, i) && t == Swap(s, v, i)
    ensures PassInv(t, s0, u, v + 1, i + 1)
  {
    SwapMultiset(s, v, i);
    SwapLattice(s, v, i);
    SwapKeepsBottoms(s, u, v, i);
    SwapKeepsOthers(s, u, v, i);
    SwapKeepsPrefix(s, u, v, i);
  }

  /** One pass of `pid_toposort` over the window `a[u..]`: every bottom of the
      window is exchanged to its front, in order, and `v` ends the bottoms. */
  method Pass(a: array<Source>, u: nat) returns (v: nat)
    requires u <= a.Length && Lattice(a[..])
    requires forall p, q :: 0 <= p < u <= q < a.Length ==> !Below(a[q], a[p])
    modifies a
    ensures u <= v <= a.Length
    ensures multiset(a[..]) == multiset(old(a[..])) && a[..u] == old(a[..u]) && Lattice(a[..])
    ensures forall p :: u <= p < v ==> IsBottom(a[..], u, p)
    ensures forall p :: v <= p < a.Length ==> !IsBottom(a[..], u, p)
    ensures forall p, q :: 0 <= p < u <= q < a.Length ==> !Below(a[q], a[p])
  {
    v := u;
    var i := u;
    while i < a.Length
      invariant PassInv(a[..], old(a[..]), u, v, i)
    {
      var isBottom := BottomAt(a, u, i);
      if isBottom {
        ghost var s := a[..];
        a[v], a[i] := a[i], a[v];
        assert a[..] == Swap(s, v, i);
        PassSwap(s, old(a[..]), u, v, i, a[..]);
        v := v + 1;
      } else {
        PassSkip(a[..], old(a[..]), u, v, i);
      }
      i := i + 1;
    }
  }

  /** Every non-empty window of distinct antichain names has a bottom. */
  lemma {:induction false} BottomExists(s: seq<Source>, u: nat)
    requires Lattice(s) && u < |s|
    ensures exists p :: u <= p < |s| && IsBottom(s, u, p)
    decreases |s| - u
  {
    if u + 1 == |s| {
      assert IsBottom(s, u, u);
    } else {
      BottomExists(s, u + 1);
      var p :| u + 1 <= p < |s| && IsBottom(s, u + 1, p);
      if !Below(s[u], s[p]) {
        assert IsBottom(s, u, p);
      } else {
        forall j | u <= j < |s| && j != u ensures !Below(s[j], s[u]) {
          if Below(s[j], s[u]) {
            BelowTransitive(s[j], s[u], s[p]);
            if j == p {
              BelowAntisymmetric(s[u], s[p]);
            }
          }
        }
        assert IsBottom(s, u, u);
      }
    }
  }

  /** After a pass from `u` the bottoms it placed come before everything
      after them, and it placed at least one. */
  lemma PassPlaces(s0: seq<Source>, s: seq<Source>, u: nat, v: nat)
    requires u < |s| && |s| == |s0| && u <= v <= |s| && s[..u] == s0[..u] && Lattice(s)
    requires forall p, q :: 0 <= p < u && p < q < |s0| ==> !Below(s0[q], s0[p])
    requires forall p :: u <= p < v ==> IsBottom(s, u, p)
    requires forall p :: v <= p < |s| ==> !IsBottom(s, u, p)
    requires forall p, q :: 0 <= p < u <= q < |s| ==> !Below(s[q], s[p])
    ensures u < v
    ensures forall p, q :: 0 <= p < v && p < q < |s| ==> !Below(s[q], s[p])
  {
    BottomExists(s, u);
    forall p, q | 0 <= p < v && p < q < |s| ensures !Below(s[q], s[p]) {
      if p < u && q < u {
        assert s[p] == s0[p] && s[q] == s0[q];
      } else if p >= u {
        assert IsBottom(s, u, p);
      }
    }
  }

  /** `pid_toposort`: an in-place sort after which no source is below one
      placed before it. The loop stops when one source is left, which is in
      place already. */
  method Toposort(a: array<Source>)
    requires Lattice(a[..])
    modifies a
    ensures multiset(a[..]) == multiset(old(a[..]))
    ensures forall p, q :: 0 <= p < q < a.Length ==> !Below(a[q], a[p])
  {
    var n := a.Length;
    var v := 0;
    while v + 1 < n
      invariant v <= n
      invariant multiset(a[..]) == multiset(old(a[..])) && Lattice(a[..])
      invariant forall p, q :: 0 <= p < v && p < q < n ==> !Below(a[q], a[p])
      decreases n - v
    {
      var u := v;
      ghost var before := a[..];
      v := Pass(a, u);
      PassPlaces(before, a[..], u, v);
    }
  }

  /** The guard of `pid_toposort` as written, in `size_t` arithmetic: for an
      empty vector `n - 1` wraps around to the largest `size_t`. */
  predicate ToposortGuardAsWritten(v: nat, n: nat)
  {
    v < (n + 0xFFFF_FFFF_FFFF_FFFF) % 0x1_0000_0000_0000_0000
  }

  /** With no sources the guard as written holds at the start, `v = 0`,
      while the guard `Toposort` uses does not. */
  lemma EmptyToposortSpinsAsWritten()
    ensures ToposortGuardAsWritten(0, 0) && !(0 + 1 < 0)
  {
  }

  /** A turn of the loop as written on an empty vector: the pass from
      `u = v = 0` places nothing, so `v` is 0 again and the guard as written
      holds again; the loop never stops. */
  method EmptyTurnAsWritten(a: array<Source>) returns (v: nat)
    requires a.Length == 0
    modifies a
    ensures v == 0 && ToposortGuardAsWritten(v, a.Length)
  {
    v := Pass(a, 0);
  }

  /** For a vector with at least one source the guard of `Toposort` is the
      guard as written. */
  lemma {:induction false} ToposortGuardsAgree(v: nat, n: nat)
    requires 0 < n < 0x1_0000_0000_0000_0000
    ensures ToposortGuardAsWritten(v, n) <==> v + 1 < n
  {
    var M := 0x1_0000_0000_0000_0000;
    assert M <= n + (M - 1) < 2 * M;
    assert (n + (M - 1)) % M == n - 1;
  }

  /** Two equal entries count twice. */
  lemma CountedTwice(xs: seq<seq<nat>>, p: nat, q: nat)
    requires p < q < |xs| && xs[p] == xs[q]
    ensures multiset(xs)[xs[p]] >= 2
  {
    assert xs == xs[..q] + [xs[q]] + xs[q + 1..];
    assert xs[..q][p] == xs[p];
  }

  /** The sources `pid_sources` returns meet what `Toposort` needs. */
  lemma SourcesSortable(n: nat)
    ensures Lattice(Allocated(Names(n)))
  {
    var names := Names(n);
    var s := Allocated(names);
    NamesExactlyOnce(n);
    forall p | 0 <= p < |s| ensures Ascending(s[p].name) && Antichain(s[p].name) {
      assert s[p].name == names[p];
      assert names[p] in multiset(names);
    }
    forall p, q | 0 <= p < q < |s| ensures s[p].name != s[q].name {
      if names[p] == names[q] {
        CountedTwice(names, p, q);
      }
    }
  }

  /** The masks below 4 that `pid_sources(2)` compares. */
  lemma SmallMasks()
    ensures Comparable(3, 1) && Comparable(3, 2) && !Comparable(2, 1)
  {
    assert And(3, 1) == 1 && And(2, 1) == 0 && And(3, 2) == 2;
  }

  /** The recursion under each block of `pid_sources(2)`. */
  lemma SmallGen()
    ensures Gen(3, 3, [1]) == [] && Gen(3, 3, [1, 2]) == [] && Gen(3, 3, [2]) == []
    ensures Gen(2, 3, [1]) == [[1, 2]]
  {
    SmallMasks();
    assert [1][0] == 1 && [1, 2][0] == 1 && [2][0] == 2;
    assert !Joinable(3, [1]) && !Joinable(3, [1, 2]) && !Joinable(3, [2]) && Joinable(2, [1]);
    assert [1] + [2] == [1, 2];
  }

  /** The redundancy lattice of two sources: `{1}`, `{1}{2}`, `{2}` and `{12}`,
      in the order `pid_sources` pushes them. */
  lemma NamesOfTwoSources()
    ensures Names(2) == [[1], [1, 2], [2], [3]]
  {
    SmallGen();
    assert Blocks(3, 3) == [[3]];
    assert Blocks(2, 3) == [[2], [3]];
  }

  /** With no inputs `m` is 0 and `pid_sources` pushes nothing. */
  lemma NamesOfNoSources()
    ensures Names(0) == []
  {
  }

  /** The masks `pid_sources(3)` compares with mask 7, `{123}`, which contains every other mask. */
  lemma MasksThree7()
    ensures And(7, 1) == 1 && And(7, 2) == 2 && And(7, 3) == 3 && And(7, 4) == 4 && And(7, 5) == 5 && And(7, 6) == 6
  {
  }

  /** The names of `pid_sources(3)` that push nothing more from mask 7 on. */
  lemma NoneThree7(m: nat)
    requires m == 7
    ensures |Gen(7, m, [1])| == 0
    ensures |Gen(7, m, [1, 2])| == 0
    ensures |Gen(7, m, [1, 2, 4])| == 0
    ensures |Gen(7, m, [1, 4])| == 0
    ensures |Gen(7, m, [1, 6])| == 0
    ensures |Gen(7, m, [2])| == 0
    ensures |Gen(7, m, [2, 4])| == 0
    ensures |Gen(7, m, [2, 5])| == 0
    ensures |Gen(7, m, [3])| == 0
    ensures |Gen(7, m, [3, 4])| == 0
    ensures |Gen(7, m, [3, 5])| == 0
    ensures |Gen(7, m, [3, 5, 6])| == 0
    ensures |Gen(7, m, [3, 6])| == 0
    ensures |Gen(7, m, [4])| == 0
    ensures |Gen(7, m, [5])| == 0
    ensures |Gen(7, m, [5, 6])| == 0
    ensures |Gen(7, m, [6])| == 0
  {
    MasksThree7();
    GenRefuses(7, m, [1], 0);
    GenRefuses(7, m, [1, 2], 0);
    GenRefuses(7, m, [1, 2, 4], 0);
    GenRefuses(7, m, [1, 4], 0);
    GenRefuses(7, m, [1, 6], 0);
    GenRefuses(7, m, [2], 0);
    GenRefuses(7, m, [2, 4], 0);
    GenRefuses(7, m, [2, 5], 0);
    GenRefuses(7, m, [3], 0);
    GenRefuses(7, m, [3, 4], 0);
    GenRefuses(7, m, [3, 5], 0);
    GenRefuses(7, m, [3, 5, 6], 0);
    GenRefuses(7, m, [3, 6], 0);
    GenRefuses(7, m, [4], 0);
    GenRefuses(7, m, [5], 0);
    GenRefuses(7, m, [5, 6], 0);
    GenRefuses(7, m, [6], 0);
  }

  /** The masks `pid_sources(3)` compares with mask 6. */
  lemma MasksThree6()
    ensures And(6, 1) == 0 && And(6, 2) == 2 && And(6, 3) == 2 && And(6, 4) == 4 && And(6, 5) == 4
  {
  }

  /** The names of `pid_sources(3)` that push nothing more from mask 6 on. */
  lemma NoneThree6(m: nat)
    requires m == 7
    ensures |Gen(6, m, [1, 2])| == 0
    ensures |Gen(6, m, [1, 2, 4])| == 0
    ensures |Gen(6, m, [1, 4])| == 0
    ensures |Gen(6, m, [2])| == 0
    ensures |Gen(6, m, [2, 4])| == 0
    ensures |Gen(6, m, [2, 5])| == 0
    ensures |Gen(6, m, [3, 4])| == 0
    ensures |Gen(6, m, [4])| == 0
  {
    MasksThree6();
    NoneThree7(m);
    GenRefuses(6, m, [1, 2], 1);
    GenRefuses(6, m, [1, 2, 4], 1);
    GenRefuses(6, m, [1, 4], 1);
    GenRefuses(6, m, [2], 0);
    GenRefuses(6, m, [2, 4], 0);
    GenRefuses(6, m, [2, 5], 0);
    GenRefuses(6, m, [3, 4], 1);
    GenRefuses(6, m, [4], 0);
  }

  /** How many names the recursion of `pid_sources(3)` pushes from mask 6 on. */
  lemma GenThree6(m: nat)
    requires m == 7
    ensures |Gen(6, m, [1])| == 1
    ensures |Gen(6, m, [3])| == 1
    ensures |Gen(6, m, [3, 5])| == 1
    ensures |Gen(6, m, [5])| == 1
  {
    MasksThree6();
    NoneThree7(m);
    assert Joinable(6, [1]);
    GenJoins(6, m, [1]);
    assert [1] + [6] == [1, 6];
    assert Joinable(6, [3]);
    GenJoins(6, m, [3]);
    assert [3] + [6] == [3, 6];
    assert Joinable(6, [3, 5]);
    GenJoins(6, m, [3, 5]);
    assert [3, 5] + [6] == [3, 5, 6];
    assert Joinable(6, [5]);
    GenJoins(6, m, [5]);
    assert [5] + [6] == [5, 6];
  }

  /** The masks `pid_sources(3)` compares with mask 5. */
  lemma MasksThree5()
    ensures And(5, 1) == 1 && And(5, 2) == 0 && And(5, 3) == 1 && And(5, 4) == 4
  {
  }

  /** The names of `pid_sources(3)` that push nothing more from mask 5 on. */
  lemma NoneThree5(m: nat)
    requires m == 7
    ensures |Gen(5, m, [1, 2])| == 0
    ensures |Gen(5, m, [1, 2, 4])| == 0
    ensures |Gen(5, m, [1, 4])| == 0
    ensures |Gen(5, m, [2, 4])| == 0
    ensures |Gen(5, m, [3, 4])| == 0
    ensures |Gen(5, m, [4])| == 0
  {
    MasksThree5();
    NoneThree6(m);
    GenRefuses(5, m, [1, 2], 0);
    GenRefuses(5, m, [1, 2, 4], 0);
    GenRefuses(5, m, [1, 4], 0);
    GenRefuses(5, m, [2, 4], 1);
    GenRefuses(5, m, [3, 4], 1);
    GenRefuses(5, m, [4], 0);
  }

  /** How many names the recursion of `pid_sources(3)` pushes from mask 5 on. */
  lemma GenThree5(m: nat)
    requires m == 7
    ensures |Gen(5, m, [1])| == 1
    ensures |Gen(5, m, [2])| == 1
    ensures |Gen(5, m, [3])| == 3
  {
    MasksThree5();
    GenThree6(m);
    NoneThree6(m);
    GenRefuses(5, m, [1], 0);
    assert Joinable(5, [2]);
    GenJoins(5, m, [2]);
    assert [2] + [5] == [2, 5];
    assert Joinable(5, [3]);
    GenJoins(5, m, [3]);
    assert [3] + [5] == [3, 5];
  }

  /** The masks `pid_sources(3)` compares with mask 4. */
  lemma MasksThree4()
    ensures And(4, 1) == 0 && And(4, 2) == 0 && And(4, 3) == 0
  {
  }

  /** How many names the recursion of `pid_sources(3)` pushes from mask 4 on. */
  lemma GenThree4(m: nat)
    requires m == 7
    ensures |Gen(4, m, [1])| == 2
    ensures |Gen(4, m, [1, 2])| == 1
    ensures |Gen(4, m, [2])| == 2
  {
    MasksThree4();
    GenThree5(m);
    NoneThree5(m);
    assert Joinable(4, [1]);
    GenJoins(4, m, [1]);
    assert [1] + [4] == [1, 4];
    assert Joinable(4, [1, 2]);
    GenJoins(4, m, [1, 2]);
    assert [1, 2] + [4] == [1, 2, 4];
    assert Joinable(4, [2]);
    GenJoins(4, m, [2]);
    assert [2] + [4] == [2, 4];
  }

  /** The names `pid_sources(3)` pushes under the block of mask 3, `{12}`. */
  lemma UnderTwelve(m: nat)
    requires m == 7
    ensures |Gen(4, m, [3])| == 4
  {
    MasksThree4();
    GenThree5(m);
    NoneThree5(m);
    assert Joinable(4, [3]);
    GenJoins(4, m, [3]);
    assert [3] + [4] == [3, 4];
  }

  /** The masks `pid_sources(3)` compares with mask 3. */
  lemma MasksThree3()
    ensures And(3, 1) == 1 && And(3, 2) == 2
  {
  }

  /** How many names the recursion of `pid_sources(3)` pushes from mask 3 on. */
  lemma GenThree3(m: nat)
    requires m == 7
    ensures |Gen(3, m, [1])| == 2
    ensures |Gen(3, m, [1, 2])| == 1
    ensures |Gen(3, m, [2])| == 2
  {
    MasksThree3();
    GenThree4(m);
    GenRefuses(3, m, [1], 0);
    GenRefuses(3, m, [1, 2], 0);
    GenRefuses(3, m, [2], 0);
  }

  /** The masks `pid_sources(3)` compares with mask 2. */
  lemma MasksThree2()
    ensures And(2, 1) == 0
  {
  }

  /** How many names the recursion of `pid_sources(3)` pushes from mask 2 on. */
  lemma GenThree2(m: nat)
    requires m == 7
    ensures |Gen(2, m, [1])| == 4
  {
    MasksThree2();
    GenThree3(m);
    assert Joinable(2, [1]);
    GenJoins(2, m, [1]);
    assert [1] + [2] == [1, 2];
  }

  /** The blocks of `pid_sources(3)`: each mask `i` of 1 .. 7 and the names under it. */
  lemma BlocksThree(m: nat)
    requires m == 7
    ensures |Blocks(1, m)| == 18
  {
    NoneThree7(m);
    GenThree6(m);
    NoneThree5(m);
    GenThree4(m);
    UnderTwelve(m);
    GenThree3(m);
    GenThree2(m);
    assert |Blocks(7, m)| == 1;
    assert |Blocks(6, m)| == 2;
    assert |Blocks(5, m)| == 4;
    assert |Blocks(4, m)| == 5;
    assert |Blocks(3, m)| == 10;
    assert |Blocks(2, m)| == 13;
  }

  /** The redundancy lattice of three sources has 18 names: `pid_sources(3)`
      pushes 18 sources. */
  lemma NamesOfThreeSources()
    ensures |Names(3)| == 18
  {
    BlocksThree(Pow2(3) - 1);
  }
}
