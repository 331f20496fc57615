/** console/fit.py's layer splitter: the greedy fill, the halving search around it, and the
    upper-bound rule by which llama.cpp decides where each layer really lands. Bytes are reals. */
module LlamaSplit {
  import opened Wrappers

  const MIB: real := 1048576.0

  // ---- sums of layer bytes --------------------------------------------------------------

  /** Bytes of layers i, i+1, ..., j-1. */
  function Sum(b: seq<real>, i: nat, j: nat): real
    requires i <= j <= |b|
    decreases j - i
  {
    if i == j then 0.0 else Sum(b, i, j - 1) + b[j - 1]
  }

  ghost predicate NonNegative(b: seq<real>) { forall il :: 0 <= il < |b| ==> b[il] >= 0.0 }

  lemma {:induction false} SumSplits(b: seq<real>, i: nat, j: nat, k: nat)
    requires i <= j <= k <= |b|
    ensures Sum(b, i, k) == Sum(b, i, j) + Sum(b, j, k)
    decreases k - j
  {
    if j < k { SumSplits(b, i, j, k - 1); }
  }

  lemma {:induction false} SumNonNegative(b: seq<real>, i: nat, j: nat)
    requires i <= j <= |b| && NonNegative(b)
    ensures Sum(b, i, j) >= 0.0
    decreases j - i
  {
    if i < j { SumNonNegative(b, i, j - 1); }
  }

  /** A wider range holds at least the bytes of one inside it. */
  lemma SumWider(b: seq<real>, i: nat, i': nat, j': nat, j: nat)
    requires i <= i' <= j' <= j <= |b| && NonNegative(b)
    ensures Sum(b, i', j') <= Sum(b, i, j)
  {
    SumSplits(b, i, i', j);
    SumSplits(b, i', j', j);
    SumNonNegative(b, i, i');
    SumNonNegative(b, j', j);
  }

  // ---- contiguous splits ------------------------------------------------------------------

  /** The first layer of card c when the cards take ts[0], ts[1], ... layers in turn. */
  function First(ts: seq<nat>, c: nat): nat
    requires c <= |ts|
  {
    if c == 0 then 0 else First(ts, c - 1) + ts[c - 1]
  }

  lemma {:induction false} FirstMono(ts: seq<nat>, c: nat, d: nat)
    requires c <= d <= |ts|
    ensures First(ts, c) <= First(ts, d)
    decreases d - c
  {
    if c < d { FirstMono(ts, c, d - 1); }
  }

  lemma {:induction false} FirstAppend(ts: seq<nat>, t: nat, c: nat)
    requires c <= |ts|
    ensures First(ts + [t], c) == First(ts, c)
  {
    if c > 0 { FirstAppend(ts, t, c - 1); }
  }

  /** ts splits n layers over k cards, empty cards allowed, the output layer on the last card. */
  predicate IsSplit(ts: seq<nat>, k: nat, n: nat)
  {
    |ts| == k > 0 && First(ts, k) == n && ts[k - 1] >= 1
  }

  /** Bytes on card c of a split, or of its first cards. */
  function Load(b: seq<real>, ts: seq<nat>, c: nat): real
    requires c < |ts| && First(ts, |ts|) <= |b|
  {
    FirstMono(ts, c + 1, |ts|);
    Sum(b, First(ts, c), First(ts, c + 1))
  }

  ghost predicate Within(b: seq<real>, ts: seq<nat>, cap: real)
  {
    First(ts, |ts|) <= |b| && forall c :: 0 <= c < |ts| ==> Load(b, ts, c) <= cap
  }

  ghost predicate Fits(b: seq<real>, ts: seq<nat>, k: nat, cap: real)
  {
    IsSplit(ts, k, |b|) && Within(b, ts, cap)
  }

  /** Some contiguous split keeps every card within cap bytes. */
  ghost predicate Splittable(b: seq<real>, k: nat, cap: real)
  {
    exists ts: seq<nat> :: Fits(b, ts, k, cap)
  }

  lemma SplittableMono(b: seq<real>, k: nat, cap: real, cap': real)
    requires Splittable(b, k, cap) && cap <= cap'
    ensures Splittable(b, k, cap')
  {
    var ts: seq<nat> :| Fits(b, ts, k, cap);
    assert Fits(b, ts, k, cap');
  }

  // ---- greedy fill --------------------------------------------------------------------------

  /** Greedy stays ahead: a split whose card c starts at or before the greedy start cannot
      start card c+1 after the greedy stop at i. */
  lemma StaysAhead(b: seq<real>, q: seq<nat>, k: nat, cap: real, c: nat, start: nat, i: nat)
    requires NonNegative(b) && Fits(b, q, k, cap) && c + 1 < k
    requires First(q, c) <= start <= i < |b|
    requires i == |b| - 1 || Sum(b, start, i) + b[i] > cap
    ensures First(q, c + 1) <= i
  {
    FirstMono(q, c + 1, k - 1);
    assert Load(b, q, c) <= cap;
    if First(q, c + 1) > i {
      SumWider(b, First(q, c), start, i + 1, First(q, c + 1));
    }
  }

  lemma WithinAppend(b: seq<real>, ts: seq<nat>, cap: real, t: nat)
    requires cap >= 0.0 ==> Within(b, ts, cap)
    requires First(ts, |ts|) + t <= |b|
    requires cap >= 0.0 ==> Sum(b, First(ts, |ts|), First(ts, |ts|) + t) <= cap
    ensures cap >= 0.0 ==> Within(b, ts + [t], cap)
    ensures First(ts + [t], |ts| + 1) == First(ts, |ts|) + t
  {
    var us := ts + [t];
    FirstAppend(ts, t, |ts|);
    forall c | cap >= 0.0 && 0 <= c < |us| ensures Load(b, us, c) <= cap {
      FirstAppend(ts, t, c);
      if c < |ts| {
        FirstAppend(ts, t, c + 1);
        assert Load(b, ts, c) <= cap;
      }
    }
  }

  /** No split under the cap starts card c after i. */
  ghost predicate Ahead(b: seq<real>, k: nat, cap: real, c: nat, i: nat)
    requires c <= k
  {
    forall q: seq<nat> :: Fits(b, q, k, cap) ==> First(q, c) <= i
  }

  lemma AllStayBehind(b: seq<real>, k: nat, cap: real, c: nat, start: nat, i: nat)
    requires NonNegative(b) && c + 1 < k && start <= i < |b| && Ahead(b, k, cap, c, start)
    requires i == |b| - 1 || Sum(b, start, i) + b[i] > cap
    ensures Ahead(b, k, cap, c + 1, i)
  {
    forall q: seq<nat> | Fits(b, q, k, cap) ensures First(q, c + 1) <= i {
      StaysAhead(b, q, k, cap, c, start, i);
    }
  }

  lemma NothingFits(b: seq<real>, k: nat, cap: real, i: nat)
    requires NonNegative(b) && k >= 1 && i <= |b| && Ahead(b, k, cap, k - 1, i) && Sum(b, i, |b|) > cap
    ensures !Splittable(b, k, cap)
  {
    forall q: seq<nat> ensures !Fits(b, q, k, cap) {
      if Fits(b, q, k, cap) { LastCard(b, q, k, cap, i); }
    }
  }

  /** Where a card that starts at start ends, having taken the layers before i. */
  function CardEnd(b: seq<real>, start: nat, i: nat, cap: real): (e: nat)
    requires start <= i < |b|
    ensures i <= e < |b|
    decreases |b| - i
  {
    if i < |b| - 1 && Sum(b, start, i) + b[i] <= cap then CardEnd(b, start, i + 1, cap) else i
  }

  /** The counts of k cards that take layers from start on, each but the last while they fit. */
  function Greedy(b: seq<real>, k: nat, cap: real, start: nat): seq<nat>
    requires k >= 1 && start < |b|
    decreases k
  {
    if k == 1 then [|b| - start]
    else
      var e := CardEnd(b, start, start, cap);
      [e - start] + Greedy(b, k - 1, cap, e)
  }

  lemma GreedyStep(b: seq<real>, k: nat, cap: real, start: nat, ts: seq<nat>)
    requires k >= 2 && start < |b|
    ensures var e := CardEnd(b, start, start, cap);
            ts + Greedy(b, k, cap, start) == ts + [e - start] + Greedy(b, k - 1, cap, e)
  {
  }

  /** The first |ts| cards are filled up to layer i, no split is further, and the rest is to do. */
  ghost predicate Filled(b: seq<real>, k: nat, cap: real, ts: seq<nat>, i: nat)
  {
    |ts| < k && First(ts, |ts|) == i < |b| && (cap >= 0.0 ==> Within(b, ts, cap)) && Ahead(b, k, cap, |ts|, i)
    && Greedy(b, k, cap, 0) == ts + Greedy(b, k - |ts|, cap, i)
  }

  lemma CardFilled(b: seq<real>, k: nat, cap: real, ts: seq<nat>, start: nat, i: nat)
    requires NonNegative(b) && Filled(b, k, cap, ts, start) && |ts| + 1 < k
    requires start <= i < |b| && i == CardEnd(b, start, start, cap) && (cap >= 0.0 ==> Sum(b, start, i) <= cap)
    requires i == |b| - 1 || Sum(b, start, i) + b[i] > cap
    ensures Filled(b, k, cap, ts + [i - start], i)
  {
    GreedyStep(b, k - |ts|, cap, start, ts);
    AllStayBehind(b, k, cap, |ts|, start, i);
    WithinAppend(b, ts, cap, i - start);
  }

  lemma LastFilled(b: seq<real>, k: nat, cap: real, ts: seq<nat>, i: nat)
    requires NonNegative(b) && Filled(b, k, cap, ts, i) && |ts| == k - 1 && Sum(b, i, |b|) <= cap
    ensures Fits(b, ts + [|b| - i], k, cap) && ts + [|b| - i] == Greedy(b, k, cap, 0)
  {
    SumNonNegative(b, i, |b|);
    WithinAppend(b, ts, cap, |b| - i);
  }

  /** fill(cap): each card but the last takes layers while they fit. */
  method Fill(b: seq<real>, k: nat, cap: real) returns (r: Option<seq<nat>>)
    requires k >= 1 && |b| >= 1 && NonNegative(b)
    ensures r.Some? ==> Fits(b, r.value, k, cap) && r.value == Greedy(b, k, cap, 0)
    ensures r.None? ==> !Splittable(b, k, cap)
  {
    var ts: seq<nat>, i: nat := [], 0;
    for c := 0 to k - 1
      invariant |ts| == c && Filled(b, k, cap, ts, i)
    {
      var start := i;
      i := FillCard(b, start, cap);
      CardFilled(b, k, cap, ts, start, i);
      ts := ts + [i - start];
    }
    if Sum(b, i, |b|) > cap {
      NothingFits(b, k, cap, i);
      return None;
    }
    LastFilled(b, k, cap, ts, i);
    r := Some(ts + [|b| - i]);
  }

  /** The layers one card takes from start on. */
  method FillCard(b: seq<real>, start: nat, cap: real) returns (i: nat)
    requires start < |b|
    ensures start <= i < |b| && i == CardEnd(b, start, start, cap)
    ensures cap >= 0.0 ==> Sum(b, start, i) <= cap
    ensures i == |b| - 1 || Sum(b, start, i) + b[i] > cap
  {
    var used := 0.0;
    i := start;
    while i < |b| - 1 && used + b[i] <= cap
      invariant start <= i < |b| && used == Sum(b, start, i)
      invariant CardEnd(b, start, start, cap) == CardEnd(b, start, i, cap)
      invariant cap >= 0.0 ==> used <= cap
    {
      used := used + b[i];
      i := i + 1;
    }
  }

  lemma LastCard(b: seq<real>, q: seq<nat>, k: nat, cap: real, i: nat)
    requires NonNegative(b) && Fits(b, q, k, cap) && First(q, k - 1) <= i <= |b|
    ensures Sum(b, i, |b|) <= cap
  {
    assert Load(b, q, k - 1) <= cap;
    SumWider(b, First(q, k - 1), i, |b|, |b|);
  }

  // ---- the halving search ---------------------------------------------------------------

  function MaxOf(b: seq<real>): (m: real)
    requires |b| >= 1
    ensures m in b
    ensures forall il :: 0 <= il < |b| ==> b[il] <= m
  {
    if |b| == 1 then b[0]
    else
      var r := MaxOf(b[..|b| - 1]);
      if b[|b| - 1] > r then b[|b| - 1] else r
  }

  /** Every layer is on some card. */
  lemma {:induction false} CardOfLayer(ts: seq<nat>, k: nat, il: nat) returns (c: nat)
    requires k <= |ts| && il < First(ts, k)
    ensures c < k && First(ts, c) <= il < First(ts, c + 1)
  {
    if First(ts, k - 1) <= il { c := k - 1; } else { c := CardOfLayer(ts, k - 1, il); }
  }

  /** No split is lighter than its heaviest layer. */
  lemma MaxIsLowerBound(b: seq<real>, k: nat, cap: real)
    requires |b| >= 1 && NonNegative(b) && Splittable(b, k, cap)
    ensures MaxOf(b) <= cap
  {
    var ts: seq<nat> :| Fits(b, ts, k, cap);
    var il: nat :| il < |b| && b[il] == MaxOf(b);
    var c := CardOfLayer(ts, k, il);
    FirstMono(ts, c + 1, k);
    SumWider(b, First(ts, c), il, il + 1, First(ts, c + 1));
    assert Load(b, ts, c) <= cap;
  }

  /** Where the halving between lo and hi ends. */
  ghost function FinalCap(b: seq<real>, k: nat, lo: real, hi: real): real
    decreases hi - lo
  {
    var mid := (lo + hi) / 2.0;
    if hi - lo <= MIB then hi
    else if Splittable(b, k, mid) then FinalCap(b, k, lo, mid)
    else FinalCap(b, k, mid, hi)
  }

  /** The cap of the last fill. */
  ghost function CapFor(b: seq<real>, k: nat, room: real): real
    requires |b| >= 1
  {
    FinalCap(b, k, MaxOf(b), room)
  }

  /** llama_split: None exactly when nothing fits; otherwise a split within room whose largest
      load is within 1 MiB of every other split's. */
  method Split(b: seq<real>, k: nat, room: real) returns (r: Option<seq<nat>>)
    requires k >= 1 && |b| >= 1 && NonNegative(b)
    ensures r.None? <==> !Splittable(b, k, room)
    ensures r.Some? ==> Fits(b, r.value, k, room)
    ensures r.Some? ==> forall cap: real :: Splittable(b, k, cap) ==> Fits(b, r.value, k, cap + MIB)
    ensures r.Some? ==> r.value == Greedy(b, k, CapFor(b, k, room), 0)
    ensures r.Some? && Spaced(b) ==> Lightest(b, r.value, k)
  {
    var first := Fill(b, k, room);
    if first.None? {
      return None;
    }
    assert Splittable(b, k, room);
    var lo, hi := MaxOf(b), room;
    forall cap: real | Splittable(b, k, cap) ensures lo <= cap { MaxIsLowerBound(b, k, cap); }
    while hi - lo > MIB
      invariant hi <= room && Splittable(b, k, hi) && CapFor(b, k, room) == FinalCap(b, k, lo, hi)
      invariant forall cap: real :: Splittable(b, k, cap) ==> lo <= cap
      decreases hi - lo
    {
      var mid := (lo + hi) / 2.0;
      var f := Fill(b, k, mid);
      if f.Some? {
        assert Fits(b, f.value, k, mid);
        hi := mid;
      } else {
        forall cap: real | Splittable(b, k, cap) ensures mid <= cap {
          if cap < mid { SplittableMono(b, k, cap, mid); }
        }
        lo := mid;
      }
    }
    r := Fill(b, k, hi);
    if Spaced(b) { WithinSpacing(b, r.value, k); }
  }

  // ---- the lightest split --------------------------------------------------------------------

  function Loads(b: seq<real>, ts: seq<nat>): (r: seq<real>)
    requires First(ts, |ts|) <= |b|
    ensures |r| == |ts| && forall c :: 0 <= c < |ts| ==> r[c] == Load(b, ts, c)
  {
    seq(|ts|, c requires 0 <= c < |ts| => Load(b, ts, c))
  }

  lemma LargestLoad(b: seq<real>, ts: seq<nat>, k: nat, cap: real) returns (i: nat, j: nat)
    requires Fits(b, ts, k, cap) && k >= 1
    ensures i <= j <= |b| && Sum(b, i, j) == MaxOf(Loads(b, ts)) <= cap && Fits(b, ts, k, Sum(b, i, j))
  {
    var c: nat :| c < |ts| && Loads(b, ts)[c] == MaxOf(Loads(b, ts));
    FirstMono(ts, c, c + 1);
    FirstMono(ts, c + 1, |ts|);
    i, j := First(ts, c), First(ts, c + 1);
    assert Load(b, ts, c) <= cap;
    forall d | 0 <= d < |ts| ensures Load(b, ts, d) <= Sum(b, i, j) {
      var loads := Loads(b, ts);
      assert loads[d] <= MaxOf(loads);
    }
  }

  /** The split's largest load is as small as any split's. */
  ghost predicate Lightest(b: seq<real>, ts: seq<nat>, k: nat)
    requires IsSplit(ts, k, |b|)
  {
    forall cap: real :: Splittable(b, k, cap) ==> Within(b, ts, cap)
  }

  /** Any two different sums of neighbouring layers are more than 1 MiB apart. */
  ghost predicate Spaced(b: seq<real>)
  {
    forall i, j, i', j' :: 0 <= i <= j <= |b| && 0 <= i' <= j' <= |b| && Sum(b, i, j) < Sum(b, i', j')
      ==> Sum(b, i', j') - Sum(b, i, j) > MIB
  }

  lemma WithinSpacing(b: seq<real>, ts: seq<nat>, k: nat)
    requires IsSplit(ts, k, |b|) && Spaced(b)
    requires forall cap: real :: Splittable(b, k, cap) ==> Fits(b, ts, k, cap + MIB)
    ensures Lightest(b, ts, k)
  {
    forall cap: real | Splittable(b, k, cap) ensures Within(b, ts, cap) {
      var us: seq<nat> :| Fits(b, us, k, cap);
      var i, j := LargestLoad(b, us, k, cap);
      assert Splittable(b, k, Sum(b, i, j));
      var i', j' := LargestLoad(b, ts, k, Sum(b, i, j) + MIB);
    }
  }

  lemma {:induction false} CardEndStops(b: seq<real>, start: nat, i: nat, cap: real)
    requires start <= i < |b| && (cap >= 0.0 ==> Sum(b, start, i) <= cap)
    ensures var e := CardEnd(b, start, i, cap);
            (cap >= 0.0 ==> Sum(b, start, e) <= cap) && (e == |b| - 1 || Sum(b, start, e) + b[e] > cap)
    decreases |b| - i
  {
    if i < |b| - 1 && Sum(b, start, i) + b[i] <= cap { CardEndStops(b, start, i + 1, cap); }
  }

  lemma {:induction false} GreedyFrom(b: seq<real>, k: nat, cap: real, ts: seq<nat>, i: nat)
    requires NonNegative(b) && Filled(b, k, cap, ts, i) && Splittable(b, k, cap)
    ensures Fits(b, Greedy(b, k, cap, 0), k, cap)
    decreases k - |ts|
  {
    if |ts| == k - 1 {
      if Sum(b, i, |b|) > cap { NothingFits(b, k, cap, i); }
      LastFilled(b, k, cap, ts, i);
    } else {
      var e := CardEnd(b, i, i, cap);
      CardEndStops(b, i, i, cap);
      CardFilled(b, k, cap, ts, i, e);
      GreedyFrom(b, k, cap, ts + [e - i], e);
    }
  }

  /** The greedy fill keeps every cap that some split keeps. */
  lemma GreedyFits(b: seq<real>, k: nat, cap: real)
    requires k >= 1 && |b| >= 1 && NonNegative(b) && Splittable(b, k, cap)
    ensures Fits(b, Greedy(b, k, cap, 0), k, cap)
  {
    GreedyFrom(b, k, cap, [], 0);
  }

  lemma {:induction false} SameCardEnd(b: seq<real>, start: nat, i: nat, cap: real, less: real)
    requires NonNegative(b) && start <= i < |b| && less <= cap && Sum(b, start, CardEnd(b, start, i, cap)) <= less
    ensures CardEnd(b, start, i, less) == CardEnd(b, start, i, cap)
    decreases |b| - i
  {
    if i < |b| - 1 && Sum(b, start, i) + b[i] <= cap {
      SameCardEnd(b, start, i + 1, cap, less);
      SumWider(b, start, start, i + 1, CardEnd(b, start, i, cap));
    }
  }

  lemma {:induction false} FirstPrefix(us: seq<nat>, vs: seq<nat>, c: nat)
    requires c <= |us|
    ensures First(us + vs, c) == First(us, c)
  {
    if c > 0 { FirstPrefix(us, vs, c - 1); }
  }

  /** A greedy fill that keeps less than its cap is the fill under that. */
  lemma {:induction false} SameFill(b: seq<real>, k: nat, cap: real, less: real, us: seq<nat>, start: nat)
    requires NonNegative(b) && less <= cap && |us| < k && start < |b| && First(us, |us|) == start
    requires Fits(b, us + Greedy(b, k - |us|, cap, start), k, less)
    ensures Greedy(b, k - |us|, less, start) == Greedy(b, k - |us|, cap, start)
    decreases k - |us|
  {
    if |us| < k - 1 {
      var e := CardEnd(b, start, start, cap);
      var ts := us + Greedy(b, k - |us|, cap, start);
      var us' := us + [e - start];
      assert ts == us' + Greedy(b, k - |us'|, cap, e);
      FirstPrefix(us, Greedy(b, k - |us|, cap, start), |us|);
      assert Load(b, ts, |us|) == Sum(b, start, e);
      SameCardEnd(b, start, start, cap, less);
      FirstAppend(us, e - start, |us|);
      SameFill(b, k, cap, less, us', e);
    }
  }

  /** fill returns the same under each sum of neighbouring layers that is less and can be kept. */
  ghost predicate SameUnderSmallerSums(b: seq<real>, k: nat, cap: real)
    requires k >= 1 && |b| >= 1
  {
    forall i, j :: 0 <= i <= j <= |b| && Sum(b, i, j) <= cap && Splittable(b, k, Sum(b, i, j))
      ==> Greedy(b, k, Sum(b, i, j), 0) == Greedy(b, k, cap, 0)
  }

  lemma GreedyLightestIff(b: seq<real>, k: nat, cap: real)
    requires k >= 1 && |b| >= 1 && NonNegative(b) && Splittable(b, k, cap)
    ensures IsSplit(Greedy(b, k, cap, 0), k, |b|)
    ensures Lightest(b, Greedy(b, k, cap, 0), k) <==> SameUnderSmallerSums(b, k, cap)
  {
    var g := Greedy(b, k, cap, 0);
    GreedyFits(b, k, cap);
    if Lightest(b, g, k) {
      forall i, j | 0 <= i <= j <= |b| && Sum(b, i, j) <= cap && Splittable(b, k, Sum(b, i, j))
        ensures Greedy(b, k, Sum(b, i, j), 0) == g
      {
        assert [] + g == g;
        SameFill(b, k, cap, Sum(b, i, j), [], 0);
      }
    }
    if SameUnderSmallerSums(b, k, cap) {
      forall less: real | Splittable(b, k, less) ensures Within(b, g, less) { SmallerSumDecides(b, k, cap, less); }
    }
  }

  lemma SmallerSumDecides(b: seq<real>, k: nat, cap: real, less: real)
    requires k >= 1 && |b| >= 1 && NonNegative(b) && Splittable(b, k, cap) && SameUnderSmallerSums(b, k, cap)
    requires Splittable(b, k, less)
    ensures Within(b, Greedy(b, k, cap, 0), less)
  {
    GreedyFits(b, k, cap);
    if less < cap {
      var us: seq<nat> :| Fits(b, us, k, less);
      var i, j := LargestLoad(b, us, k, less);
      assert Splittable(b, k, Sum(b, i, j));
      GreedyFits(b, k, Sum(b, i, j));
    }
  }

  lemma {:induction false} FinalCapSplits(b: seq<real>, k: nat, lo: real, hi: real)
    requires Splittable(b, k, hi)
    ensures Splittable(b, k, FinalCap(b, k, lo, hi))
    decreases hi - lo
  {
    if hi - lo > MIB {
      var mid := (lo + hi) / 2.0;
      if Splittable(b, k, mid) { FinalCapSplits(b, k, lo, mid); } else { FinalCapSplits(b, k, mid, hi); }
    }
  }

  /** llama_split returns the lightest split exactly when no smaller sum of neighbouring layers makes
      another fill than the cap at which its halving ends. */
  lemma LightestIff(b: seq<real>, k: nat, room: real)
    requires k >= 1 && |b| >= 1 && NonNegative(b) && Splittable(b, k, room)
    ensures var cap := CapFor(b, k, room);
            var ts := Greedy(b, k, cap, 0);
            IsSplit(ts, k, |b|) && (Lightest(b, ts, k) <==> SameUnderSmallerSums(b, k, cap))
  {
    FinalCapSplits(b, k, MaxOf(b), room);
    GreedyLightestIff(b, k, CapFor(b, k, room));
  }

  const ThreeBytes: seq<real> := [1.0, 1.0, 1.0]

  lemma ThreeBytesSums()
    ensures Sum(ThreeBytes, 0, 0) == 0.0 && Sum(ThreeBytes, 0, 1) == 1.0 && Sum(ThreeBytes, 0, 2) == 2.0
    ensures Sum(ThreeBytes, 1, 2) == 1.0 && Sum(ThreeBytes, 2, 2) == 0.0 && Sum(ThreeBytes, 2, 3) == 1.0
  {
  }

  lemma ThreeBytesGreedy()
    ensures Greedy(ThreeBytes, 3, 3.0, 0) == [2, 0, 1]
  {
    var b := ThreeBytes;
    ThreeBytesSums();
    assert CardEnd(b, 0, 2, 3.0) == 2 && CardEnd(b, 0, 1, 3.0) == 2 && CardEnd(b, 0, 0, 3.0) == 2;
    assert CardEnd(b, 2, 2, 3.0) == 2;
    assert Greedy(b, 1, 3.0, 2) == [1] && Greedy(b, 2, 3.0, 2) == [0, 1];
  }

  lemma ThreeBytesLoads(ts: seq<nat>)
    requires ts == [2, 0, 1] || ts == [1, 1, 1]
    ensures IsSplit(ts, 3, 3) && Load(ThreeBytes, ts, 0) == ts[0] as real
    ensures Load(ThreeBytes, ts, 1) == ts[1] as real && Load(ThreeBytes, ts, 2) == ts[2] as real
  {
    ThreeBytesSums();
    assert First(ts, 0) == 0 && First(ts, 1) == ts[0] && First(ts, 2) == 2 && First(ts, 3) == 3;
  }

  /** Three layers of a byte each on three cards with room for three bytes: the halving stops at
      once and the first card gets two, where one each was possible. */
  lemma SplitMissesTheLightest()
    ensures CapFor(ThreeBytes, 3, 3.0) == 3.0 && Greedy(ThreeBytes, 3, 3.0, 0) == [2, 0, 1]
    ensures Fits(ThreeBytes, [2, 0, 1], 3, 3.0) && Load(ThreeBytes, [2, 0, 1], 0) == 2.0
    ensures Fits(ThreeBytes, [1, 1, 1], 3, 1.0)
  {
    ThreeBytesGreedy();
    ThreeBytesLoads([2, 0, 1]);
    ThreeBytesLoads([1, 1, 1]);
  }

  // ---- lighter layers split wherever heavier ones do ------------------------------------------

  lemma {:induction false} SumPointwise(b: seq<real>, h: seq<real>, i: nat, j: nat)
    requires |b| == |h| && i <= j <= |b| && forall il :: 0 <= il < |b| ==> b[il] <= h[il]
    ensures Sum(b, i, j) <= Sum(h, i, j)
    decreases j - i
  {
    if i < j { SumPointwise(b, h, i, j - 1); }
  }

  lemma SplittableLighter(b: seq<real>, h: seq<real>, k: nat, cap: real)
    requires |b| == |h| && forall il :: 0 <= il < |b| ==> b[il] <= h[il]
    requires Splittable(h, k, cap)
    ensures Splittable(b, k, cap)
  {
    var ts: seq<nat> :| Fits(h, ts, k, cap);
    forall c | 0 <= c < |ts| ensures Load(b, ts, c) <= cap {
      assert Load(h, ts, c) <= cap;
      FirstMono(ts, c + 1, |ts|);
      SumPointwise(b, h, First(ts, c), First(ts, c + 1));
    }
    assert Fits(b, ts, k, cap);
  }

  // ---- where llama.cpp puts the layers ----------------------------------------------------------

  /** bisect_right of il / layers in the cumulative fractions cums / total, cross-multiplied:
      the first device whose share of the layers ends past il. */
  function UpperBound(cums: seq<nat>, total: nat, il: nat, layers: nat): (d: nat)
    ensures d <= |cums|
    ensures forall c :: 0 <= c < d ==> cums[c] * layers <= il * total
    ensures d < |cums| ==> cums[d] * layers > il * total
  {
    if cums == [] || cums[0] * layers > il * total then 0
    else 1 + UpperBound(cums[1..], total, il, layers)
  }

  /** The cumulative layer counts of the first c cards. */
  function Ends(ts: seq<nat>, c: nat): (e: seq<nat>)
    requires c <= |ts|
    ensures |e| == c
    ensures forall d :: 0 <= d < c ==> e[d] == First(ts, d + 1)
  {
    if c == 0 then [] else Ends(ts, c - 1) + [First(ts, c)]
  }

  function Device(ts: seq<nat>, il: nat, layers: nat): nat
  {
    UpperBound(Ends(ts, |ts|), First(ts, |ts|), il, layers)
  }

  function Devices(ts: seq<nat>, layers: nat): (dev: seq<nat>)
    ensures |dev| == layers
    ensures forall il :: 0 <= il < layers ==> dev[il] == Device(ts, il, layers)
  {
    seq(layers, il requires 0 <= il < layers => Device(ts, il, layers))
  }

  /** llama_layer_devices: the device of each repeating layer and, last, of the output layer.
      The fractions divide by the sum of ts, which must not be 0. */
  method LayerDevices(ts: seq<nat>, nLayer: nat) returns (dev: seq<nat>)
    requires First(ts, |ts|) > 0
    ensures dev == Devices(ts, nLayer + 1)
  {
    var cum, cums := 0, [];
    for c := 0 to |ts|
      invariant cum == First(ts, c) && cums == Ends(ts, c)
    {
      cum := cum + ts[c];
      cums := cums + [cum];
    }
    dev := seq(nLayer + 1, il requires 0 <= il <= nLayer => UpperBound(cums, cum, il, nLayer + 1));
  }

  lemma CrossMultiplied(x: nat, il: nat, n: nat)
    requires n > 0
    ensures x * n <= il * n <==> x <= il
  {
  }

  /** No layer falls past the last device, whatever the counts. */
  lemma DeviceExists(ts: seq<nat>, il: nat, layers: nat)
    requires First(ts, |ts|) > 0 && il < layers
    ensures Device(ts, il, layers) < |ts|
  {
    CrossMultiplied(layers, il, First(ts, |ts|));
    assert Ends(ts, |ts|)[|ts| - 1] == First(ts, |ts|);
  }

  /** For integer counts that sum to the number of layers (the output layer included), layer il
      is on card c exactly when it lies in segment c; cards of count 0 get none. */
  lemma DevicesMatchCounts(ts: seq<nat>, k: nat, n: nat, il: nat, c: nat)
    requires IsSplit(ts, k, n) && il < n && c < k
    ensures Device(ts, il, n) == c <==> First(ts, c) <= il < First(ts, c + 1)
  {
    var d := Device(ts, il, n);
    DeviceExists(ts, il, n);
    CrossMultiplied(First(ts, d + 1), il, n);
    assert Ends(ts, k)[d] == First(ts, d + 1);
    if d > 0 {
      CrossMultiplied(First(ts, d), il, n);
      assert Ends(ts, k)[d - 1] == First(ts, d);
    }
    if c < d { FirstMono(ts, c + 1, d); }
    if d < c { FirstMono(ts, d + 1, c); }
  }

  lemma OutputLayerOnLast(ts: seq<nat>, k: nat, n: nat)
    requires IsSplit(ts, k, n)
    ensures Device(ts, n - 1, n) == k - 1
  {
    DevicesMatchCounts(ts, k, n, n - 1, k - 1);
  }

  /** Bytes of the layers below upto that dev puts on card c. */
  function OnCard(b: seq<real>, dev: seq<nat>, c: nat, upto: nat): real
    requires upto <= |b| == |dev|
  {
    if upto == 0 then 0.0
    else OnCard(b, dev, c, upto - 1) + if dev[upto - 1] == c then b[upto - 1] else 0.0
  }

  /** llama_cards: each layer's bytes added to the card its device names. */
  method Cards(ts: seq<nat>, b: seq<real>) returns (out: seq<real>)
    requires First(ts, |ts|) > 0 && |b| >= 1
    ensures |out| == |ts|
    ensures forall c :: 0 <= c < |ts| ==> out[c] == OnCard(b, Devices(ts, |b|), c, |b|)
  {
    var dev := LayerDevices(ts, |b| - 1);
    forall il | 0 <= il < |b| ensures dev[il] < |ts| { DeviceExists(ts, il, |b|); }
    out := AddUp(b, dev, |ts|);
  }

  method AddUp(b: seq<real>, dev: seq<nat>, k: nat) returns (out: seq<real>)
    requires |dev| == |b| && forall il :: 0 <= il < |b| ==> dev[il] < k
    ensures |out| == k
    ensures forall c :: 0 <= c < k ==> out[c] == OnCard(b, dev, c, |b|)
  {
    out := seq(k, _ => 0.0);
    for il := 0 to |b|
      invariant |out| == k
      invariant forall c :: 0 <= c < k ==> out[c] == OnCard(b, dev, c, il)
    {
      out := out[dev[il] := out[dev[il]] + b[il]];
    }
  }

  lemma {:induction false} OnCardIsSegment(b: seq<real>, dev: seq<nat>, c: nat, lo: nat, hi: nat, upto: nat)
    requires |dev| == |b| && lo <= hi <= |b| && upto <= |b|
    requires forall il :: 0 <= il < |b| ==> (dev[il] == c <==> lo <= il < hi)
    ensures OnCard(b, dev, c, upto) ==
            if upto <= lo then 0.0 else Sum(b, lo, if upto <= hi then upto else hi)
  {
    if upto > 0 { OnCardIsSegment(b, dev, c, lo, hi, upto - 1); }
  }

  /** For the counts of llama_split, the two rules agree: what the device rule adds up on a card
      is the greedy segment's load. */
  lemma CardsAreLoads(b: seq<real>, ts: seq<nat>, c: nat)
    requires IsSplit(ts, |ts|, |b|) && c < |ts|
    ensures OnCard(b, Devices(ts, |b|), c, |b|) == Load(b, ts, c)
  {
    var dev := Devices(ts, |b|);
    FirstMono(ts, c, c + 1);
    FirstMono(ts, c + 1, |ts|);
    forall il: nat | il < |b| ensures dev[il] == c <==> First(ts, c) <= il < First(ts, c + 1) {
      DevicesMatchCounts(ts, |ts|, |b|, il, c);
    }
    OnCardIsSegment(b, dev, c, First(ts, c), First(ts, c + 1), |b|);
  }
}
