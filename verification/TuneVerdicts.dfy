/** What a verdict of console/tune.py's _confirm means: an accepted candidate is better by more than
    the noise, never loses by the same measurement turned round, and a metric that is better when
    smaller is judged as the mirror image of one that is better when larger. */
module TuneVerdicts {
  import opened TuneGates

  predicate Ascending(s: seq<real>) { forall i, j :: 0 <= i <= j < |s| ==> s[i] <= s[j] }

  lemma {:induction false} InsertKeeps(x: real, s: seq<real>)
    ensures multiset(Insert(x, s)) == multiset(s) + multiset{x}
  {
    if s != [] && x > s[0] {
      InsertKeeps(x, s[1..]);
      assert s == [s[0]] + s[1..];
    }
  }

  lemma {:induction false} InsertSorts(x: real, s: seq<real>)
    requires Ascending(s)
    ensures Ascending(Insert(x, s))
  {
    if s != [] && x > s[0] {
      InsertSorts(x, s[1..]);
      InsertKeeps(x, s[1..]);
      forall j | 0 <= j < |Insert(x, s[1..])| ensures s[0] <= Insert(x, s[1..])[j] {
        assert Insert(x, s[1..])[j] in multiset(s[1..]) + multiset{x};
      }
    }
  }

  /** The samples, from the smallest to the largest. */
  lemma {:induction false} SortedSorts(s: seq<real>)
    ensures Ascending(Sorted(s)) && multiset(Sorted(s)) == multiset(s)
  {
    if s != [] {
      SortedSorts(s[1..]);
      InsertSorts(s[0], Sorted(s[1..]));
      InsertKeeps(s[0], Sorted(s[1..]));
      assert s == [s[0]] + s[1..];
    }
  }

  /** The median has as many samples on either side. */
  lemma MedianInMiddle(s: seq<real>, i: nat)
    requires 2 * i < |s|
    ensures multiset(Sorted(s)) == multiset(s) && Sorted(s)[i] <= Median(s) <= Sorted(s)[|s| - 1 - i]
  {
    SortedSorts(s);
    var r, h := Sorted(s), |s| / 2;
    if |s| % 2 == 1 {
      assert r[i] <= r[h] <= r[|s| - 1 - i];
    } else {
      assert r[i] <= r[h - 1] <= r[h] <= r[|s| - 1 - i];
    }
  }

  /** The spread is the largest difference of two samples. */
  lemma SpreadIsLargest(s: seq<real>, x: real, y: real)
    requires x in s && y in s
    ensures x - y <= Spread(s)
    ensures Sorted(s)[|s| - 1] in s && Sorted(s)[0] in s
  {
    SortedSorts(s);
    assert x in multiset(Sorted(s)) && y in multiset(Sorted(s));
    assert Sorted(s)[|s| - 1] in multiset(s) && Sorted(s)[0] in multiset(s);
  }

  predicate Enough(c: Criteria, m: Measured) { c.nConfirm >= 1 && |m.base| >= c.nConfirm }

  lemma AtLeastTimes(d: real, w: real, k: real, gap: real)
    requires w > 0.0 && k > 0.0 && d / w >= k && gap <= w
    ensures d > 0.0 && d >= k * gap
  {
    assert d == (d / w) * w;
    assert d >= k * w;
  }

  /** d is an improvement, of at least k times the gap. */
  predicate Clears(d: real, k: real, gap: real) { d > 0.0 && d >= k * gap }

  /** An accepted candidate ran often enough, and its median is better than the incumbent's by at
      least k times the difference of any two runs of the same config. */
  lemma AcceptedBeatsNoise(c: Criteria, m: Measured, candidates: nat, x: real, y: real)
    requires Enough(c, m) && c.k > 0.0 && Accepted(c, m, candidates)
    requires (x in m.obj && y in m.obj) || (x in m.base && y in m.base)
    ensures |m.obj| >= c.nConfirm && Clears(Diff(c, m), c.k, x - y)
  {
    GapWithinWidth(m, x, y);
    AcceptedClears(c, m, candidates, x - y);
  }

  lemma AcceptedClears(c: Criteria, m: Measured, candidates: nat, gap: real)
    requires Enough(c, m) && c.k > 0.0 && Accepted(c, m, candidates)
    requires m.obj != [] ==> 0.0 <= Width(m) && gap <= Width(m)
    ensures |m.obj| >= c.nConfirm && Clears(Diff(c, m), c.k, gap)
  {
    AcceptedPasses(c, m, candidates);
    ClearsWidth(Diff(c, m), Width(m), c.noSpread, c.k, gap);
  }

  lemma GapWithinWidth(m: Measured, x: real, y: real)
    requires m.base != []
    requires (x in m.obj && y in m.obj) || (x in m.base && y in m.base)
    ensures m.obj != [] ==> 0.0 <= Width(m) && x - y <= Width(m)
  {
    if m.obj == [] { return; }
    SpreadIsLargest(m.obj, m.obj[0], m.obj[0]);
    if x in m.obj && y in m.obj { SpreadIsLargest(m.obj, x, y); } else { SpreadIsLargest(m.base, x, y); }
  }

  /** A separation of at least k, with a width that no gap of two runs exceeds. */
  lemma ClearsWidth(d: real, width: real, noSpread: real, k: real, gap: real)
    requires k > 0.0 && 0.0 <= width && gap <= width
    requires Separated(d, width, noSpread) >= k
    ensures Clears(d, k, gap)
  {
    if width == 0.0 { NoMore(k, gap); } else { AtLeastTimes(d, width, k, gap); }
  }

  lemma NoMore(k: real, gap: real)
    requires k > 0.0 && gap <= 0.0
    ensures k * gap <= 0.0
  {
  }

  lemma AcceptedPasses(c: Criteria, m: Measured, candidates: nat)
    requires Enough(c, m) && Accepted(c, m, candidates)
    ensures |m.obj| >= c.nConfirm && SeparationOf(c, m) >= c.k
  {
    assert Samples !in Reasons(c, m, candidates);
    FailedNone(c, GainOf(c, m), SeparationOf(c, m), PValueOf(c, m), GuardLost(c, m), QualityLost(m), candidates);
  }

  lemma FailedNone(c: Criteria, gain: real, separation: real, p: real, guardLost: bool, qualityLost: bool,
                   candidates: nat)
    ensures Failed(c, gain, separation, p, guardLost, qualityLost, candidates) == {} <==>
            gain >= c.margin && separation >= c.k && p <= c.alpha / (if candidates >= 1 then candidates else 1) as real
            && !guardLost && !qualityLost
  {
    var f := Failed(c, gain, separation, p, guardLost, qualityLost, candidates);
    assert Gain in f <==> gain < c.margin;
    assert Separation in f <==> separation < c.k;
    assert PValue in f <==> p > c.alpha / (if candidates >= 1 then candidates else 1) as real;
    assert Guardrail in f <==> guardLost;
    assert Quality in f <==> qualityLost;
  }

  /** The incumbent and the candidate change places. */
  function Swapped(m: Measured): Measured
  {
    Measured(m.obj, m.base, m.guardObj, m.guardBase, m.qualityObj, m.qualityBase)
  }

  /** No measurement makes each of two configs better than the other. */
  lemma SwappedIsRejected(c: Criteria, m: Measured, candidates: nat, candidates': nat)
    requires Enough(c, m) && Enough(c, Swapped(m)) && c.k > 0.0 && Accepted(c, m, candidates)
    ensures !Accepted(c, Swapped(m), candidates')
  {
    AcceptedBeatsNoise(c, m, candidates, m.obj[0], m.obj[0]);
    if Accepted(c, Swapped(m), candidates') {
      AcceptedBeatsNoise(c, Swapped(m), candidates', m.obj[0], m.obj[0]);
    }
  }

  // ---- smaller is better -------------------------------------------------------------------------

  function Negated(s: seq<real>): (r: seq<real>)
    ensures |r| == |s|
    ensures forall i :: 0 <= i < |s| ==> r[i] == -s[i]
  {
    seq(|s|, i requires 0 <= i < |s| => -s[i])
  }

  /** A list turned round and negated. */
  function Flipped(s: seq<real>): (r: seq<real>)
    ensures |r| == |s|
    ensures forall i :: 0 <= i < |s| ==> r[i] == -s[|s| - 1 - i]
  {
    seq(|s|, i requires 0 <= i < |s| => -s[|s| - 1 - i])
  }

  lemma FirstIsLeast(s: seq<real>, t: seq<real>)
    requires Ascending(s) && Ascending(t) && s != [] && multiset(s) == multiset(t)
    ensures t != [] && s[0] == t[0]
  {
    assert s[0] in multiset(t);
    assert t[0] in multiset(s);
  }

  lemma TailsMatch(s: seq<real>, t: seq<real>)
    requires s != [] && t != [] && s[0] == t[0] && multiset(s) == multiset(t)
    ensures multiset(s[1..]) == multiset(t[1..])
  {
    assert s == [s[0]] + s[1..] && t == [t[0]] + t[1..];
    assert multiset(s[1..]) == multiset(s) - multiset{s[0]};
    assert multiset(t[1..]) == multiset(t) - multiset{t[0]};
  }

  predicate SameSorted(s: seq<real>, t: seq<real>) { Ascending(s) && Ascending(t) && multiset(s) == multiset(t) }

  /** There is one way to sort. */
  lemma {:induction false} SortedOnce(s: seq<real>, t: seq<real>)
    requires SameSorted(s, t)
    ensures s == t
    decreases |s|
  {
    assert |multiset(s)| == |multiset(t)|;
    if s != [] {
      FirstIsLeast(s, t);
      TailsMatch(s, t);
      SortedOnce(s[1..], t[1..]);
      assert s == [s[0]] + s[1..] && t == [t[0]] + t[1..];
    }
  }

  lemma {:induction false} InsertPlaces(x: real, s: seq<real>) returns (i: nat)
    ensures i <= |s| && Insert(x, s) == s[..i] + [x] + s[i..]
  {
    i := 0;
    if s != [] && x > s[0] {
      var j := InsertPlaces(x, s[1..]);
      i := j + 1;
      assert s[..i] == [s[0]] + s[1..][..j] && s[i..] == s[1..][j..];
    }
  }

  lemma FlippedParts(a: seq<real>, x: real, b: seq<real>)
    ensures Flipped(a + [x] + b) == Flipped(b) + [-x] + Flipped(a)
    ensures Flipped(a + b) == Flipped(b) + Flipped(a)
  {
  }

  lemma FlippedInsertSame(x: real, s: seq<real>)
    ensures multiset(Flipped(Insert(x, s))) == multiset(Flipped(s)) + multiset{-x}
  {
    var i := InsertPlaces(x, s);
    assert s == s[..i] + s[i..];
    FlippedParts(s[..i], x, s[i..]);
  }

  lemma FlippedAscends(s: seq<real>)
    requires Ascending(s)
    ensures Ascending(Flipped(s))
  {
  }

  lemma SortedInto(x: real, s: seq<real>, t: seq<real>)
    requires Ascending(s) && Ascending(t) && multiset(t) == multiset(s) + multiset{x}
    ensures SameSorted(Insert(x, s), t)
  {
    InsertSorts(x, s);
    InsertKeeps(x, s);
  }

  lemma FlippedInsert(x: real, s: seq<real>)
    requires Ascending(s)
    ensures Insert(-x, Flipped(s)) == Flipped(Insert(x, s))
  {
    FlippedAscends(s);
    InsertSorts(x, s);
    FlippedAscends(Insert(x, s));
    FlippedInsertSame(x, s);
    SortedInto(-x, Flipped(s), Flipped(Insert(x, s)));
    SortedOnce(Insert(-x, Flipped(s)), Flipped(Insert(x, s)));
  }

  lemma NegatedTail(s: seq<real>)
    requires s != []
    ensures Negated(s)[0] == -s[0] && Negated(s)[1..] == Negated(s[1..])
  {
  }

  lemma {:induction false} SortedNegated(s: seq<real>)
    ensures Sorted(Negated(s)) == Flipped(Sorted(s))
  {
    if s != [] {
      SortedNegated(s[1..]);
      SortedSorts(s[1..]);
      NegatedTail(s);
      FlippedInsert(s[0], Sorted(s[1..]));
    }
  }

  lemma MedianNegated(s: seq<real>)
    requires s != []
    ensures Median(Negated(s)) == -Median(s) && Spread(Negated(s)) == Spread(s)
  {
    SortedNegated(s);
  }

  /** The same measurement of the metric's negative. */
  function Mirrored(m: Measured): Measured { m.(base := Negated(m.base), obj := Negated(m.obj)) }

  lemma SignedMirrored(s: seq<real>, up: bool)
    ensures Signed(Negated(s), !up) == Signed(s, up)
  {
  }

  lemma ScoresMirrored(c: Criteria, m: Measured)
    requires m.base != [] && m.obj != []
    ensures var (c', m') := (c.(up := !c.up), Mirrored(m));
            GainOf(c', m') == GainOf(c, m) && SeparationOf(c', m') == SeparationOf(c, m)
            && PValueOf(c', m') == PValueOf(c, m)
  {
    MedianNegated(m.obj);
    MedianNegated(m.base);
    SignedMirrored(m.obj, c.up);
    SignedMirrored(m.base, c.up);
    var c', m' := c.(up := !c.up), Mirrored(m);
    assert Diff(c', m') == Diff(c, m) && Width(m') == Width(m);
    RelativeMirrored(Diff(c, m), Median(m.base), c.noSpread);
  }

  lemma RelativeMirrored(d: real, base: real, noSpread: real)
    ensures Relative(d, -base, noSpread) == Relative(d, base, noSpread)
  {
    assert Abs(-base) == Abs(base);
  }

  /** The gates failed, from the scores. */
  function FailedOf(c: Criteria, enough: bool, gain: real, separation: real, p: real, guardLost: bool,
                    qualityLost: bool, candidates: nat): set<Gate>
  {
    if enough then Failed(c, gain, separation, p, guardLost, qualityLost, candidates) else {Samples}
  }

  lemma FailedEitherWay(c: Criteria, enough: bool, gain: real, separation: real, p: real, guardLost: bool,
                        qualityLost: bool, candidates: nat)
    ensures FailedOf(c.(up := !c.up), enough, gain, separation, p, guardLost, qualityLost, candidates)
            == FailedOf(c, enough, gain, separation, p, guardLost, qualityLost, candidates)
  {
  }

  lemma ReasonsRead(c: Criteria, m: Measured, candidates: nat, enough: bool, gain: real, separation: real, p: real,
                    guardLost: bool, qualityLost: bool)
    requires Enough(c, m) && enough == (|m.obj| >= c.nConfirm)
    requires enough ==> gain == GainOf(c, m) && separation == SeparationOf(c, m) && p == PValueOf(c, m)
    requires guardLost == GuardLost(c, m) && qualityLost == QualityLost(m)
    ensures Reasons(c, m, candidates) == FailedOf(c, enough, gain, separation, p, guardLost, qualityLost, candidates)
  {
  }

  lemma LossesMirrored(c: Criteria, m: Measured)
    ensures GuardLost(c.(up := !c.up), Mirrored(m)) == GuardLost(c, m) && QualityLost(Mirrored(m)) == QualityLost(m)
  {
  }

  /** Judging the negative of a metric the other way round fails the same gates. */
  lemma MirrorKeepsVerdict(c: Criteria, m: Measured, candidates: nat)
    requires Enough(c, m)
    ensures Reasons(c.(up := !c.up), Mirrored(m), candidates) == Reasons(c, m, candidates)
  {
    var gain, separation, p, enough := 0.0, 0.0, 1.0, |m.obj| >= c.nConfirm;
    var guardLost, qualityLost := GuardLost(c, m), QualityLost(m);
    if enough {
      gain, separation, p := GainOf(c, m), SeparationOf(c, m), PValueOf(c, m);
      ScoresMirrored(c, m);
    }
    LossesMirrored(c, m);
    ReasonsRead(c, m, candidates, enough, gain, separation, p, guardLost, qualityLost);
    ReasonsRead(c.(up := !c.up), Mirrored(m), candidates, enough, gain, separation, p, guardLost, qualityLost);
    FailedEitherWay(c, enough, gain, separation, p, guardLost, qualityLost, candidates);
  }
}
