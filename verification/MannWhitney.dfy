/** console/tune.py's exact one-sided Mann-Whitney test: the memoised recursion counts
    arrangements, so the p-value is the share of arrangements with at least as many wins. */
module MannWhitney {

  // ---- arrangements -------------------------------------------------------------------------------

  /** m x's (true) and n y's (false), from the smallest to the largest. */
  function Xs(s: seq<bool>): nat { if s == [] then 0 else Xs(s[..|s| - 1]) + if s[|s| - 1] then 1 else 0 }

  function Ys(s: seq<bool>): nat { if s == [] then 0 else Ys(s[..|s| - 1]) + if s[|s| - 1] then 0 else 1 }

  /** Pairs of an x above a y: each x beats the y's before it. */
  function Wins(s: seq<bool>): nat
  {
    if s == [] then 0 else Wins(s[..|s| - 1]) + if s[|s| - 1] then Ys(s[..|s| - 1]) else 0
  }

  function Snoc(ss: set<seq<bool>>, b: bool): set<seq<bool>> { set s | s in ss :: s + [b] }

  function AllOf(len: nat): set<seq<bool>>
  {
    if len == 0 then {[]} else Snoc(AllOf(len - 1), true) + Snoc(AllOf(len - 1), false)
  }

  /** All arrangements of m x's and n y's. */
  function Arrangements(m: nat, n: nat): set<seq<bool>> { set s | s in AllOf(m + n) && Xs(s) == m }

  /** Those with exactly u, and those with at least u, pairs of an x above a y. */
  function WithWins(u: int, m: nat, n: nat): set<seq<bool>> { set s | s in Arrangements(m, n) && Wins(s) == u }

  function AtLeast(u: int, m: nat, n: nat): set<seq<bool>> { set s | s in Arrangements(m, n) && Wins(s) >= u }

  lemma {:induction false} AllOfIs(len: nat, s: seq<bool>)
    ensures s in AllOf(len) <==> |s| == len
  {
    if len > 0 {
      if s == [] {
        assert forall t, b :: t + [b] != s;
      } else {
        var t, b := s[..|s| - 1], s[|s| - 1];
        assert s == t + [b];
        AllOfIs(len - 1, t);
        if s in AllOf(len) {
          var t' :| t' in AllOf(len - 1) && (s == t' + [true] || s == t' + [false]);
          assert t' == t;
        } else {
          assert t !in AllOf(len - 1);
        }
      }
    }
  }

  lemma {:induction false} XsAndYs(s: seq<bool>)
    ensures Xs(s) + Ys(s) == |s|
  {
    if s != [] { XsAndYs(s[..|s| - 1]); }
  }

  lemma SnocParts(s: seq<bool>, b: bool)
    ensures Xs(s + [b]) == Xs(s) + if b then 1 else 0
    ensures Wins(s + [b]) == Wins(s) + if b then Ys(s) else 0
  {
    assert (s + [b])[..|s|] == s;
  }

  lemma IsArrangement(s: seq<bool>, m: nat, n: nat)
    ensures s in Arrangements(m, n) <==> Xs(s) == m && Ys(s) == n
  {
    AllOfIs(m + n, s);
    XsAndYs(s);
  }

  lemma SnocMember(ss: set<seq<bool>>, b: bool, t: seq<bool>, c: bool)
    ensures t + [c] in Snoc(ss, b) <==> b == c && t in ss
  {
    forall r | r in ss && r + [b] == t + [c] ensures r == t && b == c {
      assert r == (r + [b])[..|r|] && t == (t + [c])[..|t|] && (r + [b])[|r|] == b && (t + [c])[|t|] == c;
    }
  }

  lemma {:induction false} SnocSize(ss: set<seq<bool>>, b: bool)
    ensures |Snoc(ss, b)| == |ss|
  {
    if ss != {} {
      var s :| s in ss;
      SnocSize(ss - {s}, b);
      SnocMember(ss - {s}, b, s, b);
      assert Snoc(ss, b) == Snoc(ss - {s}, b) + {s + [b]};
    }
  }

  // ---- the recursion ------------------------------------------------------------------------------------

  /** count(u, m, n) of mann_whitney_p. */
  function Count(u: int, m: nat, n: nat): nat
  {
    if u < 0 then 0
    else if m == 0 || n == 0 then if u == 0 then 1 else 0
    else Count(u - n, m - 1, n) + Count(u, m, n - 1)
  }

  /** The arrangements whose largest element is an x, and those whose largest is a y. */
  function XLast(u: int, m: nat, n: nat): set<seq<bool>>
  {
    if m == 0 then {} else Snoc(WithWins(u - n, m - 1, n), true)
  }

  function YLast(u: int, m: nat, n: nat): set<seq<bool>>
  {
    if n == 0 then {} else Snoc(WithWins(u, m, n - 1), false)
  }

  lemma LastElement(u: int, m: nat, n: nat, t: seq<bool>, c: bool)
    ensures t + [c] in WithWins(u, m, n) <==> t + [c] in XLast(u, m, n) + YLast(u, m, n)
  {
    SnocParts(t, c);
    XsAndYs(t);
    XsAndYs(t + [c]);
    IsArrangement(t + [c], m, n);
    if m > 0 {
      IsArrangement(t, m - 1, n);
      SnocMember(WithWins(u - n, m - 1, n), true, t, c);
    }
    if n > 0 {
      IsArrangement(t, m, n - 1);
      SnocMember(WithWins(u, m, n - 1), false, t, c);
    }
  }

  lemma SplitByLast(u: int, m: nat, n: nat)
    requires m + n > 0
    ensures WithWins(u, m, n) == XLast(u, m, n) + YLast(u, m, n)
    ensures XLast(u, m, n) !! YLast(u, m, n)
  {
    forall s ensures s in WithWins(u, m, n) <==> s in XLast(u, m, n) + YLast(u, m, n) {
      if s == [] {
        IsArrangement(s, m, n);
      } else {
        assert s == s[..|s| - 1] + [s[|s| - 1]];
        LastElement(u, m, n, s[..|s| - 1], s[|s| - 1]);
      }
    }
    forall s | s in XLast(u, m, n) ensures s !in YLast(u, m, n) {
      assert s[|s| - 1];
    }
  }

  lemma WithWinsSize(u: int, m: nat, n: nat)
    requires m + n > 0
    ensures |WithWins(u, m, n)| == (if m > 0 then |WithWins(u - n, m - 1, n)| else 0)
                                   + (if n > 0 then |WithWins(u, m, n - 1)| else 0)
  {
    SplitByLast(u, m, n);
    if m > 0 { SnocSize(WithWins(u - n, m - 1, n), true); }
    if n > 0 { SnocSize(WithWins(u, m, n - 1), false); }
    DisjointSize(XLast(u, m, n), YLast(u, m, n));
  }

  lemma OnlyTheEmptyOne(u: int)
    ensures |WithWins(u, 0, 0)| == if u == 0 then 1 else 0
  {
    forall s ensures s in WithWins(u, 0, 0) <==> u == 0 && s == [] { IsArrangement(s, 0, 0); XsAndYs(s); }
    assert WithWins(u, 0, 0) == if u == 0 then {[]} else {};
  }

  lemma CountUnfold(u: int, m: nat, n: nat)
    ensures Count(u, m, n) ==
            if m + n == 0 then (if u == 0 then 1 else 0)
            else (if m > 0 then Count(u - n, m - 1, n) else 0) + (if n > 0 then Count(u, m, n - 1) else 0)
  {
  }

  /** The recursion counts the arrangements with exactly u wins. */
  lemma {:induction false} CountIsArrangements(u: int, m: nat, n: nat)
    ensures Count(u, m, n) == |WithWins(u, m, n)|
    decreases m + n
  {
    CountUnfold(u, m, n);
    if m + n == 0 {
      OnlyTheEmptyOne(u);
    } else {
      WithWinsSize(u, m, n);
      if m > 0 { CountIsArrangements(u - n, m - 1, n); }
      if n > 0 { CountIsArrangements(u, m, n - 1); }
    }
  }

  // ---- the total ----------------------------------------------------------------------------------------

  /** math.comb, by Pascal's rule. */
  function Choose(n: nat, k: nat): nat
  {
    if k == 0 then 1 else if n == 0 then 0 else Choose(n - 1, k - 1) + Choose(n - 1, k)
  }

  lemma {:induction false} ChooseTooMany(n: nat, k: nat)
    requires k > n
    ensures Choose(n, k) == 0
  {
    if n > 0 { ChooseTooMany(n - 1, k - 1); ChooseTooMany(n - 1, k); }
  }

  lemma {:induction false} ChoosePositive(n: nat, k: nat)
    requires k <= n
    ensures Choose(n, k) >= 1
  {
    if k > 0 { ChoosePositive(n - 1, k - 1); }
  }

  lemma LastOfAny(m: nat, n: nat, t: seq<bool>, c: bool)
    ensures t + [c] in Arrangements(m, n) <==>
            if c then m > 0 && t in Arrangements(m - 1, n) else n > 0 && t in Arrangements(m, n - 1)
  {
    SnocParts(t, c);
    XsAndYs(t);
    XsAndYs(t + [c]);
    IsArrangement(t + [c], m, n);
    if m > 0 { IsArrangement(t, m - 1, n); }
    if n > 0 { IsArrangement(t, m, n - 1); }
  }

  function XLastAny(m: nat, n: nat): set<seq<bool>> { if m == 0 then {} else Snoc(Arrangements(m - 1, n), true) }

  function YLastAny(m: nat, n: nat): set<seq<bool>> { if n == 0 then {} else Snoc(Arrangements(m, n - 1), false) }

  lemma LastAny(m: nat, n: nat, s: seq<bool>)
    requires m + n > 0
    ensures s in Arrangements(m, n) <==> s in XLastAny(m, n) + YLastAny(m, n)
  {
    if s == [] {
      IsArrangement(s, m, n);
    } else {
      var t, c := s[..|s| - 1], s[|s| - 1];
      assert s == t + [c];
      LastOfAny(m, n, t, c);
      if m > 0 { SnocMember(Arrangements(m - 1, n), true, t, c); }
      if n > 0 { SnocMember(Arrangements(m, n - 1), false, t, c); }
    }
  }

  lemma ArrangementsSplit(m: nat, n: nat)
    requires m + n > 0
    ensures |Arrangements(m, n)| == (if m > 0 then |Arrangements(m - 1, n)| else 0)
                                    + (if n > 0 then |Arrangements(m, n - 1)| else 0)
  {
    var xs, ys := XLastAny(m, n), YLastAny(m, n);
    forall s ensures s in Arrangements(m, n) <==> s in xs + ys { LastAny(m, n, s); }
    forall s | s in xs ensures s !in ys { assert s[|s| - 1]; }
    assert Arrangements(m, n) == xs + ys;
    DisjointSize(xs, ys);
    if m > 0 { SnocSize(Arrangements(m - 1, n), true); }
    if n > 0 { SnocSize(Arrangements(m, n - 1), false); }
  }

  lemma DisjointSize<T>(a: set<T>, b: set<T>)
    requires a !! b
    ensures |a + b| == |a| + |b|
  {
  }

  lemma OneEmptyArrangement()
    ensures |Arrangements(0, 0)| == 1
  {
    forall s ensures s in Arrangements(0, 0) <==> s == [] { IsArrangement(s, 0, 0); XsAndYs(s); }
    assert Arrangements(0, 0) == {[]};
  }

  /** There are C(m + n, m) arrangements. */
  lemma {:induction false} ArrangementsSize(m: nat, n: nat)
    ensures |Arrangements(m, n)| == Choose(m + n, m)
    decreases m + n
  {
    if m + n == 0 {
      OneEmptyArrangement();
    } else {
      ArrangementsSplit(m, n);
      if m > 0 { ArrangementsSize(m - 1, n); }
      if n > 0 { ArrangementsSize(m, n - 1); } else { ChooseTooMany(m - 1, m); }
    }
  }

  // ---- the tail -----------------------------------------------------------------------------------------

  /** Counts from u to top, added up. */
  function Tail(u: int, top: int, m: nat, n: nat): nat
    decreases top - u
  {
    if u > top then 0 else Count(u, m, n) + Tail(u + 1, top, m, n)
  }

  lemma {:induction false} WinsBounds(s: seq<bool>)
    ensures 0 <= Wins(s) <= Xs(s) * Ys(s)
  {
    if s != [] {
      var t := s[..|s| - 1];
      WinsBounds(t);
      assert (Xs(t) + 1) * Ys(t) == Xs(t) * Ys(t) + Ys(t);
      assert Xs(t) * (Ys(t) + 1) == Xs(t) * Ys(t) + Xs(t);
    }
  }

  lemma AtLeastStep(u: int, m: nat, n: nat)
    ensures |AtLeast(u, m, n)| == |WithWins(u, m, n)| + |AtLeast(u + 1, m, n)|
  {
    assert AtLeast(u, m, n) == WithWins(u, m, n) + AtLeast(u + 1, m, n);
    assert WithWins(u, m, n) !! AtLeast(u + 1, m, n);
  }

  lemma NoneAbove(u: int, m: nat, n: nat)
    requires u > m * n
    ensures AtLeast(u, m, n) == {}
  {
    forall s | s in Arrangements(m, n) ensures Wins(s) < u {
      IsArrangement(s, m, n);
      WinsBounds(s);
    }
  }

  /** The counts from u up are the arrangements with at least u wins. */
  lemma {:induction false} TailIsArrangements(u: int, m: nat, n: nat)
    ensures Tail(u, m * n, m, n) == |AtLeast(u, m, n)|
    decreases m * n - u
  {
    if u > m * n {
      NoneAbove(u, m, n);
    } else {
      CountIsArrangements(u, m, n);
      AtLeastStep(u, m, n);
      TailIsArrangements(u + 1, m, n);
    }
  }

  lemma SubsetSize<T>(a: set<T>, b: set<T>)
    requires a <= b
    ensures |a| <= |b|
  {
    assert b == a + (b - a);
  }

  /** All counts together are C(m + n, m); a tail is part of that, and a larger u has a smaller one. */
  lemma TailBounds(u: int, v: int, m: nat, n: nat)
    requires u <= v
    ensures Tail(v, m * n, m, n) <= Tail(u, m * n, m, n) <= Choose(m + n, m)
    ensures Tail(0, m * n, m, n) == Choose(m + n, m)
  {
    TailIsArrangements(u, m, n);
    TailIsArrangements(v, m, n);
    TailIsArrangements(0, m, n);
    ArrangementsSize(m, n);
    SubsetSize(AtLeast(v, m, n), AtLeast(u, m, n));
    SubsetSize(AtLeast(u, m, n), Arrangements(m, n));
    forall s | s in Arrangements(m, n) ensures s in AtLeast(0, m, n) { WinsBounds(s); }
    assert AtLeast(0, m, n) == Arrangements(m, n);
  }

  lemma {:induction false} CountAbove(u: int, m: nat, n: nat)
    requires u > m * n
    ensures Count(u, m, n) == 0
    decreases m + n
  {
    if m > 0 && n > 0 {
      assert (m - 1) * n == m * n - n && m * (n - 1) == m * n - m;
      CountAbove(u - n, m - 1, n);
      CountAbove(u, m, n - 1);
    }
  }

  /** One arrangement only puts every x above every y. */
  lemma {:induction false} TopCountIsOne(m: nat, n: nat)
    ensures Count(m * n, m, n) == 1
    decreases m
  {
    if m > 0 && n > 0 {
      assert (m - 1) * n == m * n - n && m * (n - 1) == m * n - m;
      TopCountIsOne(m - 1, n);
      CountAbove(m * n, m, n - 1);
    }
  }

  // ---- the p-value --------------------------------------------------------------------------------------

  /** Strict wins of one sample over all of worse, and of every sample of better. */
  function Beats(b: real, worse: seq<real>, n: nat): nat
    requires n <= |worse|
  {
    if n == 0 then 0 else Beats(b, worse, n - 1) + if b > worse[n - 1] then 1 else 0
  }

  function U(better: seq<real>, worse: seq<real>, m: nat): nat
    requires m <= |better|
  {
    if m == 0 then 0 else U(better, worse, m - 1) + Beats(better[m - 1], worse, |worse|)
  }

  /** math.comb(m + n, m). */
  function Comb(m: nat, n: nat): (c: nat)
    ensures c >= 1
  {
    ChoosePositive(m + n, m);
    Choose(m + n, m)
  }

  function Share(a: nat, c: nat): real
    requires c >= 1
  {
    a as real / c as real
  }

  /** The share of arrangements with at least u wins. */
  function P(u: nat, m: nat, n: nat): real { Share(Tail(u, m * n, m, n), Comb(m, n)) }

  /** The memo dict: every entry is the count of its key. */
  class Memo {
    var table: map<(int, nat, nat), nat>

    ghost predicate Valid()
      reads this
    {
      forall u: int, m: nat, n: nat :: (u, m, n) in table ==> table[(u, m, n)] == Count(u, m, n)
    }

    constructor ()
      ensures Valid()
    {
      table := map[];
    }

    /** The memoised recursion. */
    method CountOf(u: int, m: nat, n: nat) returns (c: nat)
      requires Valid()
      modifies this
      ensures Valid() && c == Count(u, m, n)
      decreases m + n
    {
      if u < 0 {
        return 0;
      }
      if m == 0 || n == 0 {
        return if u == 0 then 1 else 0;
      }
      var key := (u, m, n);
      if key !in table {
        var xs := CountOf(u - n, m - 1, n);
        var ys := CountOf(u, m, n - 1);
        table := table[key := xs + ys];
      }
      c := table[key];
    }
  }

  method CountWins(better: seq<real>, worse: seq<real>) returns (u: nat)
    ensures u == U(better, worse, |better|)
  {
    u := 0;
    for i := 0 to |better|
      invariant u == U(better, worse, i)
    {
      for j := 0 to |worse|
        invariant u == U(better, worse, i) + Beats(better[i], worse, j)
      {
        if better[i] > worse[j] {
          u := u + 1;
        }
      }
    }
  }

  /** mann_whitney_p. */
  method MannWhitneyP(better: seq<real>, worse: seq<real>) returns (p: real)
    ensures better == [] || worse == [] ==> p == 1.0
    ensures better != [] && worse != [] ==> p == P(U(better, worse, |better|), |better|, |worse|)
  {
    var m, n := |better|, |worse|;
    if m == 0 || n == 0 {
      return 1.0;
    }
    var u := CountWins(better, worse);
    var memo := new Memo();
    var sum: nat, k := 0, u;
    while k <= m * n
      invariant memo.Valid() && fresh(memo)
      invariant sum + Tail(k, m * n, m, n) == Tail(u, m * n, m, n)
      decreases m * n - k
    {
      var c := memo.CountOf(k, m, n);
      sum := sum + c;
      k := k + 1;
    }
    p := Share(sum, Comb(m, n));
  }

  lemma {:induction false} BeatsAtMost(b: real, worse: seq<real>, n: nat)
    requires n <= |worse|
    ensures Beats(b, worse, n) <= n
  {
    if n > 0 { BeatsAtMost(b, worse, n - 1); }
  }

  lemma {:induction false} UAtMost(better: seq<real>, worse: seq<real>, m: nat)
    requires m <= |better|
    ensures U(better, worse, m) <= m * |worse|
  {
    if m > 0 {
      UAtMost(better, worse, m - 1);
      BeatsAtMost(better[m - 1], worse, |worse|);
      assert m * |worse| == (m - 1) * |worse| + |worse|;
    }
  }

  lemma ShareMono(a: nat, b: nat, c: nat)
    requires c >= 1
    ensures a <= b <==> Share(a, c) <= Share(b, c)
    ensures Share(c, c) == 1.0
  {
    assert Share(a, c) * c as real == a as real && Share(b, c) * c as real == b as real;
  }

  /** p is antitone in U and lies in [1/C(m+n, m), 1], reaching both ends. */
  lemma PBounds(u: nat, v: nat, m: nat, n: nat)
    requires u <= v <= m * n
    ensures Share(1, Comb(m, n)) <= P(v, m, n) <= P(u, m, n) <= 1.0
    ensures P(0, m, n) == 1.0 && P(m * n, m, n) == Share(1, Comb(m, n))
  {
    TailBounds(u, v, m, n);
    TailBounds(v, m * n, m, n);
    TopCountIsOne(m, n);
    assert Tail(m * n, m * n, m, n) == 1 + Tail(m * n + 1, m * n, m, n) == 1;
    ShareMono(1, Tail(v, m * n, m, n), Comb(m, n));
    ShareMono(Tail(v, m * n, m, n), Tail(u, m * n, m, n), Comb(m, n));
    ShareMono(Tail(u, m * n, m, n), Comb(m, n), Comb(m, n));
  }

  /** p is the probability of at least u wins among all arrangements, each as likely. */
  lemma PIsShare(u: nat, m: nat, n: nat)
    ensures |Arrangements(m, n)| >= 1
    ensures P(u, m, n) == Share(|AtLeast(u, m, n)|, |Arrangements(m, n)|)
  {
    ChoosePositive(m + n, m);
    TailIsArrangements(u, m, n);
    ArrangementsSize(m, n);
  }

  // ---- ties ---------------------------------------------------------------------------------------------

  /** One way of breaking the ties: every strict win stays one. */
  ghost predicate Breaks(better: seq<real>, worse: seq<real>, better': seq<real>, worse': seq<real>)
  {
    |better'| == |better| && |worse'| == |worse|
    && forall i, j :: 0 <= i < |better| && 0 <= j < |worse| && better[i] > worse[j] ==> better'[i] > worse'[j]
  }

  lemma {:induction false} BeatsGrows(b: real, worse: seq<real>, b': real, worse': seq<real>, n: nat)
    requires |worse| == |worse'| && n <= |worse|
    requires forall j :: 0 <= j < |worse| && b > worse[j] ==> b' > worse'[j]
    ensures Beats(b, worse, n) <= Beats(b', worse', n)
  {
    if n > 0 { BeatsGrows(b, worse, b', worse', n - 1); }
  }

  lemma {:induction false} UGrows(better: seq<real>, worse: seq<real>, better': seq<real>, worse': seq<real>, m: nat)
    requires Breaks(better, worse, better', worse') && m <= |better|
    ensures U(better, worse, m) <= U(better', worse', m)
  {
    if m > 0 {
      UGrows(better, worse, better', worse', m - 1);
      BeatsGrows(better[m - 1], worse, better'[m - 1], worse', |worse|);
    }
  }

  /** Counting strict wins only, no way of breaking the ties has a larger p. */
  lemma TiesErrTowardRejecting(better: seq<real>, worse: seq<real>, better': seq<real>, worse': seq<real>)
    requires Breaks(better, worse, better', worse')
    ensures P(U(better', worse', |better|), |better|, |worse|) <= P(U(better, worse, |better|), |better|, |worse|)
  {
    UGrows(better, worse, better', worse', |better|);
    UAtMost(better', worse', |better|);
    PBounds(U(better, worse, |better|), U(better', worse', |better|), |better|, |worse|);
  }

  /** A breaking proper: wins stay wins, losses stay losses and no tie is left. */
  ghost predicate BreaksAll(better: seq<real>, worse: seq<real>, better': seq<real>, worse': seq<real>)
  {
    Breaks(better, worse, better', worse')
    && forall i, j :: 0 <= i < |better| && 0 <= j < |worse|
                      ==> better'[i] != worse'[j] && (better[i] < worse[j] ==> better'[i] < worse'[j])
  }

  /** A step shorter than every lead of b over the first n. */
  lemma {:induction false} StepBelowRow(b: real, worse: seq<real>, n: nat) returns (g: real)
    requires n <= |worse|
    ensures g > 0.0 && forall j :: 0 <= j < n && b > worse[j] ==> g < b - worse[j]
  {
    if n == 0 {
      g := 1.0;
    } else {
      g := StepBelowRow(b, worse, n - 1);
      if b > worse[n - 1] && g >= b - worse[n - 1] { g := (b - worse[n - 1]) / 2.0; }
    }
  }

  lemma {:induction false} StepBelow(better: seq<real>, worse: seq<real>, m: nat) returns (g: real)
    requires m <= |better|
    ensures g > 0.0
    ensures forall i, j :: 0 <= i < m && 0 <= j < |worse| && better[i] > worse[j] ==> g < better[i] - worse[j]
  {
    if m == 0 {
      g := 1.0;
    } else {
      g := StepBelow(better, worse, m - 1);
      var h := StepBelowRow(better[m - 1], worse, |worse|);
      if h < g { g := h; }
    }
  }

  /** Every value a step lower. */
  function Lowered(s: seq<real>, g: real): (r: seq<real>)
    ensures |r| == |s| && forall i :: 0 <= i < |s| ==> r[i] == s[i] - g
  {
    seq(|s|, i requires 0 <= i < |s| => s[i] - g)
  }

  /** ... and some breaking of the ties, every one against `better`, has exactly that p: counting
      strict wins is the worst case. */
  lemma SomeBreakingAttains(better: seq<real>, worse: seq<real>) returns (better': seq<real>)
    ensures BreaksAll(better, worse, better', worse)
    ensures P(U(better', worse, |better|), |better|, |worse|) == P(U(better, worse, |better|), |better|, |worse|)
  {
    var g := StepBelow(better, worse, |better|);
    better' := Lowered(better, g);
    UGrows(better, worse, better', worse, |better|);
    UGrows(better', worse, better, worse, |better|);
  }

  // ---- how many finalists the test can resolve ------------------------------------------------------------

  /** _confirm's cap on the finalists for n runs each. */
  function MaxFinalists(alpha: real, n: nat): nat
  {
    var f := (alpha * Comb(n, n) as real).Floor;
    if f >= 1 then f else 1
  }

  lemma Scaled(x: real, y: real, z: real)
    requires z > 0.0
    ensures x <= y <==> x * z <= y * z
  {
  }

  lemma CrossDivide(c: nat, alpha: real, k: nat)
    requires c >= 1 && k >= 1
    ensures Share(1, c) <= alpha / k as real <==> k as real <= alpha * c as real
  {
    var e, d := Share(1, c), alpha / k as real;
    Scaled(e, d, c as real * k as real);
    assert e * c as real == 1.0 && d * k as real == alpha;
    assert e * (c as real * k as real) == e * c as real * k as real;
    assert d * (c as real * k as real) == d * k as real * c as real;
  }

  lemma CapIff(c: nat, alpha: real, k: nat, p: real)
    requires c >= 1 && k >= 1 && p == Share(1, c)
    ensures p <= alpha / k as real <==> k <= (alpha * c as real).Floor
  {
    CrossDivide(c, alpha, k);
  }

  lemma FullSeparation(n: nat)
    ensures P(n * n, n, n) == Share(1, Comb(n, n))
  {
    PBounds(0, n * n, n, n);
  }

  /** The smallest p of n runs against n passes alpha over k finalists exactly when there are at
      most floor(alpha * C(2n, n)) of them: with one more none could ever be accepted, and with
      that many a full separation still is. */
  lemma ResolvableIff(alpha: real, n: nat, k: nat)
    requires k >= 1
    ensures P(n * n, n, n) <= alpha / k as real <==> k <= (alpha * Comb(n, n) as real).Floor
  {
    FullSeparation(n);
    CapIff(Comb(n, n), alpha, k, P(n * n, n, n));
  }

  /** Past the cap, every outcome of n runs against n is rejected. */
  lemma PastTheCapNonePass(alpha: real, n: nat, k: nat, u: nat)
    requires k > MaxFinalists(alpha, n) && u <= n * n
    ensures P(u, n, n) > alpha / k as real
  {
    ResolvableIff(alpha, n, k);
    PBounds(u, n * n, n, n);
  }
}
