/** dpkg's revision order: the two-pointer loop of `_verrevcmp`, proved against the token
    lists of section 5.6.12 of the Debian Policy Manual, and the laws of that order. */
module DpkgOrder {

  // ---- characters -------------------------------------------------------------------

  predicate IsDigit(c: char) { '0' <= c <= '9' }

  predicate IsLetter(c: char) { 'a' <= c <= 'z' || 'A' <= c <= 'Z' }

  /** Sort weight of a non-digit: a tilde before the end of a part (0), letters before the rest. */
  function Order(c: char): (r: int)
    ensures r != 0
  {
    if c == '~' then -1 else if IsLetter(c) then c as int else c as int + 256
  }

  function Sign(n: int): int { if n < 0 then -1 else if n > 0 then 1 else 0 }

  // ---- the specification: a string is a list of (non-digit run, number) tokens ---------

  datatype Token = Token(run: seq<int>, num: nat)

  const End := Token([], 0)

  predicate StartsRun(s: string) { s != "" && !IsDigit(s[0]) }

  predicate StartsNumber(s: string) { s != "" && IsDigit(s[0]) }

  /** The weights of the longest prefix without a digit. */
  function Run(s: string): (r: seq<int>)
    ensures forall k :: 0 <= k < |r| ==> r[k] != 0
  {
    if StartsRun(s) then [Order(s[0])] + Run(s[1..]) else []
  }

  function AfterRun(s: string): (r: string)
    ensures |r| <= |s| && !StartsRun(r)
    ensures StartsRun(s) ==> |r| < |s|
  {
    if StartsRun(s) then AfterRun(s[1..]) else s
  }

  /** The longest prefix of digits. */
  function Digits(s: string): (d: string)
    ensures AllDigits(d)
  {
    if StartsNumber(s) then [s[0]] + Digits(s[1..]) else ""
  }

  function AfterDigits(s: string): (r: string)
    ensures |r| <= |s| && !StartsNumber(r)
    ensures StartsNumber(s) ==> |r| < |s|
  {
    if StartsNumber(s) then AfterDigits(s[1..]) else s
  }

  predicate AllDigits(s: string) { forall k :: 0 <= k < |s| ==> IsDigit(s[k]) }

  function Digit(c: char): (d: nat)
    requires IsDigit(c)
    ensures d < 10
  {
    c as int - '0' as int
  }

  /** The number a digit string spells. */
  function Value(s: string): nat
    requires AllDigits(s)
  {
    if s == "" then 0 else 10 * Value(s[..|s| - 1]) + Digit(s[|s| - 1])
  }

  function Head(s: string): Token { Token(Run(s), Value(Digits(AfterRun(s)))) }

  function Rest(s: string): (r: string)
    ensures s != "" ==> |r| < |s|
    ensures s == "" ==> r == ""
  {
    AfterDigits(AfterRun(s))
  }

  function Tokens(s: string): seq<Token>
    decreases |s|
  {
    if s == "" then [] else [Head(s)] + Tokens(Rest(s))
  }

  function HeadOr<T>(s: seq<T>, d: T): T { if s == [] then d else s[0] }

  function Tail<T>(s: seq<T>): seq<T> { if s == [] then [] else s[1..] }

  /** Character by character, the end of a run weighing 0. */
  function CmpRun(x: seq<int>, y: seq<int>): (r: int)
    ensures -1 <= r <= 1
    decreases |x| + |y|
  {
    if x == [] && y == [] then 0
    else if HeadOr(x, 0) != HeadOr(y, 0) then Sign(HeadOr(x, 0) - HeadOr(y, 0))
    else CmpRun(Tail(x), Tail(y))
  }

  function CmpToken(x: Token, y: Token): (r: int)
    ensures -1 <= r <= 1
  {
    if CmpRun(x.run, y.run) != 0 then CmpRun(x.run, y.run) else Sign(x.num - y.num)
  }

  /** Token by token, a missing tail standing for an empty run and the number 0. */
  function CmpTokens(x: seq<Token>, y: seq<Token>): (r: int)
    ensures -1 <= r <= 1
    decreases |x| + |y|
  {
    if x == [] && y == [] then 0
    else if CmpToken(HeadOr(x, End), HeadOr(y, End)) != 0 then CmpToken(HeadOr(x, End), HeadOr(y, End))
    else CmpTokens(Tail(x), Tail(y))
  }

  function Compare(a: string, b: string): (r: int)
    ensures -1 <= r <= 1
  {
    CmpTokens(Tokens(a), Tokens(b))
  }

  // ---- numbers: dropping zeros, then length, then the first difference -------------------

  function Pow10(n: nat): (p: nat)
    ensures p >= 1
  {
    if n == 0 then 1 else 10 * Pow10(n - 1)
  }

  lemma {:induction false} Pow10Mono(m: nat, n: nat)
    requires m <= n
    ensures Pow10(m) <= Pow10(n)
    decreases n - m
  {
    if m < n { Pow10Mono(m + 1, n); }
  }

  predicate DigitsAt(s: string, i: nat, j: nat)
  {
    i <= j <= |s| && forall k :: i <= k < j ==> IsDigit(s[k])
  }

  /** The number spelled by s[i..j]. */
  function NumberAt(s: string, i: nat, j: nat): nat
    requires DigitsAt(s, i, j)
    decreases j - i
  {
    if i == j then 0 else 10 * NumberAt(s, i, j - 1) + Digit(s[j - 1])
  }

  lemma {:induction false} ValueAt(s: string, i: nat, j: nat)
    requires DigitsAt(s, i, j)
    ensures AllDigits(s[i..j]) && Value(s[i..j]) == NumberAt(s, i, j)
    decreases j - i
  {
    if i < j {
      ValueAt(s, i, j - 1);
      assert s[i..j][..j - i - 1] == s[i..j - 1];
    }
  }

  lemma {:induction false} NumberBounds(s: string, i: nat, j: nat)
    requires DigitsAt(s, i, j)
    ensures NumberAt(s, i, j) < Pow10(j - i)
    ensures i < j && s[i] != '0' ==> Pow10(j - i - 1) <= NumberAt(s, i, j)
    decreases j - i
  {
    if i < j { NumberBounds(s, i, j - 1); }
  }

  /** Without leading zeros the longer number is the larger one. */
  lemma LongerIsLarger(a: string, i: nat, ia: nat, b: string, j: nat, jb: nat)
    requires DigitsAt(a, i, ia) && DigitsAt(b, j, jb)
    requires ia - i > jb - j && a[i] != '0'
    ensures NumberAt(a, i, ia) > NumberAt(b, j, jb)
  {
    NumberBounds(a, i, ia);
    NumberBounds(b, j, jb);
    Pow10Mono(jb - j, ia - i - 1);
  }

  lemma {:induction false} DropZero(s: string, i: nat, j: nat)
    requires DigitsAt(s, i, j) && i < j && s[i] == '0'
    ensures NumberAt(s, i, j) == NumberAt(s, i + 1, j)
    decreases j - i
  {
    if i + 1 < j { DropZero(s, i, j - 1); }
  }

  lemma TokensParts(s: string)
    ensures HeadOr(Tokens(s), End) == Head(s)
    ensures Tail(Tokens(s)) == Tokens(Rest(s))
  {
    if s != "" {
      assert Tokens(s) == [Head(s)] + Tokens(Rest(s));
    }
  }

  lemma CmpTokensUnfold(x: seq<Token>, y: seq<Token>)
    ensures CmpTokens(x, y) ==
            var c := CmpToken(HeadOr(x, End), HeadOr(y, End));
            if c != 0 then c else CmpTokens(Tail(x), Tail(y))
  {
  }

  /** One iteration of the outer loop, on the specification side. */
  lemma CompareUnfold(a: string, b: string)
    ensures Compare(a, b) ==
            var c := CmpToken(Head(a), Head(b));
            if c != 0 then c else Compare(Rest(a), Rest(b))
  {
    CmpTokensUnfold(Tokens(a), Tokens(b));
    TokensParts(a);
    TokensParts(b);
  }

  lemma CmpRunUnfold(x: seq<int>, y: seq<int>)
    ensures CmpRun(x, y) ==
            var c := Sign(HeadOr(x, 0) - HeadOr(y, 0));
            if c != 0 then c else CmpRun(Tail(x), Tail(y))
  {
  }

  // ---- the two-pointer loop ------------------------------------------------------------

  /** The weight the loop reads at the head of s: a non-digit's own, 0 at a digit or the end. */
  function HeadWeight(s: string): int { if StartsRun(s) then Order(s[0]) else 0 }

  /** One turn of the first inner loop, on the specification side. */
  lemma RunStep(s: string, t: string)
    ensures HeadWeight(s) != HeadWeight(t) ==> CmpRun(Run(s), Run(t)) == Sign(HeadWeight(s) - HeadWeight(t))
    ensures HeadWeight(s) == HeadWeight(t) != 0 ==> CmpRun(Run(s), Run(t)) == CmpRun(Run(s[1..]), Run(t[1..]))
  {
    CmpRunUnfold(Run(s), Run(t));
  }

  /** First inner loop: the non-digit runs at i and j; r is nonzero where they differ. */
  method CompareRuns(a: string, b: string, i0: nat, j0: nat) returns (r: int, i: nat, j: nat)
    requires i0 <= |a| && j0 <= |b|
    ensures r == CmpRun(Run(a[i0..]), Run(b[j0..]))
    ensures r == 0 ==> i <= |a| && j <= |b| && a[i..] == AfterRun(a[i0..]) && b[j..] == AfterRun(b[j0..])
  {
    i, j := i0, j0;
    while (i < |a| && !IsDigit(a[i])) || (j < |b| && !IsDigit(b[j]))
      invariant i <= |a| && j <= |b|
      invariant CmpRun(Run(a[i0..]), Run(b[j0..])) == CmpRun(Run(a[i..]), Run(b[j..]))
      invariant AfterRun(a[i..]) == AfterRun(a[i0..]) && AfterRun(b[j..]) == AfterRun(b[j0..])
      decreases |a| - i
    {
      var ac := if i < |a| && !IsDigit(a[i]) then Order(a[i]) else 0;
      var bc := if j < |b| && !IsDigit(b[j]) then Order(b[j]) else 0;
      assert ac == HeadWeight(a[i..]) && bc == HeadWeight(b[j..]);
      RunStep(a[i..], b[j..]);
      if ac != bc {
        return if ac < bc then -1 else 1, i, j;
      }
      assert a[i..][1..] == a[i + 1..] && b[j..][1..] == b[j + 1..];
      i, j := i + 1, j + 1;
    }
    r := 0;
  }

  /** Where the digit run that starts at i ends. */
  ghost function DigitsEnd(s: string, i: nat): (e: nat)
    requires i <= |s|
    ensures DigitsAt(s, i, e)
    ensures e < |s| ==> !IsDigit(s[e])
    decreases |s| - i
  {
    if i < |s| && IsDigit(s[i]) then DigitsEnd(s, i + 1) else i
  }

  lemma {:induction false} DigitsEndSplits(s: string, i: nat)
    requires i <= |s|
    ensures Digits(s[i..]) == s[i..DigitsEnd(s, i)]
    ensures AfterDigits(s[i..]) == s[DigitsEnd(s, i)..]
    decreases |s| - i
  {
    if i < |s| && IsDigit(s[i]) {
      assert s[i..][1..] == s[i + 1..];
      DigitsEndSplits(s, i + 1);
      assert s[i..DigitsEnd(s, i)] == [s[i]] + s[i + 1..DigitsEnd(s, i)];
    }
  }

  lemma RestAt(s: string, i: nat, k: nat)
    requires i <= |s| && k <= |s| && s[k..] == AfterRun(s[i..])
    ensures Value(Digits(AfterRun(s[i..]))) == NumberAt(s, k, DigitsEnd(s, k))
    ensures Rest(s[i..]) == s[DigitsEnd(s, k)..]
  {
    DigitsEndSplits(s, k);
    ValueAt(s, k, DigitsEnd(s, k));
  }

  /** Second part of an iteration, at the start of two digit runs: skip the zeros, then the
      longer run is the larger number, or the first difference decides. */
  method CompareNumbers(a: string, b: string, i0: nat, j0: nat) returns (r: int, i: nat, j: nat)
    requires i0 <= |a| && j0 <= |b|
    ensures r == Sign(NumberAt(a, i0, DigitsEnd(a, i0)) - NumberAt(b, j0, DigitsEnd(b, j0)))
    ensures r == 0 ==> i == DigitsEnd(a, i0) && j == DigitsEnd(b, j0)
  {
    ghost var ia, jb := DigitsEnd(a, i0), DigitsEnd(b, j0);
    i := SkipZeros(a, i0, ia);
    j := SkipZeros(b, j0, jb);
    r, i, j := WalkDigits(a, b, i, j, ia, jb);
  }

  method SkipZeros(s: string, i0: nat, ghost e: nat) returns (i: nat)
    requires DigitsAt(s, i0, e) && (e < |s| ==> !IsDigit(s[e]))
    ensures i0 <= i <= e && NumberAt(s, i, e) == NumberAt(s, i0, e)
    ensures i < e ==> s[i] != '0'
  {
    i := i0;
    while i < |s| && s[i] == '0'
      invariant i0 <= i <= e && NumberAt(s, i, e) == NumberAt(s, i0, e)
    {
      DropZero(s, i, e);
      i := i + 1;
    }
  }

  /** The digits in step, remembering the first difference. */
  method WalkDigits(a: string, b: string, i0: nat, j0: nat, ghost ia: nat, ghost jb: nat)
    returns (r: int, i: nat, j: nat)
    requires DigitsAt(a, i0, ia) && (ia < |a| ==> !IsDigit(a[ia])) && (i0 < ia ==> a[i0] != '0')
    requires DigitsAt(b, j0, jb) && (jb < |b| ==> !IsDigit(b[jb])) && (j0 < jb ==> b[j0] != '0')
    ensures r == Sign(NumberAt(a, i0, ia) - NumberAt(b, j0, jb))
    ensures r == 0 ==> i == ia && j == jb
  {
    var firstDiff := 0;
    i, j := i0, j0;
    while i < |a| && IsDigit(a[i]) && j < |b| && IsDigit(b[j])
      invariant i0 <= i <= ia && j0 <= j <= jb && i - i0 == j - j0
      invariant firstDiff == Sign(NumberAt(a, i0, i) - NumberAt(b, j0, j))
    {
      if firstDiff == 0 {
        firstDiff := if a[i] > b[j] then 1 else if a[i] < b[j] then -1 else 0;
      }
      i, j := i + 1, j + 1;
    }
    if i < |a| && IsDigit(a[i]) {
      LongerIsLarger(a, i0, ia, b, j0, jb);
      return 1, i, j;
    }
    if j < |b| && IsDigit(b[j]) {
      LongerIsLarger(b, j0, jb, a, i0, ia);
      return -1, i, j;
    }
    r := firstDiff;
  }

  /** The body of the outer loop: one token of each string. */
  method CompareHeads(a: string, b: string, i0: nat, j0: nat) returns (r: int, i: nat, j: nat)
    requires i0 <= |a| && j0 <= |b|
    ensures r == CmpToken(Head(a[i0..]), Head(b[j0..]))
    ensures r == 0 ==> i <= |a| && j <= |b| && a[i..] == Rest(a[i0..]) && b[j..] == Rest(b[j0..])
  {
    r, i, j := CompareRuns(a, b, i0, j0);
    if r == 0 {
      RestAt(a, i0, i);
      RestAt(b, j0, j);
      r, i, j := CompareNumbers(a, b, i, j);
    }
  }

  /** hack/pinver.py's _verrevcmp computes the token order on every pair of strings; every
      index stays in bounds and the loops end. */
  method Verrevcmp(a: string, b: string) returns (r: int)
    ensures r == Compare(a, b)
  {
    var i: nat, j: nat := 0, 0;
    while i < |a| || j < |b|
      invariant i <= |a| && j <= |b|
      invariant Compare(a, b) == Compare(a[i..], b[j..])
      decreases |a[i..]| + |b[j..]|
    {
      CompareUnfold(a[i..], b[j..]);
      var c, i', j' := CompareHeads(a, b, i, j);
      if c != 0 {
        return c;
      }
      i, j := i', j';
    }
    r := 0;
  }

  // ---- laws of the order ---------------------------------------------------------------

  lemma {:induction false} CmpRunFlip(x: seq<int>, y: seq<int>)
    ensures CmpRun(y, x) == -CmpRun(x, y)
    decreases |x| + |y|
  {
    if x != [] || y != [] { CmpRunFlip(Tail(x), Tail(y)); }
  }

  lemma {:induction false} CmpRunTrans(x: seq<int>, y: seq<int>, z: seq<int>)
    requires CmpRun(x, y) <= 0 && CmpRun(y, z) <= 0
    ensures CmpRun(x, z) <= 0
    ensures CmpRun(x, z) == 0 <==> CmpRun(x, y) == 0 && CmpRun(y, z) == 0
    decreases |x| + |y| + |z|
  {
    if x != [] || y != [] || z != [] {
      CmpRunUnfold(x, y);
      CmpRunUnfold(y, z);
      CmpRunUnfold(x, z);
      if HeadOr(x, 0) == HeadOr(y, 0) == HeadOr(z, 0) { CmpRunTrans(Tail(x), Tail(y), Tail(z)); }
    }
  }

  lemma CmpTokenTrans(x: Token, y: Token, z: Token)
    requires CmpToken(x, y) <= 0 && CmpToken(y, z) <= 0
    ensures CmpToken(x, z) <= 0
    ensures CmpToken(x, z) == 0 <==> CmpToken(x, y) == 0 && CmpToken(y, z) == 0
  {
    CmpRunTrans(x.run, y.run, z.run);
  }

  lemma {:induction false} CmpTokensFlip(x: seq<Token>, y: seq<Token>)
    ensures CmpTokens(y, x) == -CmpTokens(x, y)
    decreases |x| + |y|
  {
    if x != [] || y != [] {
      CmpRunFlip(HeadOr(x, End).run, HeadOr(y, End).run);
      CmpTokensFlip(Tail(x), Tail(y));
    }
  }

  lemma {:induction false} CmpTokensTrans(x: seq<Token>, y: seq<Token>, z: seq<Token>)
    requires CmpTokens(x, y) <= 0 && CmpTokens(y, z) <= 0
    ensures CmpTokens(x, z) <= 0
    ensures CmpTokens(x, z) == 0 <==> CmpTokens(x, y) == 0 && CmpTokens(y, z) == 0
    decreases |x| + |y| + |z|
  {
    if x != [] || y != [] || z != [] {
      var hx, hy, hz := HeadOr(x, End), HeadOr(y, End), HeadOr(z, End);
      CmpTokensUnfold(x, y);
      CmpTokensUnfold(y, z);
      CmpTokensUnfold(x, z);
      CmpTokenTrans(hx, hy, hz);
      if CmpToken(hx, hz) == 0 { CmpTokensTrans(Tail(x), Tail(y), Tail(z)); }
    }
  }

  /** Reflexive, and swapping the sides flips the sign. */
  lemma CompareFlip(a: string, b: string)
    ensures Compare(b, a) == -Compare(a, b)
    ensures Compare(a, a) == 0
  {
    CmpTokensFlip(Tokens(a), Tokens(b));
    CmpTokensFlip(Tokens(a), Tokens(a));
  }

  /** Transitive, strictly where one step is strict. */
  lemma CompareTrans(a: string, b: string, c: string)
    requires Compare(a, b) <= 0 && Compare(b, c) <= 0
    ensures Compare(a, c) <= 0
    ensures Compare(a, c) == 0 <==> Compare(a, b) == 0 && Compare(b, c) == 0
  {
    CmpTokensTrans(Tokens(a), Tokens(b), Tokens(c));
  }

  // ---- equal versions are the ones with the same tokens ----------------------------------

  /** Without the trailing empty tokens ("0" spells the same version as ""). */
  function Trim(x: seq<Token>): seq<Token>
  {
    if x == [] then [] else if x[|x| - 1] == End then Trim(x[..|x| - 1]) else x
  }

  function Canonical(s: string): seq<Token> { Trim(Tokens(s)) }

  ghost predicate NoZeroWeight(x: seq<int>) { forall k :: 0 <= k < |x| ==> x[k] != 0 }

  lemma {:induction false} CmpRunZero(x: seq<int>, y: seq<int>)
    requires NoZeroWeight(x) && NoZeroWeight(y)
    ensures CmpRun(x, y) == 0 <==> x == y
    decreases |x| + |y|
  {
    if x != [] && y != [] {
      CmpRunZero(Tail(x), Tail(y));
      assert x == [x[0]] + x[1..] && y == [y[0]] + y[1..];
    }
  }

  ghost predicate AllEnd(x: seq<Token>) { forall k :: 0 <= k < |x| ==> x[k] == End }

  ghost predicate SaneRuns(x: seq<Token>) { forall k :: 0 <= k < |x| ==> NoZeroWeight(x[k].run) }

  lemma {:induction false} TokensSane(s: string)
    ensures SaneRuns(Tokens(s))
    decreases |s|
  {
    if s != "" { TokensSane(Rest(s)); }
  }

  lemma {:induction false} TrimEmpty(x: seq<Token>)
    ensures Trim(x) == [] <==> AllEnd(x)
  {
    if x != [] && x[|x| - 1] == End { TrimEmpty(x[..|x| - 1]); }
  }

  lemma {:induction false} TrimCons(x: seq<Token>)
    requires x != []
    ensures Trim(x) == if AllEnd(x) then [] else [x[0]] + Trim(x[1..])
  {
    TrimEmpty(x);
    if |x| > 1 && x[|x| - 1] == End {
      TrimCons(x[..|x| - 1]);
      assert x[..|x| - 1][1..] == x[1..][..|x[1..]| - 1];
    } else if |x| > 1 {
      assert x == [x[0]] + x[1..];
    }
  }

  lemma CmpTokenZero(x: Token, y: Token)
    requires NoZeroWeight(x.run) && NoZeroWeight(y.run)
    ensures CmpToken(x, y) == 0 <==> x == y
  {
    CmpRunZero(x.run, y.run);
  }

  lemma {:induction false} CmpTokensZero(x: seq<Token>, y: seq<Token>)
    requires SaneRuns(x) && SaneRuns(y)
    ensures CmpTokens(x, y) == 0 <==> Trim(x) == Trim(y)
    decreases |x| + |y|
  {
    if x != [] || y != [] {
      var hx, hy, tx, ty := HeadOr(x, End), HeadOr(y, End), Tail(x), Tail(y);
      CmpTokensUnfold(x, y);
      CmpTokenZero(hx, hy);
      CmpTokensZero(tx, ty);
      TrimHeadTail(x);
      TrimHeadTail(y);
      ConsInjective(hx, hy, Trim(tx), Trim(ty));
    }
  }

  lemma ConsInjective<T>(a: T, b: T, x: seq<T>, y: seq<T>)
    ensures [a] + x == [b] + y <==> a == b && x == y
  {
    assert ([a] + x)[0] == a && ([a] + x)[1..] == x;
    assert ([b] + y)[0] == b && ([b] + y)[1..] == y;
  }

  lemma TrimHeadTail(x: seq<Token>)
    ensures Trim(x) == if HeadOr(x, End) == End && Trim(Tail(x)) == [] then []
                       else [HeadOr(x, End)] + Trim(Tail(x))
  {
    if x != [] {
      TrimCons(x);
      TrimEmpty(x[1..]);
    }
  }

  /** Two strings compare equal exactly when their canonical token lists are the same. */
  lemma EqualIffCanonical(a: string, b: string)
    ensures Compare(a, b) == 0 <==> Canonical(a) == Canonical(b)
  {
    TokensSane(a);
    TokensSane(b);
    CmpTokensZero(Tokens(a), Tokens(b));
  }

  // ---- a tilde sorts before the end of the string ----------------------------------------

  ghost predicate StartsWithTilde(v: string) { v != "" && v[0] == '~' }

  /** A run that reaches the end of s goes on with the tilde; one that stops at a digit does
      not change. */
  lemma {:induction false} TildeInRun(s: string, v: string)
    requires StartsWithTilde(v)
    ensures AfterRun(s) == "" ==> CmpRun(Run(s + v), Run(s)) == -1
    ensures AfterRun(s) != "" ==> Run(s + v) == Run(s) && AfterRun(s + v) == AfterRun(s) + v
  {
    if s == "" {
      assert s + v == v;
      RunStep(v, s);
    } else if StartsRun(s) {
      RunStep(s + v, s);
      assert (s + v)[1..] == s[1..] + v;
      TildeInRun(s[1..], v);
    }
  }

  lemma {:induction false} TildeAfterDigits(s: string, v: string)
    requires StartsWithTilde(v)
    ensures Digits(s + v) == Digits(s) && AfterDigits(s + v) == AfterDigits(s) + v
  {
    if s == "" {
      assert s + v == v;
    } else if StartsNumber(s) {
      assert (s + v)[1..] == s[1..] + v;
      TildeAfterDigits(s[1..], v);
    }
  }

  /** "1.0~rc1" is before "1.0": whatever follows a tilde sorts before what it extends. */
  lemma {:induction false} TildeBeforeEnd(s: string, v: string)
    requires StartsWithTilde(v)
    ensures Compare(s + v, s) == -1
    decreases |s|
  {
    CompareUnfold(s + v, s);
    TildeInRun(s, v);
    if AfterRun(s) != "" {
      TildeAfterDigits(AfterRun(s), v);
      CmpRunFlip(Run(s), Run(s));
      TildeBeforeEnd(Rest(s), v);
    }
  }
}
