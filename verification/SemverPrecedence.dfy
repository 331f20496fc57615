/** Section 11 of SemVer 2.0.0 against hack/pinver.py's keys. The standard splits a prerelease at its
    dots; the code splits it at hyphens too, so the two agree exactly on prereleases without a hyphen. */
module SemverPrecedence {
  import opened Wrappers
  import opened Keys
  import opened Identifiers
  import opened Versions
  import opened Precedence
  import DpkgOrder

  // ---- the standard --------------------------------------------------------------------------------

  /** A prerelease is below its release; two compare by their identifiers, a number below every text. */
  function PreCmp(p: Option<string>, q: Option<string>): int
  {
    match (p, q)
    case (None, None) => 0
    case (Some(_), None) => -1
    case (None, Some(_)) => 1
    case (Some(s), Some(t)) => IdsCmp(DotIds(s), DotIds(t), false)
  }

  function NumbersCmp(x: seq<nat>, y: seq<nat>): int
  {
    Then(NumCmp(At(x, 0), At(y, 0)), Then(NumCmp(At(x, 1), At(y, 1)), NumCmp(At(x, 2), At(y, 2))))
  }

  /** Major, minor and patch by value, then the prereleases. */
  function SemverCmp(x: Parts, y: Parts): int
    requires x.SemverParts? && y.SemverParts?
  {
    Then(NumbersCmp(x.nums, y.nums), PreCmp(x.pre, y.pre))
  }

  // ---- the keys ------------------------------------------------------------------------------------

  lemma CoreCmp(x: seq<nat>, y: seq<nat>)
    requires |x| == |y| == 3
    ensures Cmp(Tup(Nums(x)), Tup(Nums(y))) == NumbersCmp(x, y)
  {
    var a, b := Nums(x), Nums(y);
    ThreeCmp(a[0], a[1], a[2], b[0], b[1], b[2]);
    assert a == [a[0], a[1], a[2]] && b == [b[0], b[1], b[2]];
  }

  /** How the code compares two prereleases, or a prerelease and a release. */
  function CodeCmp(p: Option<string>, q: Option<string>): int
  {
    match (p, q)
    case (None, None) => 0
    case (Some(_), None) => -1
    case (None, Some(_)) => 1
    case (Some(s), Some(t)) => IdsCmp(PreIds(s), PreIds(t), false)
  }

  /** The keys compare the numbers, then the prereleases with the code's identifiers. */
  lemma KeysCompare(x: Parts, y: Parts)
    requires SemverOk(x) && SemverOk(y)
    ensures Cmp(KeyOf(x), KeyOf(y)) == Then(NumbersCmp(x.nums, y.nums), CodeCmp(x.pre, y.pre))
  {
    CoreCmp(Pad(x.nums, 3), Pad(y.nums, 3));
    TwoCmp(Tup(Nums(Pad(x.nums, 3))), Tup(PreTail(x.pre)), Tup(Nums(Pad(y.nums, 3))), Tup(PreTail(y.pre)));
    match (x.pre, y.pre) {
      case (None, None) => CmpRefl(Tup(PreTail(x.pre)));
      case (Some(s), None) =>
        CmpAllCons(Num(0), Ids(PreIds(s), 1, 0), Num(1), []);
        assert [Num(1)] + [] == [Num(1)];
      case (None, Some(t)) =>
        CmpAllCons(Num(1), [], Num(0), Ids(PreIds(t), 1, 0));
        assert [Num(1)] + [] == [Num(1)];
      case (Some(s), Some(t)) =>
        IdsKeyCmp(PreIds(s), PreIds(t), 1, 0);
        CmpAllCons(Num(0), Ids(PreIds(s), 1, 0), Num(0), Ids(PreIds(t), 1, 0));
    }
  }

  // ---- without hyphens -----------------------------------------------------------------------------

  predicate NoHyphen(p: Option<string>) { p.Some? ==> '-' !in p.value }

  /** Where neither prerelease has a hyphen, the keys order versions as the standard does. */
  lemma SemverKeyIsPrecedence(x: Parts, y: Parts)
    requires SemverOk(x) && SemverOk(y) && NoHyphen(x.pre) && NoHyphen(y.pre)
    ensures Cmp(KeyOf(x), KeyOf(y)) == SemverCmp(x, y)
  {
    KeysCompare(x, y);
    if x.pre.Some? { NoHyphenToSplit(x.pre.value); }
    if y.pre.Some? { NoHyphenToSplit(y.pre.value); }
  }

  // ---- with a hyphen -------------------------------------------------------------------------------

  lemma {:induction false} StrRefl(s: string)
    ensures CmpStr(s, s) == 0
  {
    if s != "" { StrRefl(s[1..]); }
  }

  /** Whatever extends a text is above it. */
  lemma {:induction false} Extended(s: string, t: string)
    requires t != ""
    ensures CmpStr(s, s + t) == -1 && CmpStr(s + t, s) == 1
  {
    if s == "" {
      assert s + t == t;
    } else {
      assert (s + t)[0] == s[0] && (s + t)[1..] == s[1..] + t;
      Extended(s[1..], t);
    }
  }

  lemma {:induction false} SameFront(front: seq<Ident>, x: seq<Ident>, y: seq<Ident>)
    ensures IdsCmp(front + x, front + y, false) == IdsCmp(x, y, false)
  {
    if front == [] {
      assert front + x == x && front + y == y;
    } else {
      var id := front[0];
      if id.TextId? { StrRefl(id.s); }
      assert (front + x)[0] == id && (front + x)[1..] == front[1..] + x;
      assert (front + y)[0] == id && (front + y)[1..] == front[1..] + y;
      SameFront(front[1..], x, y);
    }
  }

  lemma IdentsAppend(x: seq<string>, y: seq<string>)
    ensures Idents(x + y) == Idents(x) + Idents(y)
  {
  }

  /** A text with an appended letter is a text, above the identifier without it. */
  lemma LetterAbove(v: string)
    ensures IdentOf(v + "z") == TextId(v + "z") && IdCmp(IdentOf(v), IdentOf(v + "z"), false) == -1
  {
    assert (v + "z")[|v|] == 'z';
    Extended(v, "z");
  }

  /** An identifier goes on behind a hyphen: a text, above what it begins with. */
  lemma HyphenAbove(u: string, v: string)
    ensures IdCmp(IdentOf(u + "-" + v), IdentOf(u), false) == 1
  {
    assert (u + "-" + v)[|u|] == '-' && u + "-" + v == u + ("-" + v);
    Extended(u, "-" + v);
  }

  /** The prerelease p is h and r with a hyphen between, the first one. */
  predicate FirstHyphen(p: string, h: string, r: string) { p == h + "-" + r && '-' !in h }

  lemma {:induction false} HyphenSplits(p: string) returns (h: string, r: string)
    requires '-' in p
    ensures FirstHyphen(p, h, r)
  {
    if p[0] == '-' {
      h, r := "", p[1..];
      assert p == ['-'] + p[1..];
    } else {
      h, r := HyphenSplits(p[1..]);
      h := [p[0]] + h;
      assert p == [p[0]] + p[1..];
    }
  }

  /** Where the text goes on with its first part behind the hyphen, taken as an identifier of its own
      and with a letter more. */
  function Between(h: string, r: string): string { h + "." + (Split(r, true)[0] + "z") }

  lemma BetweenSplits(h: string, r: string, hyphens: bool)
    requires '-' !in h
    ensures Split(Between(h, r), hyphens) == Split(h, true) + [Split(r, true)[0] + "z"]
  {
    var v := Split(r, true)[0] + "z";
    PartsAreWhole(r, true, 0);
    assert forall c <- v :: !Separates(c, true);
    OnePart(v, hyphens);
    assert Between(h, r) == h + ['.'] + v;
    SplitAt(h, '.', v, hyphens);
    NoHyphenToSplit(h);
  }

  /** The code has the prerelease below: it compares only the part up to the next hyphen or dot. */
  lemma CodeIsBelow(p: string, h: string, r: string)
    requires FirstHyphen(p, h, r)
    ensures IdsCmp(PreIds(p), PreIds(Between(h, r)), false) == -1
  {
    var front, back := Split(h, true), Split(r, true);
    assert p == h + ['-'] + r;
    SplitAt(h, '-', r, true);
    BetweenSplits(h, r, true);
    IdentsAppend(front, back);
    IdentsAppend(front, [back[0] + "z"]);
    SameFront(Idents(front), Idents(back), Idents([back[0] + "z"]));
    LetterAbove(back[0]);
  }

  /** The standard's parts: the same front, then one that goes on behind a hyphen against it alone. */
  lemma StandardSplits(p: string, h: string, r: string)
    returns (front: seq<string>, u: string, v: string, rest: seq<string>)
    requires FirstHyphen(p, h, r)
    ensures Split(p, false) == front + ([u + "-" + v] + rest)
    ensures Split(Between(h, r), false) == front + [u, Split(r, true)[0] + "z"]
  {
    var parts, back := Split(h, true), Split(r, false);
    var n := |parts| - 1;
    front, u, v, rest := parts[..n], parts[n], back[0], back[1..];
    assert p == h + ("-" + r) && "-" + r == ['-'] + r;
    SplitGlue(h, "-" + r, false);
    NoHyphenToSplit(h);
    SplitCons('-', r, false);
    GlueEnds(front, u, "-", v, rest);
    assert parts == front + [u];
    BetweenSplits(h, r, false);
    TwoMore(front, u, Split(r, true)[0] + "z");
  }

  lemma GlueEnds(front: seq<string>, u: string, c: string, v: string, rest: seq<string>)
    ensures Glue(front + [u], [c + v] + rest) == front + ([u + c + v] + rest)
  {
    assert u + (c + v) == u + c + v;
    assert (front + [u])[..|front|] == front && ([c + v] + rest)[1..] == rest;
  }

  lemma TwoMore(front: seq<string>, u: string, w: string)
    ensures front + [u] + [w] == front + [u, w]
  {
  }

  /** The standard has it above: its identifier goes on behind the hyphen. */
  lemma StandardIsAbove(p: string, h: string, r: string)
    requires FirstHyphen(p, h, r)
    ensures IdsCmp(DotIds(p), DotIds(Between(h, r)), false) == 1
  {
    var front, u, v, rest := StandardSplits(p, h, r);
    var mine, theirs := [u + "-" + v] + rest, [u, Split(r, true)[0] + "z"];
    IdentsAppend(front, mine);
    IdentsAppend(front, theirs);
    SameFront(Idents(front), Idents(mine), Idents(theirs));
    HyphenAbove(u, v);
  }

  /** It is a prerelease text without a hyphen that both accept. */
  lemma BetweenIsAccepted(p: string, h: string, r: string)
    requires PreText(p) && Accepts(p) && FirstHyphen(p, h, r)
    ensures PreText(Between(h, r)) && '-' !in Between(h, r) && Accepts(Between(h, r))
  {
    var v := Split(r, true)[0] + "z";
    assert p == h + ['-'] + r && Between(h, r) == h + "." + v;
    SplitAt(h, '-', r, true);
    NoneEmptyAppend(Split(h, true), Split(r, true));
    BetweenSplits(h, r, true);
    NoneEmptyAppend(Split(h, true), [v]);
    PartsAreWhole(r, true, 0);
    assert p[|h|] == '-' && h != "" && h[0] == p[0];
    forall c <- Between(h, r) ensures DpkgOrder.IsDigit(c) || DpkgOrder.IsLetter(c) || c == '.' {
      if c in h { assert c in p; } else if c in Split(r, true)[0] { assert c in r && c in p; }
    }
  }

  // ---- exactly when --------------------------------------------------------------------------------

  /** A version that the code accepts. */
  predicate Accepted(x: Parts) { SemverOk(x) && (x.pre.Some? ==> Accepts(x.pre.value)) }

  /** Where a prerelease has a hyphen, some version of the same numbers without one is ordered the
      other way round. */
  lemma HyphenDisagrees(x: Parts) returns (y: Parts)
    requires Accepted(x) && !NoHyphen(x.pre)
    ensures Accepted(y) && NoHyphen(y.pre) && y.nums == x.nums
    ensures Cmp(KeyOf(x), KeyOf(y)) == -1 && SemverCmp(x, y) == 1
  {
    var p := x.pre.value;
    var h, r := HyphenSplits(p);
    y := SemverParts(x.nums, Some(Between(h, r)));
    BetweenIsAccepted(p, h, r);
    KeysCompare(x, y);
    CodeIsBelow(p, h, r);
    StandardIsAbove(p, h, r);
  }

  /** The keys order a version against every one without a hyphen as the standard does, if and only
      if it has no hyphen in its prerelease either. */
  lemma AgreesIff(x: Parts)
    requires Accepted(x)
    ensures (forall y :: Accepted(y) && NoHyphen(y.pre) ==> Cmp(KeyOf(x), KeyOf(y)) == SemverCmp(x, y))
            <==> NoHyphen(x.pre)
  {
    if NoHyphen(x.pre) {
      forall y | Accepted(y) && NoHyphen(y.pre) ensures Cmp(KeyOf(x), KeyOf(y)) == SemverCmp(x, y) {
        SemverKeyIsPrecedence(x, y);
      }
    } else {
      var y := HyphenDisagrees(x);
      assert Cmp(KeyOf(x), KeyOf(y)) != SemverCmp(x, y);
    }
  }

  lemma TwoParts(u: string, v: string)
    requires forall c <- u + v :: !Separates(c, true)
    ensures Split(u + "-" + v, true) == [u, v]
    ensures Split(u + "-" + v, false) == [u + "-" + v]
  {
    assert u + "-" + v == u + ['-'] + v;
    SplitAt(u, '-', v, true);
    OnePart(u, true);
    OnePart(v, true);
    OnePart(u + "-" + v, false);
  }

  /** A hyphen between a text and a number: two identifiers for the code, one for the standard. */
  lemma TextAndNumber(u: string, v: string)
    requires u != "" && v != "" && (forall c <- u :: DpkgOrder.IsLetter(c)) && DpkgOrder.AllDigits(v)
    ensures PreText(u + "-" + v) && Accepts(u + "-" + v)
    ensures PreIds(u + "-" + v) == [TextId(u), NumId(DpkgOrder.Value(v))]
    ensures DotIds(u + "-" + v) == [TextId(u + "-" + v)]
  {
    TwoParts(u, v);
    assert (u + "-" + v)[0] == u[0] && u[0] in u && !DpkgOrder.IsDigit(u[0]);
  }

  lemma NineAndTen()
    ensures DpkgOrder.AllDigits("9") && DpkgOrder.Value("9") == 9
    ensures DpkgOrder.AllDigits("10") && DpkgOrder.Value("10") == 10
  {
    assert "9"[..0] == "" && "10"[..1] == "1" && "1"[..0] == "";
    assert DpkgOrder.Value("1") == 1;
  }

  /** Texts that begin alike compare by what follows. */
  lemma {:induction false} SameStart(h: string, s: string, t: string)
    ensures CmpStr(h + s, h + t) == CmpStr(s, t)
  {
    if h == "" {
      assert h + s == s && h + t == t;
    } else {
      assert (h + s)[0] == h[0] && (h + s)[1..] == h[1..] + s;
      assert (h + t)[0] == h[0] && (h + t)[1..] == h[1..] + t;
      SameStart(h[1..], s, t);
    }
  }

  lemma OneIdCmp(x: Ident, y: Ident)
    ensures IdsCmp([x], [y], false) == IdCmp(x, y, false)
  {
  }

  lemma NumberDecides(s: string, m: nat, n: nat)
    ensures IdsCmp([TextId(s), NumId(m)], [TextId(s), NumId(n)], false) == NumCmp(m, n)
  {
    SameFront([TextId(s)], [NumId(m)], [NumId(n)]);
    assert [TextId(s)] + [NumId(m)] == [TextId(s), NumId(m)] && [TextId(s)] + [NumId(n)] == [TextId(s), NumId(n)];
    OneIdCmp(NumId(m), NumId(n));
  }

  /** The standard compares such prereleases as texts, the code by the numbers. */
  lemma NumberAgainstText(u: string, v: string, w: string)
    requires u != "" && v != "" && w != "" && forall c <- u :: DpkgOrder.IsLetter(c)
    requires DpkgOrder.AllDigits(v) && DpkgOrder.AllDigits(w)
    ensures IdsCmp(PreIds(u + "-" + v), PreIds(u + "-" + w), false) == NumCmp(DpkgOrder.Value(v), DpkgOrder.Value(w))
    ensures IdsCmp(DotIds(u + "-" + v), DotIds(u + "-" + w), false) == CmpStr(v, w)
  {
    TextAndNumber(u, v);
    TextAndNumber(u, w);
    NumberDecides(u, DpkgOrder.Value(v), DpkgOrder.Value(w));
    OneIdCmp(TextId(u + "-" + v), TextId(u + "-" + w));
    SameStart(u + "-", v, w);
  }

  /** 1.0.0-rc-10 is below 1.0.0-rc-9 in SemVer 2.0.0, and above it here. */
  lemma HyphensMisorder()
    ensures var (x, y) := (SemverParts([1, 0, 0], Some("rc-10")), SemverParts([1, 0, 0], Some("rc-9")));
            Accepted(x) && Accepted(y) && Cmp(KeyOf(x), KeyOf(y)) == 1 && SemverCmp(x, y) == -1
  {
    assert "rc" + "-" + "10" == "rc-10" && "rc" + "-" + "9" == "rc-9";
    NineAndTen();
    TextAndNumber("rc", "10");
    TextAndNumber("rc", "9");
    NumberAgainstText("rc", "10", "9");
    KeysCompare(SemverParts([1, 0, 0], Some("rc-10")), SemverParts([1, 0, 0], Some("rc-9")));
  }
}
