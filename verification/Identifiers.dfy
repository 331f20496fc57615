/** Dotted identifiers: a prerelease text split at its separators, as hack/pinver.py's _pre_ids splits
    it (at dots and hyphens) and as SemVer 2.0.0 does (at dots). */
module Identifiers {
  import DpkgOrder

  /** A prerelease identifier or a local label's segment. */
  datatype Ident = NumId(n: nat) | TextId(s: string)

  predicate Separates(c: char, hyphens: bool) { c == '.' || (hyphens && c == '-') }

  /** One character in front of a text that is split already. */
  function Cons(c: char, parts: seq<string>, hyphens: bool): (r: seq<string>)
    requires parts != []
    ensures r != []
  {
    if Separates(c, hyphens) then [""] + parts else [[c] + parts[0]] + parts[1..]
  }

  /** re.split at the separators: one part more than there are of them. */
  function Split(s: string, hyphens: bool): (parts: seq<string>)
    ensures parts != []
  {
    if s == "" then [""] else Cons(s[0], Split(s[1..], hyphens), hyphens)
  }

  /** The last part of one and the first of the other made one. */
  function Glue(front: seq<string>, back: seq<string>): seq<string>
    requires front != [] && back != []
  {
    front[..|front| - 1] + [front[|front| - 1] + back[0]] + back[1..]
  }

  /** Digits are a number. */
  function IdentOf(part: string): Ident
  {
    if part != "" && DpkgOrder.AllDigits(part) then NumId(DpkgOrder.Value(part)) else TextId(part)
  }

  function Idents(parts: seq<string>): (ids: seq<Ident>)
    ensures |ids| == |parts| && forall i :: 0 <= i < |parts| ==> ids[i] == IdentOf(parts[i])
  {
    seq(|parts|, i requires 0 <= i < |parts| => IdentOf(parts[i]))
  }

  predicate NoneEmpty(parts: seq<string>) { forall i :: 0 <= i < |parts| ==> parts[i] != "" }

  /** _pre_ids raises on an empty part. */
  predicate Accepts(text: string) { NoneEmpty(Split(text, true)) }

  function PreIds(text: string): seq<Ident> { Idents(Split(text, true)) }

  /** The identifiers of SemVer 2.0.0. */
  function DotIds(text: string): seq<Ident> { Idents(Split(text, false)) }

  // ---- what the split computes ---------------------------------------------------------------------

  lemma SplitCons(c: char, r: string, hyphens: bool)
    ensures Split([c] + r, hyphens) == Cons(c, Split(r, hyphens), hyphens)
  {
    assert ([c] + r)[1..] == r;
  }

  lemma ConsAppend(c: char, front: seq<string>, back: seq<string>, hyphens: bool)
    requires front != []
    ensures Cons(c, front + back, hyphens) == Cons(c, front, hyphens) + back
  {
    assert (front + back)[0] == front[0] && (front + back)[1..] == front[1..] + back;
  }

  lemma ConsGlue(c: char, front: seq<string>, back: seq<string>, hyphens: bool)
    requires front != [] && back != []
    ensures Cons(c, Glue(front, back), hyphens) == Glue(Cons(c, front, hyphens), back)
  {
    if !Separates(c, hyphens) && |front| == 1 { assert [c] + (front[0] + back[0]) == [c] + front[0] + back[0]; }
  }

  /** A separator ends a part. */
  lemma {:induction false} SplitAt(h: string, c: char, r: string, hyphens: bool)
    requires Separates(c, hyphens)
    ensures Split(h + [c] + r, hyphens) == Split(h, hyphens) + Split(r, hyphens)
  {
    if h == "" {
      assert h + [c] + r == [c] + r;
      SplitCons(c, r, hyphens);
    } else {
      assert h + [c] + r == [h[0]] + (h[1..] + [c] + r);
      SplitCons(h[0], h[1..] + [c] + r, hyphens);
      SplitAt(h[1..], c, r, hyphens);
      ConsAppend(h[0], Split(h[1..], hyphens), Split(r, hyphens), hyphens);
    }
  }

  lemma GlueNothing(back: seq<string>)
    requires back != []
    ensures Glue([""], back) == back
  {
    assert "" + back[0] == back[0];
  }

  /** Where nothing stands between two texts, the parts at the seam are one. */
  lemma {:induction false} SplitGlue(h: string, x: string, hyphens: bool)
    ensures Split(h + x, hyphens) == Glue(Split(h, hyphens), Split(x, hyphens))
  {
    if h == "" {
      assert h + x == x;
      GlueNothing(Split(x, hyphens));
    } else {
      assert h + x == [h[0]] + (h[1..] + x);
      SplitCons(h[0], h[1..] + x, hyphens);
      SplitGlue(h[1..], x, hyphens);
      ConsGlue(h[0], Split(h[1..], hyphens), Split(x, hyphens), hyphens);
    }
  }

  lemma {:induction false} NoHyphenToSplit(s: string)
    requires '-' !in s
    ensures Split(s, true) == Split(s, false)
  {
    if s != "" { NoHyphenToSplit(s[1..]); }
  }

  lemma {:induction false} OnePart(s: string, hyphens: bool)
    requires forall c <- s :: !Separates(c, hyphens)
    ensures Split(s, hyphens) == [s]
  {
    if s != "" {
      OnePart(s[1..], hyphens);
      assert [s[0]] + s[1..] == s;
    }
  }

  lemma {:induction false} PartsAreWhole(s: string, hyphens: bool, i: nat)
    requires i < |Split(s, hyphens)|
    ensures forall c <- Split(s, hyphens)[i] :: c in s && !Separates(c, hyphens)
  {
    if s != "" {
      if !Separates(s[0], hyphens) {
        PartsAreWhole(s[1..], hyphens, i);
      } else if i > 0 {
        PartsAreWhole(s[1..], hyphens, i - 1);
      }
    }
  }

  /** A separator at either end, or next to another one. */
  predicate Gap(s: string, hyphens: bool)
  {
    s == "" || Separates(s[0], hyphens) || Separates(s[|s| - 1], hyphens)
    || exists i :: 0 <= i < |s| - 1 && Separates(s[i], hyphens) && Separates(s[i + 1], hyphens)
  }

  lemma {:induction false} EmptyPartIff(s: string, hyphens: bool)
    ensures NoneEmpty(Split(s, hyphens)) <==> !Gap(s, hyphens)
    decreases |s|
  {
    if s != "" {
      if i: nat :| i < |s| && Separates(s[i], hyphens) {
        var h, r := s[..i], s[i + 1..];
        assert s == h + [s[i]] + r;
        SplitAt(h, s[i], r, hyphens);
        EmptyPartIff(h, hyphens);
        EmptyPartIff(r, hyphens);
        var front, back := Split(h, hyphens), Split(r, hyphens);
        NoneEmptyAppend(front, back);
        GapApart(h, s[i], r, hyphens);
      } else {
        OnePart(s, hyphens);
      }
    }
  }

  lemma NoneEmptyAppend(x: seq<string>, y: seq<string>)
    ensures NoneEmpty(x + y) <==> NoneEmpty(x) && NoneEmpty(y)
  {
    if NoneEmpty(x + y) {
      forall i | 0 <= i < |y| ensures y[i] != "" { assert (x + y)[|x| + i] == y[i]; }
      forall i | 0 <= i < |x| ensures x[i] != "" { assert (x + y)[i] == x[i]; }
    }
  }

  lemma GapApart(h: string, c: char, r: string, hyphens: bool)
    requires Separates(c, hyphens)
    ensures Gap(h + [c] + r, hyphens) <==> Gap(h, hyphens) || Gap(r, hyphens)
  {
    var s := h + [c] + r;
    if h != "" && r != "" {
      assert s[0] == h[0] && s[|s| - 1] == r[|r| - 1] && s[|h|] == c;
      assert s[|h| - 1] == h[|h| - 1] && s[|h| + 1] == r[0];
      if Gap(h, hyphens) && !Separates(h[0], hyphens) && !Separates(h[|h| - 1], hyphens) {
        var i :| 0 <= i < |h| - 1 && Separates(h[i], hyphens) && Separates(h[i + 1], hyphens);
        assert s[i] == h[i] && s[i + 1] == h[i + 1];
      }
      if Gap(r, hyphens) && !Separates(r[0], hyphens) && !Separates(r[|r| - 1], hyphens) {
        var i :| 0 <= i < |r| - 1 && Separates(r[i], hyphens) && Separates(r[i + 1], hyphens);
        assert s[|h| + 1 + i] == r[i] && s[|h| + 1 + i + 1] == r[i + 1];
      }
      if i :| 0 <= i < |s| - 1 && Separates(s[i], hyphens) && Separates(s[i + 1], hyphens) {
        if i + 1 < |h| { assert s[i] == h[i] && s[i + 1] == h[i + 1]; }
        else if i > |h| { assert s[i] == r[i - |h| - 1] && s[i + 1] == r[i - |h|]; }
      }
    } else if h == "" {
      assert s[0] == c;
    } else {
      assert s[|s| - 1] == c;
    }
  }

  /** _pre_ids raises exactly on a dot or a hyphen at either end or next to another; SemVer has no
      identifier empty exactly without a dot at either end or next to another. */
  lemma AcceptsIff(text: string)
    ensures Accepts(text) <==> !Gap(text, true)
    ensures NoneEmpty(Split(text, false)) <==> !Gap(text, false)
  {
    EmptyPartIff(text, true);
    EmptyPartIff(text, false);
  }

  /** 1.0.0-a--b is a version of SemVer 2.0.0, and no version here. */
  lemma DoubleHyphenIsRejected()
    ensures !Accepts("a--b") && NoneEmpty(Split("a--b", false))
  {
    AcceptsIff("a--b");
    assert Separates("a--b"[1], true) && Separates("a--b"[2], true);
  }
}
