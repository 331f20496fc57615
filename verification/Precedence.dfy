/** The precedence rules that hack/pinver.py's keys stand for: the "Summary of permitted suffixes and
    relative ordering" of PEP 440 and section 5.6.12 of the Debian Policy Manual, each as a small
    comparison of parsed parts, and the proof that the keys agree. SemVer's is in SemverPrecedence. */
module Precedence {
  import opened Wrappers
  import opened Keys
  import opened Identifiers
  import opened Versions
  import DpkgOrder

  function NumCmp(m: int, n: int): int { DpkgOrder.Sign(m - n) }

  /** The first comparison that is not a tie. */
  function Then(first: int, next: int): int { if first != 0 then first else next }

  // ---- identifiers -----------------------------------------------------------------------------

  /** Numbers by value, texts by code points; a number is on one side of every text. */
  function IdCmp(x: Ident, y: Ident, numberAbove: bool): (r: int)
    ensures -1 <= r <= 1
  {
    match (x, y)
    case (NumId(m), NumId(n)) => NumCmp(m, n)
    case (TextId(s), TextId(t)) => CmpStr(s, t)
    case (NumId(_), TextId(_)) => if numberAbove then 1 else -1
    case (TextId(_), NumId(_)) => if numberAbove then -1 else 1
  }

  /** From left to right; with all before equal, the longer list is above. */
  function IdsCmp(x: seq<Ident>, y: seq<Ident>, numberAbove: bool): int
  {
    if x == [] || y == [] then NumCmp(|x|, |y|)
    else Then(IdCmp(x[0], y[0], numberAbove), IdsCmp(x[1..], y[1..], numberAbove))
  }

  lemma OneCmp(a: Key, b: Key)
    ensures CmpAll([a], [b]) == Cmp(a, b)
  {
    CmpAllCons(a, [], b, []);
    assert [a] + [] == [a] && [b] + [] == [b];
  }

  lemma TwoCmp(a: Key, a': Key, b: Key, b': Key)
    ensures CmpAll([a, a'], [b, b']) == Then(Cmp(a, b), Cmp(a', b'))
  {
    OneCmp(a', b');
    CmpAllCons(a, [a'], b, [b']);
    assert [a] + [a'] == [a, a'] && [b] + [b'] == [b, b'];
  }

  lemma ThreeCmp(a: Key, a': Key, a'': Key, b: Key, b': Key, b'': Key)
    ensures CmpAll([a, a', a''], [b, b', b'']) == Then(Cmp(a, b), Then(Cmp(a', b'), Cmp(a'', b'')))
  {
    TwoCmp(a', a'', b', b'');
    CmpAllCons(a, [a', a''], b, [b', b'']);
    assert [a] + [a', a''] == [a, a', a''] && [b] + [b', b''] == [b, b', b''];
  }

  lemma IdKeyCmp(x: Ident, y: Ident, text: nat, number: nat)
    requires text != number
    ensures Cmp(IdKey(x, text, number), IdKey(y, text, number)) == IdCmp(x, y, number > text)
  {
    var a, b := IdKey(x, text, number).ks, IdKey(y, text, number).ks;
    ThreeCmp(a[0], a[1], a[2], b[0], b[1], b[2]);
    CmpRefl(Str(""));
    assert a == [a[0], a[1], a[2]] && b == [b[0], b[1], b[2]];
  }

  lemma {:induction false} IdsKeyCmp(x: seq<Ident>, y: seq<Ident>, text: nat, number: nat)
    requires text != number
    ensures CmpAll(Ids(x, text, number), Ids(y, text, number)) == IdsCmp(x, y, number > text)
  {
    if x != [] && y != [] {
      IdKeyCmp(x[0], y[0], text, number);
      IdsKeyCmp(x[1..], y[1..], text, number);
      assert Ids(x, text, number)[1..] == Ids(x[1..], text, number);
      assert Ids(y, text, number)[1..] == Ids(y[1..], text, number);
    }
  }

  // ---- PEP 440 ---------------------------------------------------------------------------------

  /** Within a release: .devN, then aN, bN, rcN, then no suffix, then .postN. */
  datatype Phase = DevOnly | Pre | Final | Post

  function PhaseOf(p: Parts): Phase
    requires p.PepParts?
  {
    if p.stage.Some? then Pre else if p.post.Some? then Post else if p.dev.Some? then DevOnly else Final
  }

  function Rank(p: Phase): nat { match p case DevOnly => 0 case Pre => 1 case Final => 2 case Post => 3 }

  /** .devN before no .dev, and by number. */
  function DevCmp(d: Option<nat>, e: Option<nat>): int
  {
    match (d, e)
    case (None, None) => 0
    case (Some(_), None) => -1
    case (None, Some(_)) => 1
    case (Some(m), Some(n)) => NumCmp(m, n)
  }

  /** After a prerelease or a release number: .devN, then nothing, then .postN, itself after its .devN. */
  function AfterCmp(x: Parts, y: Parts): int
    requires x.PepParts? && y.PepParts?
  {
    match (x.post, y.post)
    case (None, None) => DevCmp(x.dev, y.dev)
    case (None, Some(_)) => -1
    case (Some(_), None) => 1
    case (Some(m), Some(n)) => Then(NumCmp(m, n), DevCmp(x.dev, y.dev))
  }

  function SuffixCmp(x: Parts, y: Parts): int
    requires x.PepParts? && y.PepParts?
  {
    Then(NumCmp(Rank(PhaseOf(x)), Rank(PhaseOf(y))),
         match PhaseOf(x)
         case DevOnly => DevCmp(x.dev, y.dev)
         case Pre => StageCmp(x, y)
         case Final => 0
         case Post => AfterCmp(x, y))
  }

  /** a before b before rc, then by number, then by what follows. */
  function StageCmp(x: Parts, y: Parts): int
    requires x.PepParts? && y.PepParts?
  {
    if x.stage.None? || y.stage.None? then 0
    else
      Then(NumCmp(x.stage.value.0, y.stage.value.0), Then(NumCmp(x.stage.value.1, y.stage.value.1), AfterCmp(x, y)))
  }

  /** A local label is above none; in two, a number is above every text. */
  function LabelCmp(x: Parts, y: Parts): int
    requires x.PepParts? && y.PepParts?
  {
    match (x.localIds, y.localIds)
    case (None, None) => 0
    case (None, Some(_)) => -1
    case (Some(_), None) => 1
    case (Some(s), Some(t)) => IdsCmp(s, t, true)
  }

  /** Epoch, release as if padded with zeros, suffix, local label. */
  function PepCmp(x: Parts, y: Parts): int
    requires x.PepParts? && y.PepParts?
  {
    Then(NumCmp(x.epoch, y.epoch), Then(CmpZeros(x.nums, y.nums), Then(SuffixCmp(x, y), LabelCmp(x, y))))
  }

  /** The letter of a prerelease is 0 for a, 1 for b and 2 for rc. */
  predicate Letter(p: Parts) { p.PepParts? && p.nums != [] && (p.stage.Some? ==> p.stage.value.0 <= 2) }

  function PairCmp(x: Pair, y: Pair): int { Then(NumCmp(x.fst, y.fst), NumCmp(x.snd, y.snd)) }

  lemma PairKeyCmp(x: Pair, y: Pair)
    ensures Cmp(PairKey(x), PairKey(y)) == PairCmp(x, y)
  {
    TwoCmp(Num(x.fst), Num(x.snd), Num(y.fst), Num(y.snd));
  }

  /** How the three middle entries of two keys compare is the suffix order. */
  lemma SuffixFromKeys(x: Parts, y: Parts, pre: int, post: int, dev: int)
    requires Letter(x) && Letter(y) && pre == PairCmp(PrePair(x), PrePair(y))
    requires post == NumCmp(PostNum(x.post), PostNum(y.post)) && dev == PairCmp(DevPair(x.dev), DevPair(y.dev))
    ensures Then(pre, Then(post, dev)) == SuffixCmp(x, y)
  {
    assert dev == DevCmp(x.dev, y.dev);
    assert Then(post, dev) == AfterCmp(x, y);
  }

  lemma SixCmp(a: seq<Key>, b: seq<Key>)
    requires |a| == |b| == 6
    ensures CmpAll(a, b) ==
            Then(Cmp(a[0], b[0]),
                 Then(Cmp(a[1], b[1]),
                      Then(Then(Cmp(a[2], b[2]), Then(Cmp(a[3], b[3]), Cmp(a[4], b[4]))), Cmp(a[5], b[5]))))
  {
    ThreeCmp(a[3], a[4], a[5], b[3], b[4], b[5]);
    assert a[3..] == [a[3], a[4], a[5]] && b[3..] == [b[3], b[4], b[5]];
    CmpAllCons(a[2], a[3..], b[2], b[3..]);
    assert a[2..] == [a[2]] + a[3..] && b[2..] == [b[2]] + b[3..];
    CmpAllCons(a[1], a[2..], b[1], b[2..]);
    assert a[1..] == [a[1]] + a[2..] && b[1..] == [b[1]] + b[2..];
    CmpAllCons(a[0], a[1..], b[0], b[1..]);
    assert a == [a[0]] + a[1..] && b == [b[0]] + b[1..];
  }

  lemma ReleaseKeyCmp(x: seq<nat>, y: seq<nat>)
    requires x != [] && y != []
    ensures Cmp(Tup(Nums(TrimZeros(x))), Tup(Nums(TrimZeros(y)))) == CmpZeros(x, y)
  {
    TrimmedOrder(TrimZeros(x), TrimZeros(y));
    TrimAt(x);
    TrimAt(y);
    ZerosAtEnd(TrimZeros(x), TrimZeros(y), x, y);
  }

  lemma LabelKeyCmp(x: Parts, y: Parts)
    requires x.PepParts? && y.PepParts?
    ensures Cmp(PepLabel(x), PepLabel(y)) == LabelCmp(x, y)
  {
    if x.localIds.Some? && y.localIds.Some? {
      IdsKeyCmp(x.localIds.value, y.localIds.value, 0, 1);
      TwoCmp(Num(1), Tup(Ids(x.localIds.value, 0, 1)), Num(1), Tup(Ids(y.localIds.value, 0, 1)));
    } else if x.localIds.None? && y.localIds.None? {
      CmpRefl(NoLabel);
    } else {
      LabelsDiffer(PepLabel(if x.localIds.Some? then x else y).ks[1]);
    }
  }

  /** The keys of pep440 order versions as PEP 440 does. */
  lemma PepKeyIsPrecedence(x: Parts, y: Parts)
    requires Letter(x) && Letter(y)
    ensures Cmp(KeyOf(x), KeyOf(y)) == PepCmp(x, y)
  {
    var a, b := PepPublic(x) + [PepLabel(x)], PepPublic(y) + [PepLabel(y)];
    SixCmp(a, b);
    ReleaseKeyCmp(x.nums, y.nums);
    PairKeyCmp(PrePair(x), PrePair(y));
    OneCmp(Num(PostNum(x.post)), Num(PostNum(y.post)));
    PairKeyCmp(DevPair(x.dev), DevPair(y.dev));
    SuffixFromKeys(x, y, Cmp(a[2], b[2]), Cmp(a[3], b[3]), Cmp(a[4], b[4]));
    LabelKeyCmp(x, y);
  }

  // ---- Debian ----------------------------------------------------------------------------------

  /** A version without its epoch is an upstream version and, behind the last dash, a revision; no
      revision is the revision 0. */
  predicate Divided(rest: string, up: string, rev: string)
  {
    (rest == up + "-" + rev && '-' !in rev) || ('-' !in rest && up == rest && rev == "0")
  }

  /** Epoch, then upstream version, then revision, the last two in dpkg's order. */
  function DebCmp(x: Parts, up: string, rev: string, y: Parts, up': string, rev': string): int
    requires x.AptParts? && y.AptParts?
  {
    Then(NumCmp(x.epoch, y.epoch), Then(DpkgOrder.Compare(up, up'), DpkgOrder.Compare(rev, rev')))
  }

  lemma LastDash(rest: string, up: string, rev: string)
    requires rest == up + "-" + rev && '-' !in rev
    ensures rest[|up|] == '-' && forall k :: |up| < k < |rest| ==> rest[k] != '-'
    ensures rest[..|up|] == up && rest[|up| + 1..] == rev
  {
    forall k | |up| < k < |rest| ensures rest[k] != '-' { assert rest[k] == rev[k - |up| - 1]; }
  }

  /** There is one way to divide a version. */
  lemma DividedOnce(rest: string, up: string, rev: string)
    requires Divided(rest, up, rev)
    ensures RSplit(rest) == (up, rev)
  {
    LastDashSplits(rest);
    if rest == up + "-" + rev && '-' !in rev {
      assert rest[|up|] == '-';
      LastDash(rest, up, rev);
      LastDash(rest, RSplit(rest).0, RSplit(rest).1);
    }
  }

  /** The keys of apt order versions as section 5.6.12 of the Debian Policy Manual does. */
  lemma DebKeyIsPrecedence(x: Parts, up: string, rev: string, y: Parts, up': string, rev': string)
    requires x.AptParts? && y.AptParts? && Divided(x.rest, up, rev) && Divided(y.rest, up', rev')
    ensures Cmp(KeyOf(x), KeyOf(y)) == DebCmp(x, up, rev, y, up', rev')
  {
    DividedOnce(x.rest, up, rev);
    DividedOnce(y.rest, up', rev');
    ThreeCmp(Num(x.epoch), Deb(up), Deb(rev), Num(y.epoch), Deb(up'), Deb(rev'));
  }
}
