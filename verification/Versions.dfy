/** hack/pinver.py: the version of every scheme from its parsed parts, and compare. */
module Versions {
  import opened Wrappers
  import opened Keys
  import opened Identifiers
  import DpkgOrder

  datatype Scheme = Semver | Zerover | K8s | Llama | Calver | Pep440 | DockerSuffix | Eat | Apt | HfSha

  /** What a scheme's regular expression captures. */
  datatype Parts =
    | SemverParts(nums: seq<nat>, pre: Option<string>)
    | K8sParts(nums: seq<nat>, stage: Option<(nat, nat)>, distro: string, build: nat)
    | LlamaBuild(number: nat)
    | LlamaRelease(nums: seq<nat>)
    | CalverParts(nums: seq<nat>)
    | PepParts(epoch: nat, nums: seq<nat>, stage: Option<(nat, nat)>, post: Option<nat>, dev: Option<nat>,
               localIds: Option<seq<Ident>>)
    | DockerParts(prefix: string, nums: seq<nat>, suffix: string, preSuffix: bool)
    | EatParts(nums: seq<nat>, hotfix: bool)
    | AptParts(epoch: nat, rest: string)
    | HfParts

  /** A prerelease text: letters, digits, dots and hyphens from a letter or a digit on. */
  predicate PreText(text: string)
  {
    text != "" && text[0] != '.' && text[0] != '-'
    && forall c <- text :: DpkgOrder.IsDigit(c) || DpkgOrder.IsLetter(c) || c == '.' || c == '-'
  }

  predicate SemverOk(p: Parts)
  {
    p.SemverParts? && 1 <= |p.nums| <= 3 && (p.pre.Some? ==> PreText(p.pre.value))
  }

  predicate PartsOk(scheme: Scheme, p: Parts)
  {
    match scheme
    case Semver => SemverOk(p)
    case Zerover => SemverOk(p)
    case K8s => p.K8sParts? && |p.nums| == 3
    case Llama => p.LlamaBuild? || (p.LlamaRelease? && |p.nums| == 3)
    case Calver => p.CalverParts? && 2 <= |p.nums| <= 3
    case Pep440 => p.PepParts? && |p.nums| >= 1
    case DockerSuffix => p.DockerParts? && |p.nums| >= 1
    case Eat => p.EatParts? && |p.nums| == 3
    case Apt => p.AptParts?
    case HfSha => p.HfParts?
  }

  datatype Version = Version(raw: string, flavour: seq<string>, key: Key, release: seq<nat>, pre: bool, local: bool)

  datatype Result<T> = Ok(value: T) | ValueError

  // ---- keys -------------------------------------------------------------------------------------------

  function Ids(ids: seq<Ident>, text: nat, number: nat): (ks: seq<Key>)
    ensures |ks| == |ids|
    ensures forall i :: 0 <= i < |ids| ==> ks[i] == IdKey(ids[i], text, number)
  {
    seq(|ids|, i requires 0 <= i < |ids| => IdKey(ids[i], text, number))
  }

  /** (number, n, "") or (text, 0, s). */
  function IdKey(id: Ident, text: nat, number: nat): Key
  {
    match id
    case NumId(n) => Tup([Num(number), Num(n), Str("")])
    case TextId(s) => Tup([Num(text), Num(0), Str(s)])
  }

  /** Without its trailing zeros, but never empty. */
  function TrimZeros(ns: seq<nat>): (r: seq<nat>)
    requires ns != []
    ensures Trimmed(r) && |r| <= |ns|
    ensures forall i :: 0 <= i < |ns| ==> ns[i] == At(r, i)
  {
    if |ns| > 1 && ns[|ns| - 1] == 0 then TrimZeros(ns[..|ns| - 1]) else ns
  }

  /** The two numbers of a key's tuple. */
  datatype Pair = Pair(fst: int, snd: int)

  function PairKey(p: Pair): Key { Tup([Num(p.fst), Num(p.snd)]) }

  function PrePair(p: Parts): Pair
    requires p.PepParts?
  {
    match p.stage
    case Some((rank, n)) => Pair(rank, n)
    case None => Pair(if p.post.None? && p.dev.Some? then -1 else 9, 0)
  }

  function PostNum(post: Option<nat>): int { match post case None => -1 case Some(n) => n }

  function DevPair(dev: Option<nat>): Pair { match dev case None => Pair(1, 0) case Some(n) => Pair(0, n) }

  /** The part of a pep440 key before the local label. */
  function PepPublic(p: Parts): seq<Key>
    requires p.PepParts? && p.nums != []
  {
    [Num(p.epoch), Tup(Nums(TrimZeros(p.nums))), PairKey(PrePair(p)), Tup([Num(PostNum(p.post))]),
     PairKey(DevPair(p.dev))]
  }

  const NoLabel := Tup([Num(0)])

  function PepLabel(p: Parts): Key
    requires p.PepParts?
  {
    match p.localIds case None => NoLabel case Some(segs) => Tup([Num(1), Tup(Ids(segs, 0, 1))])
  }

  /** rsplit("-", 1), with revision "0" when there is no dash. */
  function RSplit(rest: string): (string, string)
  {
    if rest == "" then (rest, "0")
    else if rest[|rest| - 1] == '-' then (rest[..|rest| - 1], "")
    else
      var (up, rev) := RSplit(rest[..|rest| - 1]);
      if '-' in rest then (up, rev + [rest[|rest| - 1]]) else (rest, "0")
  }

  /** The last dash is between the upstream version and the revision; without one the revision is 0. */
  lemma {:induction false} LastDashSplits(rest: string)
    ensures var (up, rev) := RSplit(rest);
            if '-' in rest then rest == up + "-" + rev && '-' !in rev else up == rest && rev == "0"
  {
    if rest != "" && rest[|rest| - 1] != '-' {
      var front, last := rest[..|rest| - 1], rest[|rest| - 1];
      assert rest == front + [last];
      LastDashSplits(front);
      if '-' in rest {
        var (up, rev) := RSplit(front);
        assert '-' in front;
        assert up + "-" + rev + [last] == up + "-" + (rev + [last]);
      }
    } else if rest != "" {
      assert rest == rest[..|rest| - 1] + "-" + "";
    }
  }

  /** Dotted numbers at the start of an upstream version. */
  function DottedNumbers(s: string): (ns: seq<nat>)
    ensures DpkgOrder.StartsNumber(s) ==> ns != []
    decreases |s|
  {
    if !DpkgOrder.StartsNumber(s) then []
    else
      var rest := DpkgOrder.AfterDigits(s);
      [DpkgOrder.Value(DpkgOrder.Digits(s))]
      + if rest != "" && rest[0] == '.' then DottedNumbers(rest[1..]) else []
  }

  predicate AptOk(rest: string)
  {
    var (up, rev) := RSplit(rest);
    DpkgOrder.StartsNumber(up) && rev != ""
  }

  /** A release, or the identifiers of a prerelease. */
  function PreTail(pre: Option<string>): seq<Key>
  {
    match pre case None => [Num(1)] case Some(text) => [Num(0)] + Ids(PreIds(text), 1, 0)
  }

  function KeyOf(p: Parts): Key
    requires p.PepParts? ==> p.nums != []
  {
    match p
    case SemverParts(nums, pre) =>
      Tup([Tup(Nums(Pad(nums, 3))), Tup(PreTail(pre))])
    case K8sParts(nums, stage, _, build) =>
      Tup([Tup(Nums(nums)),
           Tup(match stage case None => [Num(1), Num(0), Num(0)] case Some((k, n)) => [Num(0), Num(k), Num(n)]),
           Num(build)])
    case LlamaBuild(n) => Tup([Num(n)])
    case LlamaRelease(nums) => Tup([Tup(Nums(nums)), Tup([Num(1)])])
    case CalverParts(nums) => Tup([Tup(Nums(Pad(nums, 3)))])
    case PepParts(_, _, _, _, _, _) => Tup(PepPublic(p) + [PepLabel(p)])
    case DockerParts(_, nums, _, _) => Tup([Tup(Nums(Pad(nums, 8)))])
    case EatParts(nums, hotfix) => Tup([Tup(Nums(nums)), Num(if hotfix then 1 else 0)])
    case AptParts(epoch, rest) => Tup([Num(epoch), Deb(RSplit(rest).0), Deb(RSplit(rest).1)])
    case HfParts => Tup([])
  }

  function ReleaseOf(p: Parts): seq<nat>
  {
    match p
    case LlamaBuild(n) => [n]
    case AptParts(_, rest) => Pad(DottedNumbers(RSplit(rest).0), 3)
    case HfParts => []
    case SemverParts(nums, _) => Pad(nums, 3)
    case K8sParts(nums, _, _, _) => Pad(nums, 3)
    case LlamaRelease(nums) => Pad(nums, 3)
    case CalverParts(nums) => Pad(nums, 3)
    case PepParts(_, nums, _, _, _, _) => Pad(nums, 3)
    case DockerParts(_, nums, _, _) => Pad(nums, 3)
    case EatParts(nums, _) => Pad(nums, 3)
  }

  /** Versions of different flavours do not compare. */
  function FlavourOf(p: Parts): seq<string>
  {
    match p
    case K8sParts(_, _, distro, _) => [distro]
    case LlamaBuild(_) => ["build"]
    case LlamaRelease(_) => ["release"]
    case DockerParts(prefix, _, suffix, _) => [prefix, suffix]
    case _ => [""]
  }

  predicate PreOf(p: Parts)
  {
    match p
    case SemverParts(_, pre) => pre.Some?
    case K8sParts(_, stage, _, _) => stage.Some?
    case PepParts(_, _, stage, _, dev, _) => stage.Some? || dev.Some?
    case DockerParts(_, _, _, pre) => pre
    case AptParts(_, rest) => '~' in RSplit(rest).0
    case _ => false
  }

  /** parse, from what the regular expression captured. */
  function Parse(scheme: Scheme, raw: string, p: Parts): Option<Version>
    requires PartsOk(scheme, p)
  {
    if (p.AptParts? && !AptOk(p.rest)) || (p.SemverParts? && p.pre.Some? && !Accepts(p.pre.value)) then None
    else Some(Version(raw, FlavourOf(p), KeyOf(p), ReleaseOf(p), PreOf(p), p.PepParts? && p.localIds.Some?))
  }

  // ---- compare ---------------------------------------------------------------------------------------------

  predicate Comparable(scheme: Scheme, a: Version, b: Version) { !scheme.HfSha? && a.flavour == b.flavour }

  function Compare(scheme: Scheme, a: Version, b: Version): Result<int>
  {
    if Comparable(scheme, a, b) then Ok(Cmp(a.key, b.key)) else ValueError
  }

  /** Tuples whose entries agree in type, as far as both go, compare without a type error. */
  lemma {:induction false} EntriesTyped(x: seq<Key>, y: seq<Key>)
    requires forall i :: 0 <= i < |x| && i < |y| ==> Typed(x[i], y[i])
    ensures TypedAll(x, y)
  {
    if x != [] && y != [] { EntriesTyped(x[1..], y[1..]); }
  }

  lemma IdTyped(x: Ident, y: Ident, text: nat, number: nat)
    ensures Typed(IdKey(x, text, number), IdKey(y, text, number))
  {
    EntriesTyped(IdKey(x, text, number).ks, IdKey(y, text, number).ks);
  }

  lemma IdsTyped(x: seq<Ident>, y: seq<Ident>, text: nat, number: nat)
    ensures TypedAll(Ids(x, text, number), Ids(y, text, number))
  {
    forall i | 0 <= i < |x| && i < |y| ensures Typed(Ids(x, text, number)[i], Ids(y, text, number)[i]) {
      IdTyped(x[i], y[i], text, number);
    }
    EntriesTyped(Ids(x, text, number), Ids(y, text, number));
  }

  lemma NumThenTyped(m: nat, x: seq<Key>, n: nat, y: seq<Key>)
    requires TypedAll(x, y)
    ensures TypedAll([Num(m)] + x, [Num(n)] + y)
  {
    assert ([Num(m)] + x)[1..] == x && ([Num(n)] + y)[1..] == y;
  }

  lemma PreTailTyped(p: Option<string>, q: Option<string>)
    ensures TypedAll(PreTail(p), PreTail(q))
  {
    var x := if p.Some? then Ids(PreIds(p.value), 1, 0) else [];
    var y := if q.Some? then Ids(PreIds(q.value), 1, 0) else [];
    if p.Some? && q.Some? { IdsTyped(PreIds(p.value), PreIds(q.value), 1, 0); }
    assert PreTail(p) == [Num(if p.Some? then 0 else 1)] + x && PreTail(q) == [Num(if q.Some? then 0 else 1)] + y;
    NumThenTyped(if p.Some? then 0 else 1, x, if q.Some? then 0 else 1, y);
  }

  lemma SemverKeysTyped(x: Parts, y: Parts)
    requires x.SemverParts? && y.SemverParts?
    ensures Typed(KeyOf(x), KeyOf(y))
  {
    var a, b := KeyOf(x).ks, KeyOf(y).ks;
    EntriesTyped(a[0].ks, b[0].ks);
    PreTailTyped(x.pre, y.pre);
    EntriesTyped(a, b);
  }

  /** Tuples of numbers, however long. */
  lemma AllNumsTyped(x: seq<Key>, y: seq<Key>)
    requires (forall k <- x :: k.Num?) && (forall k <- y :: k.Num?)
    ensures TypedAll(x, y) && Typed(Tup(x), Tup(y))
  {
    EntriesTyped(x, y);
  }

  lemma PepReleaseTyped(x: Parts, y: Parts)
    requires x.PepParts? && y.PepParts? && x.nums != [] && y.nums != []
    ensures Typed(Tup(Nums(TrimZeros(x.nums))), Tup(Nums(TrimZeros(y.nums))))
  {
    AllNumsTyped(Nums(TrimZeros(x.nums)), Nums(TrimZeros(y.nums)));
  }

  lemma PepLabelTyped(x: Parts, y: Parts)
    requires x.PepParts? && y.PepParts?
    ensures Typed(PepLabel(x), PepLabel(y))
  {
    if x.localIds.Some? && y.localIds.Some? { IdsTyped(x.localIds.value, y.localIds.value, 0, 1); }
    EntriesTyped(PepLabel(x).ks, PepLabel(y).ks);
  }

  lemma PepPhasesTyped(x: Parts, y: Parts, i: nat)
    requires x.PepParts? && y.PepParts? && x.nums != [] && y.nums != [] && 2 <= i < 5
    ensures Typed(PepPublic(x)[i], PepPublic(y)[i])
  {
    AllNumsTyped(PepPublic(x)[i].ks, PepPublic(y)[i].ks);
  }

  lemma PepKeysTyped(x: Parts, y: Parts)
    requires x.PepParts? && y.PepParts? && x.nums != [] && y.nums != []
    ensures Typed(KeyOf(x), KeyOf(y))
  {
    var a, b := PepPublic(x) + [PepLabel(x)], PepPublic(y) + [PepLabel(y)];
    PepReleaseTyped(x, y);
    PepLabelTyped(x, y);
    forall i | 0 <= i < |a| && i < |b| ensures Typed(a[i], b[i]) {
      if 2 <= i < 5 { PepPhasesTyped(x, y, i); }
    }
    EntriesTyped(a, b);
  }

  lemma K8sKeysTyped(x: Parts, y: Parts)
    requires x.K8sParts? && y.K8sParts?
    ensures Typed(KeyOf(x), KeyOf(y))
  {
    var a, b := KeyOf(x).ks, KeyOf(y).ks;
    AllNumsTyped(a[0].ks, b[0].ks);
    AllNumsTyped(a[1].ks, b[1].ks);
    EntriesTyped(a, b);
  }

  lemma LlamaKeysTyped(x: Parts, y: Parts)
    requires PartsOk(Llama, x) && PartsOk(Llama, y) && FlavourOf(x) == FlavourOf(y)
    ensures Typed(KeyOf(x), KeyOf(y))
  {
    var a, b := KeyOf(x).ks, KeyOf(y).ks;
    assert FlavourOf(x)[0] == FlavourOf(y)[0];
    if x.LlamaRelease? {
      AllNumsTyped(a[0].ks, b[0].ks);
      AllNumsTyped(a[1].ks, b[1].ks);
    }
    EntriesTyped(a, b);
  }

  /** Keys of one entry of numbers, and eat's with its hotfix flag. */
  lemma CoreKeysTyped(x: Parts, y: Parts)
    requires (x.CalverParts? && y.CalverParts?) || (x.DockerParts? && y.DockerParts?) || (x.EatParts? && y.EatParts?)
    ensures Typed(KeyOf(x), KeyOf(y))
  {
    var a, b := KeyOf(x).ks, KeyOf(y).ks;
    AllNumsTyped(a[0].ks, b[0].ks);
    EntriesTyped(a, b);
  }

  /** Keys of one scheme and flavour, and docker-suffix keys of any two, never raise TypeError. */
  lemma KeysTyped(scheme: Scheme, x: Parts, y: Parts)
    requires PartsOk(scheme, x) && PartsOk(scheme, y)
    requires scheme.DockerSuffix? || FlavourOf(x) == FlavourOf(y)
    ensures Typed(KeyOf(x), KeyOf(y))
  {
    match scheme {
      case Semver => SemverKeysTyped(x, y);
      case Zerover => SemverKeysTyped(x, y);
      case Pep440 => PepKeysTyped(x, y);
      case K8s => K8sKeysTyped(x, y);
      case Llama => LlamaKeysTyped(x, y);
      case Calver => CoreKeysTyped(x, y);
      case DockerSuffix => CoreKeysTyped(x, y);
      case Eat => CoreKeysTyped(x, y);
      case Apt => EntriesTyped(KeyOf(x).ks, KeyOf(y).ks);
      case HfSha =>
    }
  }

  lemma LabelsDiffer(k: Key)
    ensures Cmp(NoLabel, Tup([Num(1), k])) == -1 && Cmp(Tup([Num(1), k]), NoLabel) == 1
  {
    CmpAllCons(Num(0), [], Num(1), [k]);
    assert [Num(0)] == [Num(0)] + [] && [Num(1), k] == [Num(1)] + [k];
    CmpFlip(NoLabel, Tup([Num(1), k]));
  }

  /** Two versions compare exactly when their flavours agree and the scheme has an order; swapping
      them flips the sign, equal to itself, and a chain goes up, strictly where one step does. */
  lemma CompareIsPreorder(scheme: Scheme, a: Version, b: Version, c: Version)
    requires Comparable(scheme, a, b) && Comparable(scheme, b, c)
    ensures Compare(scheme, a, a) == Ok(0)
    ensures Compare(scheme, b, a) == Ok(-Compare(scheme, a, b).value)
    ensures Compare(scheme, a, b).value <= 0 && Compare(scheme, b, c).value <= 0
            ==> Compare(scheme, a, c).Ok? && Compare(scheme, a, c).value <= 0
                && (Compare(scheme, a, c).value == 0
                    <==> Compare(scheme, a, b).value == 0 && Compare(scheme, b, c).value == 0)
  {
    CmpRefl(a.key);
    CmpFlip(a.key, b.key);
    if Cmp(a.key, b.key) <= 0 && Cmp(b.key, c.key) <= 0 { CmpTrans(a.key, b.key, c.key); }
  }

  /** The zero-trimmed releases of pep440 keys compare as the releases padded with zeros. */
  lemma PepReleaseOrder(x: seq<nat>, y: seq<nat>, n: nat)
    requires x != [] && y != [] && n >= |x| && n >= |y|
    ensures Cmp(Tup(Nums(TrimZeros(x))), Tup(Nums(TrimZeros(y)))) == Cmp(Tup(Nums(Pad(x, n))), Tup(Nums(Pad(y, n))))
  {
    TrimmedOrder(TrimZeros(x), TrimZeros(y));
    SameLength(Pad(x, n), Pad(y, n));
    TrimAt(x);
    TrimAt(y);
    assert forall i: nat :: At(Pad(x, n), i) == At(x, i) && At(Pad(y, n), i) == At(y, i);
    ZerosAtEnd(TrimZeros(x), TrimZeros(y), Pad(x, n), Pad(y, n));
  }

  lemma TrimAt(x: seq<nat>)
    requires x != []
    ensures forall i: nat :: At(TrimZeros(x), i) == At(x, i)
  {
  }
}
