/** hack/pinver.py: update types and breaking changes, and what splitting a bump does to them. */
module VersionRules {
  import opened Wrappers
  import opened Keys
  import opened Versions
  import DpkgOrder

  // ---- update types -----------------------------------------------------------------------------------

  datatype UpdateKind = Digest | Patch | Minor | Major

  function Level(t: UpdateKind): nat
  {
    match t case Digest => 0 case Patch => 1 case Minor => 2 case Major => 3
  }

  function Worse(a: UpdateKind, b: UpdateKind): UpdateKind { if Level(a) >= Level(b) then a else b }

  function UpdateType(scheme: Scheme, from: Version, to: Version): Result<UpdateKind>
  {
    if scheme.HfSha? then Ok(Digest)
    else
      match Compare(scheme, from, to)
      case ValueError => ValueError
      case Ok(c) =>
        if c == 0 then Ok(Digest)
        else if scheme.Llama? && from.flavour == ["build"] then Ok(Minor)
        else if Pad(from.release, 3)[0] != Pad(to.release, 3)[0] then Ok(Major)
        else if Pad(from.release, 3)[1] != Pad(to.release, 3)[1] then Ok(Minor)
        else Ok(Patch)
  }

  /** A minor of a 0.x release is breaking in these schemes. */
  predicate ZeroRule(scheme: Scheme, from: Version)
  {
    (scheme.Zerover? || (scheme.Llama? && from.flavour == ["release"])) && At(from.release, 0) == 0
  }

  function Breaking(scheme: Scheme, from: Version, to: Version): Result<bool>
  {
    match UpdateType(scheme, from, to)
    case ValueError => ValueError
    case Ok(t) => Ok(t.Major? || (t.Minor? && (scheme.K8s? || ZeroRule(scheme, from))))
  }

  // ---- splitting a bump --------------------------------------------------------------------------------

  /** Three versions of one flavour, in order. */
  ghost predicate Chain(scheme: Scheme, a: Version, b: Version, c: Version)
  {
    Comparable(scheme, a, b) && Comparable(scheme, b, c) && Cmp(a.key, b.key) <= 0 && Cmp(b.key, c.key) <= 0
  }

  predicate IsBuild(scheme: Scheme, v: Version) { scheme.Llama? && v.flavour == ["build"] }

  /** The major number leaves and comes back, or, with the major the same all along, the minor. */
  predicate ComesBack(a: Version, b: Version, c: Version)
  {
    At(a.release, 0) == At(c.release, 0)
    && (At(b.release, 0) != At(a.release, 0)
        || (At(b.release, 1) != At(a.release, 1) && At(c.release, 1) == At(a.release, 1)))
  }

  /** The two numbers that count are the same for equal versions. */
  predicate EqualMeansSame(a: Version, b: Version)
  {
    Cmp(a.key, b.key) == 0 ==> At(a.release, 0) == At(b.release, 0) && At(a.release, 1) == At(b.release, 1)
  }

  lemma SplitLawFromSame(scheme: Scheme, a: Version, b: Version, c: Version)
    requires Chain(scheme, a, b, c) && EqualMeansSame(a, b) && EqualMeansSame(b, c)
    requires !IsBuild(scheme, a)
    ensures UpdateType(scheme, a, b).Ok? && UpdateType(scheme, b, c).Ok? && UpdateType(scheme, a, c).Ok?
    ensures UpdateType(scheme, a, c).value == Worse(UpdateType(scheme, a, b).value, UpdateType(scheme, b, c).value)
            <==> !ComesBack(a, b, c)
  {
    CmpTrans(a.key, b.key, c.key);
  }

  /** Build numbers have one type of change. */
  lemma BuildSplitLaw(a: Version, b: Version, c: Version)
    requires Chain(Llama, a, b, c) && IsBuild(Llama, a)
    ensures UpdateType(Llama, a, b).Ok? && UpdateType(Llama, b, c).Ok? && UpdateType(Llama, a, c).Ok?
    ensures UpdateType(Llama, a, c).value == Worse(UpdateType(Llama, a, b).value, UpdateType(Llama, b, c).value)
  {
    CmpTrans(a.key, b.key, c.key);
  }

  /** Where release numbers follow the order, none comes back. */
  lemma NoneComesBack(a: Version, b: Version, c: Version)
    requires HeadLe(a.release, b.release) && HeadLe(b.release, c.release)
    ensures !ComesBack(a, b, c)
  {
  }

  /** The schemes whose release numbers follow the order of versions; pep440's do in one epoch. */
  predicate Ordered(scheme: Scheme, x: Parts, y: Parts)
  {
    !scheme.Apt? && !scheme.HfSha? && (x.PepParts? && y.PepParts? ==> x.epoch == y.epoch)
  }

  lemma FirstEntry(a: Key, b: Key)
    requires a.Tup? && b.Tup? && a.ks != [] && b.ks != [] && Cmp(a, b) <= 0
    ensures Cmp(a.ks[0], b.ks[0]) <= 0
  {
  }

  lemma SecondEntry(a: Key, b: Key)
    requires a.Tup? && b.Tup? && |a.ks| >= 2 && |b.ks| >= 2 && a.ks[0] == b.ks[0] && Cmp(a, b) <= 0
    ensures Cmp(a.ks[1], b.ks[1]) <= 0
  {
    CmpRefl(a.ks[0]);
    assert CmpAll(a.ks, b.ks) == CmpAll(a.ks[1..], b.ks[1..]);
  }

  lemma FirstTwo(x: seq<Key>, y: seq<Key>)
    requires |x| >= 2 && |y| >= 2 && CmpAll(x, y) <= 0
    ensures Cmp(x[0], y[0]) < 0 || (Cmp(x[0], y[0]) == 0 && Cmp(x[1], y[1]) <= 0)
  {
    assert x[1..][0] == x[1] && y[1..][0] == y[1];
  }

  /** Longer dotted cores too: the first two numbers decide first. */
  lemma LongHead(x: seq<nat>, y: seq<nat>)
    requires |x| >= 2 && |y| >= 2 && Cmp(Tup(Nums(x)), Tup(Nums(y))) <= 0
    ensures HeadLe(x, y)
  {
    FirstTwo(Nums(x), Nums(y));
  }

  lemma PaddedHead(x: seq<nat>, y: seq<nat>, n: nat)
    requires n >= 2 && Cmp(Tup(Nums(Pad(x, n))), Tup(Nums(Pad(y, n)))) <= 0
    ensures HeadLe(Pad(x, 3), Pad(y, 3))
  {
    LongHead(Pad(x, n), Pad(y, n));
  }

  lemma PepFollows(x: Parts, y: Parts)
    requires x.PepParts? && y.PepParts? && x.nums != [] && y.nums != [] && x.epoch == y.epoch
    requires Cmp(KeyOf(x), KeyOf(y)) <= 0
    ensures HeadLe(Pad(x.nums, 3), Pad(y.nums, 3))
  {
    SecondEntry(KeyOf(x), KeyOf(y));
    var n := |x.nums| + |y.nums|;
    PepReleaseOrder(x.nums, y.nums, n);
    PaddedHead(x.nums, y.nums, n);
  }

  lemma LlamaFollows(x: Parts, y: Parts)
    requires PartsOk(Llama, x) && PartsOk(Llama, y) && FlavourOf(x) == FlavourOf(y)
    requires Cmp(KeyOf(x), KeyOf(y)) <= 0
    ensures HeadLe(ReleaseOf(x), ReleaseOf(y))
  {
    assert FlavourOf(x)[0] == FlavourOf(y)[0];
    FirstEntry(KeyOf(x), KeyOf(y));
    if x.LlamaRelease? { LongHead(x.nums, y.nums); }
  }

  /** A version that sorts no later has release numbers that are no higher. */
  lemma ReleaseFollowsOrder(scheme: Scheme, x: Parts, y: Parts)
    requires PartsOk(scheme, x) && PartsOk(scheme, y) && FlavourOf(x) == FlavourOf(y) && Ordered(scheme, x, y)
    requires Cmp(KeyOf(x), KeyOf(y)) <= 0
    ensures HeadLe(ReleaseOf(x), ReleaseOf(y))
  {
    match scheme {
      case Pep440 => PepFollows(x, y);
      case Llama => LlamaFollows(x, y);
      case DockerSuffix => FirstEntry(KeyOf(x), KeyOf(y)); PaddedHead(x.nums, y.nums, 8);
      case K8s => FirstEntry(KeyOf(x), KeyOf(y)); LongHead(x.nums, y.nums);
      case Eat => FirstEntry(KeyOf(x), KeyOf(y)); LongHead(x.nums, y.nums);
      case Semver => FirstEntry(KeyOf(x), KeyOf(y)); PaddedHead(x.nums, y.nums, 3);
      case Zerover => FirstEntry(KeyOf(x), KeyOf(y)); PaddedHead(x.nums, y.nums, 3);
      case Calver => FirstEntry(KeyOf(x), KeyOf(y)); PaddedHead(x.nums, y.nums, 3);
      case _ =>
    }
  }

  /** v is the version of parts p. */
  ghost predicate Of(scheme: Scheme, v: Version, p: Parts)
  {
    PartsOk(scheme, p) && Parse(scheme, v.raw, p) == Some(v)
  }

  lemma SameNumbers(scheme: Scheme, a: Version, b: Version, x: Parts, y: Parts)
    requires Of(scheme, a, x) && Of(scheme, b, y) && a.flavour == b.flavour && Ordered(scheme, x, y)
    requires Cmp(a.key, b.key) <= 0
    ensures HeadLe(a.release, b.release) && EqualMeansSame(a, b)
  {
    ReleaseFollowsOrder(scheme, x, y);
    CmpFlip(a.key, b.key);
    if Cmp(a.key, b.key) == 0 { ReleaseFollowsOrder(scheme, y, x); }
  }

  /** The major number leaves and comes back. */
  predicate MajorComesBack(a: Version, b: Version, c: Version)
  {
    At(a.release, 0) == At(c.release, 0) && At(b.release, 0) != At(a.release, 0)
  }

  /** Whether a bump breaks, from its type and the numbers that count. */
  lemma BreakingReads(scheme: Scheme, a: Version, b: Version)
    requires Comparable(scheme, a, b) && EqualMeansSame(a, b) && !IsBuild(scheme, a)
    ensures Breaking(scheme, a, b) ==
            Ok(At(a.release, 0) != At(b.release, 0)
               || (At(a.release, 1) != At(b.release, 1) && (scheme.K8s? || ZeroRule(scheme, a))))
  {
  }

  /** With release numbers that follow the order, the zero rule reads the same major all along. */
  lemma BreakingFromHeads(scheme: Scheme, a: Version, b: Version, c: Version)
    requires Chain(scheme, a, b, c) && EqualMeansSame(a, b) && EqualMeansSame(b, c) && !IsBuild(scheme, a)
    requires HeadLe(a.release, b.release) && HeadLe(b.release, c.release)
    ensures Breaking(scheme, a, b).Ok? && Breaking(scheme, b, c).Ok? && Breaking(scheme, a, c).Ok?
    ensures Breaking(scheme, a, c).value <==> Breaking(scheme, a, b).value || Breaking(scheme, b, c).value
  {
    CmpTrans(a.key, b.key, c.key);
    BreakingReads(scheme, a, b);
    BreakingReads(scheme, b, c);
    BreakingReads(scheme, a, c);
  }

  lemma BuildsNeverBreak(a: Version, b: Version)
    requires Comparable(Llama, a, b) && IsBuild(Llama, a)
    ensures Breaking(Llama, a, b) == Ok(false)
  {
    assert ["build"][0] != ["release"][0];
  }

  /** ... nor a breaking change: the whole breaks exactly when one of the steps does. */
  lemma BreakingSplits(scheme: Scheme, a: Version, b: Version, c: Version, x: Parts, y: Parts, z: Parts)
    requires Of(scheme, a, x) && Of(scheme, b, y) && Of(scheme, c, z) && Chain(scheme, a, b, c)
    requires Ordered(scheme, x, y) && Ordered(scheme, y, z)
    ensures Breaking(scheme, a, b).Ok? && Breaking(scheme, b, c).Ok? && Breaking(scheme, a, c).Ok?
    ensures Breaking(scheme, a, c).value <==> Breaking(scheme, a, b).value || Breaking(scheme, b, c).value
  {
    if IsBuild(scheme, a) {
      BuildsNeverBreak(a, b);
      BuildsNeverBreak(b, c);
      BuildsNeverBreak(a, c);
    } else {
      SameNumbers(scheme, a, b, x, y);
      SameNumbers(scheme, b, c, y, z);
      BreakingFromHeads(scheme, a, b, c);
    }
  }

  /** Across pep440 epochs both laws fail: 1.0 < 1!2.0 < 2!1.0 is a patch of two majors, and does
      not break though each step does. */
  lemma EpochsHideMajors()
    ensures var a := PepParts(0, [1, 0], None, None, None, None);
            var b := PepParts(1, [2, 0], None, None, None, None);
            var c := PepParts(2, [1, 0], None, None, None, None);
            var (u, v, w) := (Parse(Pep440, "1.0", a).value, Parse(Pep440, "1!2.0", b).value,
                              Parse(Pep440, "2!1.0", c).value);
            Chain(Pep440, u, v, w) && ComesBack(u, v, w)
            && UpdateType(Pep440, u, v) == Ok(Major) && UpdateType(Pep440, v, w) == Ok(Major)
            && UpdateType(Pep440, u, w) == Ok(Patch)
            && Breaking(Pep440, u, v) == Ok(true) && Breaking(Pep440, v, w) == Ok(true)
            && Breaking(Pep440, u, w) == Ok(false)
  {
  }

  // ---- exactly when the laws hold, epochs and apt included ---------------------------------------

  lemma PepEqualMeansSame(a: Version, b: Version, x: Parts, y: Parts)
    requires Of(Pep440, a, x) && Of(Pep440, b, y)
    ensures EqualMeansSame(a, b)
  {
    if Cmp(a.key, b.key) == 0 {
      CmpFlip(a.key, b.key);
      FirstEntry(a.key, b.key);
      FirstEntry(b.key, a.key);
      SameNumbers(Pep440, a, b, x, y);
    }
  }

  /** The token that holds the second dotted number: the one after a run of a single dot. */
  function SecondToken(s: string): DpkgOrder.Token
  {
    DpkgOrder.HeadOr(DpkgOrder.Tail(DpkgOrder.Tokens(s)), DpkgOrder.End)
  }

  function AfterDot(t: DpkgOrder.Token): nat { if t.run == [DpkgOrder.Order('.')] then t.num else 0 }

  lemma RunOfDot(r: string)
    requires DpkgOrder.StartsRun(r)
    ensures DpkgOrder.Run(r) == [DpkgOrder.Order('.')] <==> r[0] == '.' && !DpkgOrder.StartsRun(r[1..])
  {
    assert DpkgOrder.Run(r)[0] == DpkgOrder.Order(r[0]);
    if !DpkgOrder.StartsRun(r[1..]) { assert DpkgOrder.Run(r) == [DpkgOrder.Order(r[0])]; }
    else { assert DpkgOrder.Run(r)[1] == DpkgOrder.Run(r[1..])[0]; }
  }

  lemma DottedIsTokens(s: string)
    requires DpkgOrder.StartsNumber(s)
    ensures At(DottedNumbers(s), 0) == DpkgOrder.Head(s).num && DpkgOrder.Head(s).run == []
    ensures At(DottedNumbers(s), 1) == AfterDot(SecondToken(s))
  {
    var r := DpkgOrder.Rest(s);
    assert DpkgOrder.AfterRun(s) == s && r == DpkgOrder.AfterDigits(s);
    DpkgOrder.TokensParts(s);
    DpkgOrder.TokensParts(r);
    assert SecondToken(s) == DpkgOrder.Head(r);
    if DpkgOrder.StartsRun(r) {
      RunOfDot(r);
      assert DpkgOrder.AfterRun(r) == DpkgOrder.AfterRun(r[1..]);
    }
  }

  /** Equal dpkg versions have the same first two numbers, however they are spelled. */
  lemma EqualUpstreams(s: string, t: string)
    requires DpkgOrder.StartsNumber(s) && DpkgOrder.StartsNumber(t) && DpkgOrder.Compare(s, t) == 0
    ensures At(DottedNumbers(s), 0) == At(DottedNumbers(t), 0)
    ensures At(DottedNumbers(s), 1) == At(DottedNumbers(t), 1)
  {
    DottedIsTokens(s);
    DottedIsTokens(t);
    DpkgOrder.TokensParts(s);
    DpkgOrder.TokensParts(t);
    DpkgOrder.CmpTokensUnfold(DpkgOrder.Tokens(s), DpkgOrder.Tokens(t));
    var u, v := DpkgOrder.Tail(DpkgOrder.Tokens(s)), DpkgOrder.Tail(DpkgOrder.Tokens(t));
    DpkgOrder.CmpTokensUnfold(u, v);
    DpkgOrder.TokensSane(DpkgOrder.Rest(s));
    DpkgOrder.TokensSane(DpkgOrder.Rest(t));
    DpkgOrder.CmpTokenZero(DpkgOrder.HeadOr(u, DpkgOrder.End), DpkgOrder.HeadOr(v, DpkgOrder.End));
  }

  lemma EqualEntries(x: seq<Key>, y: seq<Key>)
    requires |x| >= 2 && |y| >= 2 && CmpAll(x, y) == 0
    ensures Cmp(x[0], y[0]) == 0 && Cmp(x[1], y[1]) == 0
  {
    assert x[1..][0] == x[1] && y[1..][0] == y[1];
  }

  lemma AptKeysEqual(x: Parts, y: Parts)
    requires x.AptParts? && y.AptParts? && Cmp(KeyOf(x), KeyOf(y)) == 0
    ensures DpkgOrder.Compare(RSplit(x.rest).0, RSplit(y.rest).0) == 0
  {
    EqualEntries(KeyOf(x).ks, KeyOf(y).ks);
  }

  lemma PadKeeps(x: seq<nat>)
    ensures At(Pad(x, 3), 0) == At(x, 0) && At(Pad(x, 3), 1) == At(x, 1)
  {
  }

  lemma AptEqualMeansSame(a: Version, b: Version, x: Parts, y: Parts)
    requires Of(Apt, a, x) && Of(Apt, b, y)
    ensures EqualMeansSame(a, b)
  {
    if Cmp(a.key, b.key) == 0 {
      var s, t := RSplit(x.rest).0, RSplit(y.rest).0;
      AptKeysEqual(x, y);
      EqualUpstreams(s, t);
      PadKeeps(DottedNumbers(s));
      PadKeeps(DottedNumbers(t));
    }
  }

  lemma AnyEqualMeansSame(scheme: Scheme, a: Version, b: Version, x: Parts, y: Parts)
    requires Of(scheme, a, x) && Of(scheme, b, y) && Comparable(scheme, a, b)
    ensures EqualMeansSame(a, b)
  {
    match scheme {
      case Pep440 => PepEqualMeansSame(a, b, x, y);
      case Apt => AptEqualMeansSame(a, b, x, y);
      case _ => if Cmp(a.key, b.key) == 0 { SameNumbers(scheme, a, b, x, y); }
    }
  }

  /** For any versions of any scheme in order, splitting a bump keeps its type exactly when they are
      llama builds or no release number leaves and comes back. */
  lemma SplitLawIff(scheme: Scheme, a: Version, b: Version, c: Version, x: Parts, y: Parts, z: Parts)
    requires Of(scheme, a, x) && Of(scheme, b, y) && Of(scheme, c, z) && Chain(scheme, a, b, c)
    ensures UpdateType(scheme, a, b).Ok? && UpdateType(scheme, b, c).Ok? && UpdateType(scheme, a, c).Ok?
    ensures UpdateType(scheme, a, c).value == Worse(UpdateType(scheme, a, b).value, UpdateType(scheme, b, c).value)
            <==> IsBuild(scheme, a) || !ComesBack(a, b, c)
  {
    if IsBuild(scheme, a) {
      BuildSplitLaw(a, b, c);
    } else {
      AnyEqualMeansSame(scheme, a, b, x, y);
      AnyEqualMeansSame(scheme, b, c, y, z);
      SplitLawFromSame(scheme, a, b, c);
    }
  }

  lemma BreakingFromSame(scheme: Scheme, a: Version, b: Version, c: Version)
    requires Chain(scheme, a, b, c) && EqualMeansSame(a, b) && EqualMeansSame(b, c)
    requires scheme.Pep440? || scheme.Apt?
    ensures Breaking(scheme, a, b).Ok? && Breaking(scheme, b, c).Ok? && Breaking(scheme, a, c).Ok?
    ensures (Breaking(scheme, a, c).value <==> Breaking(scheme, a, b).value || Breaking(scheme, b, c).value)
            <==> !MajorComesBack(a, b, c)
  {
    CmpTrans(a.key, b.key, c.key);
    BreakingReads(scheme, a, b);
    BreakingReads(scheme, b, c);
    BreakingReads(scheme, a, c);
  }

  /** ... and a bump breaks exactly when a step does, if and only if they are llama builds or the
      major number does not leave and come back. */
  lemma BreakingIff(scheme: Scheme, a: Version, b: Version, c: Version, x: Parts, y: Parts, z: Parts)
    requires Of(scheme, a, x) && Of(scheme, b, y) && Of(scheme, c, z) && Chain(scheme, a, b, c)
    ensures Breaking(scheme, a, b).Ok? && Breaking(scheme, b, c).Ok? && Breaking(scheme, a, c).Ok?
    ensures (Breaking(scheme, a, c).value <==> Breaking(scheme, a, b).value || Breaking(scheme, b, c).value)
            <==> IsBuild(scheme, a) || !MajorComesBack(a, b, c)
  {
    if scheme.Pep440? || scheme.Apt? {
      AnyEqualMeansSame(scheme, a, b, x, y);
      AnyEqualMeansSame(scheme, b, c, y, z);
      BreakingFromSame(scheme, a, b, c);
    } else {
      BreakingSplits(scheme, a, b, c, x, y, z);
      if !IsBuild(scheme, a) {
        SameNumbers(scheme, a, b, x, y);
        SameNumbers(scheme, b, c, y, z);
        NoneComesBack(a, b, c);
      }
    }
  }

  lemma {:induction false} NoDash(rest: string)
    requires '-' !in rest
    ensures RSplit(rest) == (rest, "0")
  {
    if rest != "" { NoDash(rest[..|rest| - 1]); }
  }

  /** "1." and then a digit, or a letter. */
  lemma OneDot(c: char)
    requires c in ['0', '5', 'a']
    ensures DpkgOrder.Head(['1', '.', c]) == DpkgOrder.Token([], 1)
    ensures DpkgOrder.Rest(['1', '.', c]) == ['.', c]
    ensures At(DottedNumbers(['1', '.', c]), 0) == 1
    ensures At(DottedNumbers(['1', '.', c]), 1) == if c == '5' then 5 else 0
  {
    var s: string := ['1', '.', c];
    assert s[1..] == ['.', c] && s[1..][1..] == [c] && [c][1..] == "";
    assert DpkgOrder.Digits(s) == ['1'] && ['1'][..0] == "";
    assert DpkgOrder.AfterDigits(s) == ['.', c];
    if c != 'a' {
      assert DpkgOrder.Digits([c]) == [c] && [c][..0] == "" && DpkgOrder.AfterDigits([c]) == "";
    }
  }

  lemma DotTokens()
    ensures DpkgOrder.Head(".0") == DpkgOrder.Token([302], 0) && DpkgOrder.Head(".5") == DpkgOrder.Token([302], 5)
    ensures DpkgOrder.Head(".a").run == [302, 97]
  {
    assert ".0"[1..] == "0" && ".5"[1..] == "5" && ".a"[1..] == "a" && "a"[1..] == "";
    assert "0"[1..] == "" && "5"[1..] == "";
    assert DpkgOrder.Digits("0") == "0" && DpkgOrder.Digits("5") == "5" && "0"[..0] == "" && "5"[..0] == "";
  }

  lemma OneDotOrder()
    ensures DpkgOrder.Compare("1.0", "1.5") == -1 && DpkgOrder.Compare("1.5", "1.a") == -1
  {
    OneDot('0');
    OneDot('5');
    OneDot('a');
    DotTokens();
    DpkgOrder.CompareUnfold("1.0", "1.5");
    DpkgOrder.CompareUnfold("1.5", "1.a");
    DpkgOrder.CompareUnfold(".0", ".5");
    DpkgOrder.CompareUnfold(".5", ".a");
    assert [302, 97][1..] == [97] && [302][1..] == [];
    assert DpkgOrder.CmpRun([302], [302, 97]) == DpkgOrder.CmpRun([], [97]) == -1;
  }

  /** An apt version without an epoch or a revision. */
  function Upstream(s: string): Version
  {
    Version(s, [""], Tup([Num(0), Deb(s), Deb("0")]), Pad(DottedNumbers(s), 3), '~' in s, false)
  }

  lemma IsUpstream(s: string)
    requires '-' !in s && DpkgOrder.StartsNumber(s)
    ensures Of(Apt, Upstream(s), AptParts(0, s))
  {
    NoDash(s);
  }

  lemma UpstreamOrder(s: string, t: string)
    ensures Cmp(Upstream(s).key, Upstream(t).key) == DpkgOrder.Compare(s, t)
  {
    var rev := Deb("0");
    CmpRefl(rev);
    CmpAllCons(rev, [], rev, []);
    assert [rev] == [rev] + [];
    CmpAllCons(Deb(s), [rev], Deb(t), [rev]);
    CmpAllCons(Num(0), [Deb(s), rev], Num(0), [Deb(t), rev]);
    assert [Deb(s), rev] == [Deb(s)] + [rev] && [Deb(t), rev] == [Deb(t)] + [rev];
    assert Upstream(s).key.ks == [Num(0)] + [Deb(s), rev] && Upstream(t).key.ks == [Num(0)] + [Deb(t), rev];
  }

  lemma OneDotVersions()
    ensures Of(Apt, Upstream("1.0"), AptParts(0, "1.0")) && Of(Apt, Upstream("1.5"), AptParts(0, "1.5"))
    ensures Of(Apt, Upstream("1.a"), AptParts(0, "1.a"))
  {
    IsUpstream("1.0");
    IsUpstream("1.5");
    IsUpstream("1.a");
  }

  lemma OneDotChain()
    ensures Chain(Apt, Upstream("1.0"), Upstream("1.5"), Upstream("1.a"))
  {
    OneDotOrder();
    UpstreamOrder("1.0", "1.5");
    UpstreamOrder("1.5", "1.a");
  }

  lemma OneDotRelease(c: char)
    requires c in ['0', '5', 'a']
    ensures At(Upstream(['1', '.', c]).release, 0) == 1
    ensures At(Upstream(['1', '.', c]).release, 1) == if c == '5' then 5 else 0
  {
    OneDot(c);
    PadKeeps(DottedNumbers(['1', '.', c]));
  }

  lemma LetterComesBack()
    ensures ComesBack(Upstream("1.0"), Upstream("1.5"), Upstream("1.a"))
  {
    OneDotRelease('0');
    OneDotRelease('5');
    OneDotRelease('a');
  }

  /** Within one epoch too, an apt upstream can hide a minor: of 1.0 < 1.5 < 1.a the last reads as
      1, so the type of the whole is not the worse of the two steps. */
  lemma LettersHideMinors()
    ensures var (a, b, c) := (Upstream("1.0"), Upstream("1.5"), Upstream("1.a"));
            Of(Apt, a, AptParts(0, "1.0")) && Of(Apt, b, AptParts(0, "1.5")) && Of(Apt, c, AptParts(0, "1.a"))
            && Chain(Apt, a, b, c)
            && UpdateType(Apt, a, b).Ok? && UpdateType(Apt, b, c).Ok? && UpdateType(Apt, a, c).Ok?
            && UpdateType(Apt, a, c).value != Worse(UpdateType(Apt, a, b).value, UpdateType(Apt, b, c).value)
  {
    OneDotVersions();
    OneDotChain();
    LetterComesBack();
    SplitLawIff(Apt, Upstream("1.0"), Upstream("1.5"), Upstream("1.a"),
                AptParts(0, "1.0"), AptParts(0, "1.5"), AptParts(0, "1.a"));
  }
}
