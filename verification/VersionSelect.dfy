/** hack/pinver.py: version ranges, and the newest stable candidate. */
module VersionSelect {
  import opened Wrappers
  import opened Keys
  import opened Versions
  import opened VersionRules

  // ---- latest -------------------------------------------------------------------------------------------

  /** A candidate that parsed, is stable, compares with cur and is above it. */
  predicate Eligible(scheme: Scheme, cur: Version, c: Option<Version>)
  {
    c.Some? && !c.value.pre && Comparable(scheme, cur, c.value) && Cmp(c.value.key, cur.key) > 0
  }

  /** The first of the first n candidates that no eligible one exceeds; None when none is eligible. */
  ghost predicate IsNewest(scheme: Scheme, cur: Version, cands: seq<Option<Version>>, n: nat, best: Option<nat>)
    requires n <= |cands|
  {
    match best
    case None => forall i :: 0 <= i < n ==> !Eligible(scheme, cur, cands[i])
    case Some(b) =>
      b < n && Eligible(scheme, cur, cands[b])
      && (forall i ::
            0 <= i < n && Eligible(scheme, cur, cands[i]) ==> Cmp(cands[i].value.key, cands[b].value.key) <= 0)
      && (forall i :: 0 <= i < b && Eligible(scheme, cur, cands[i]) ==> Cmp(cands[i].value.key, cands[b].value.key) < 0)
  }

  /** latest: a candidate that does not parse is None. The index stands for the version found. */
  method Latest(scheme: Scheme, cur: Version, cands: seq<Option<Version>>) returns (best: Option<nat>)
    ensures IsNewest(scheme, cur, cands, |cands|, best)
  {
    best := None;
    for i := 0 to |cands|
      invariant IsNewest(scheme, cur, cands, i, best)
    {
      var c := cands[i];
      if c.None? || c.value.pre || !Comparable(scheme, cur, c.value) || Cmp(c.value.key, cur.key) <= 0 {
        continue;
      }
      if best.None? {
        best := Some(i);
        CmpRefl(c.value.key);
      } else {
        var b := cands[best.value].value;
        ghost var before := best.value;
        if Cmp(c.value.key, b.key) > 0 {
          best := Some(i);
          CmpRefl(c.value.key);
          NewBest(scheme, cur, cands, i, before);
        }
      }
    }
  }

  lemma NewBest(scheme: Scheme, cur: Version, cands: seq<Option<Version>>, i: nat, b: nat)
    requires i < |cands| && IsNewest(scheme, cur, cands, i, Some(b)) && cands[i].Some?
    requires Cmp(cands[i].value.key, cands[b].value.key) > 0
    ensures forall j ::
              0 <= j < i && Eligible(scheme, cur, cands[j]) ==> Cmp(cands[j].value.key, cands[i].value.key) < 0
  {
    forall j | 0 <= j < i && Eligible(scheme, cur, cands[j]) ensures Cmp(cands[j].value.key, cands[i].value.key) < 0 {
      CmpFlip(cands[i].value.key, cands[b].value.key);
      CmpTrans(cands[j].value.key, cands[b].value.key, cands[i].value.key);
    }
  }

  /** Run again from its own result, latest finds nothing. */
  lemma LatestIsFinal(scheme: Scheme, cur: Version, cands: seq<Option<Version>>, b: nat)
    requires IsNewest(scheme, cur, cands, |cands|, Some(b))
    ensures IsNewest(scheme, cands[b].value, cands, |cands|, None)
  {
    var best := cands[b].value;
    forall i | 0 <= i < |cands| ensures !Eligible(scheme, best, cands[i]) {
      if Eligible(scheme, best, cands[i]) {
        CmpFlip(best.key, cur.key);
        CmpFlip(cands[i].value.key, best.key);
        CmpTrans(cur.key, best.key, cands[i].value.key);
        CmpFlip(cur.key, cands[i].value.key);
      }
    }
  }

  // ---- ranges -------------------------------------------------------------------------------------------

  datatype Op = Lt | Le | Gt | Ge | Eq | Ne

  function Holds(op: Op, c: int): bool
  {
    match op
    case Lt => c < 0 case Le => c <= 0 case Gt => c > 0
    case Ge => c >= 0 case Eq => c == 0 case Ne => c != 0
  }

  datatype Comparator = Comparator(op: Op, bound: Version)

  /** The key of a pep440 version without its local label. */
  function Public(k: Key): Key
    requires k.Tup? && k.ks != []
  {
    Tup(k.ks[..|k.ks| - 1] + [NoLabel])
  }

  predicate HasKey(scheme: Scheme, v: Version) { scheme.Pep440? ==> v.key.Tup? && v.key.ks != [] }

  /** _range_cmp: a hex revision only equals, as a prefix either way. */
  function RangeCmp(scheme: Scheme, v: Version, bound: Version): Result<int>
    requires HasKey(scheme, v)
  {
    if scheme.HfSha? then Ok(if v.raw <= bound.raw || bound.raw <= v.raw then 0 else 1)
    else if scheme.DockerSuffix? then Ok(Cmp(v.key, bound.key))
    else if scheme.Pep440? && v.local && !bound.local then Ok(Cmp(Public(v.key), bound.key))
    else Compare(scheme, v, bound)
  }

  /** all(...) over a clause: the first comparator that fails decides, a bound of another flavour
      raises ValueError. */
  function AllHold(scheme: Scheme, v: Version, clause: seq<Comparator>): Result<bool>
    requires HasKey(scheme, v)
  {
    if clause == [] then Ok(true)
    else
      match RangeCmp(scheme, v, clause[0].bound)
      case ValueError => ValueError
      case Ok(c) => if Holds(clause[0].op, c) then AllHold(scheme, v, clause[1..]) else Ok(false)
  }

  /** any(...) over the clauses; no clause at all stands for "*". */
  function AnyHolds(scheme: Scheme, v: Version, clauses: seq<seq<Comparator>>): Result<bool>
    requires HasKey(scheme, v)
  {
    if clauses == [] then Ok(false)
    else
      match AllHold(scheme, v, clauses[0])
      case ValueError => ValueError
      case Ok(b) => if b then Ok(true) else AnyHolds(scheme, v, clauses[1..])
  }

  function InRange(scheme: Scheme, v: Version, clauses: seq<seq<Comparator>>): Result<bool>
    requires HasKey(scheme, v)
  {
    if clauses == [] then Ok(true) else AnyHolds(scheme, v, clauses)
  }

  /** What a bound sees of v: its key, or its public key under a pep440 bound without a label. */
  function Seen(scheme: Scheme, v: Version, bound: Version): Key
    requires HasKey(scheme, v)
  {
    if scheme.Pep440? && !bound.local then Public(v.key) else v.key
  }

  /** A pep440 version without a local label is its own public version. */
  lemma SeenIsCompared(scheme: Scheme, v: Version, bound: Version, p: Parts)
    requires Of(scheme, v, p) && !scheme.HfSha?
    ensures HasKey(scheme, v)
    ensures RangeCmp(scheme, v, bound).Ok? ==> RangeCmp(scheme, v, bound) == Ok(Cmp(Seen(scheme, v, bound), bound.key))
  {
    if scheme.Pep440? && !v.local {
      assert v.key.ks == PepPublic(p) + [NoLabel];
      assert v.key.ks[..|v.key.ks| - 1] == PepPublic(p);
    }
  }

  lemma {:induction false} PublicMono(x: seq<Key>, y: seq<Key>)
    requires |x| == |y| >= 1 && CmpAll(x, y) <= 0
    ensures CmpAll(x[..|x| - 1] + [NoLabel], y[..|y| - 1] + [NoLabel]) <= 0
    ensures CmpAll(x, y) == 0 ==> CmpAll(x[..|x| - 1] + [NoLabel], y[..|y| - 1] + [NoLabel]) == 0
  {
    var u, v := x[..|x| - 1] + [NoLabel], y[..|y| - 1] + [NoLabel];
    if |x| == 1 {
      CmpRefl(NoLabel);
      assert u == [NoLabel] && v == [NoLabel];
      assert [NoLabel][1..] == [];
    } else if Cmp(x[0], y[0]) == 0 {
      PublicMono(x[1..], y[1..]);
      assert u[1..] == x[1..][..|x| - 2] + [NoLabel] && v[1..] == y[1..][..|y| - 2] + [NoLabel];
    }
  }

  lemma SeenMono(scheme: Scheme, v: Version, w: Version, bound: Version, x: Parts, y: Parts)
    requires Of(scheme, v, x) && Of(scheme, w, y) && Cmp(v.key, w.key) <= 0
    ensures HasKey(scheme, v) && HasKey(scheme, w)
    ensures Cmp(Seen(scheme, v, bound), Seen(scheme, w, bound)) <= 0
    ensures Cmp(v.key, w.key) == 0 ==> Cmp(Seen(scheme, v, bound), Seen(scheme, w, bound)) == 0
  {
    if scheme.Pep440? { PublicMono(v.key.ks, w.key.ks); }
  }

  /** Equal keys stand in the same place below and above every other. */
  lemma SamePlace(a: Key, b: Key, c: Key)
    requires Cmp(a, b) == 0
    ensures Cmp(a, c) == Cmp(b, c)
  {
    CmpFlip(a, b);
    CmpFlip(a, c);
    CmpFlip(b, c);
    if Cmp(a, c) <= 0 { CmpTrans(b, a, c); }
    if Cmp(b, c) <= 0 { CmpTrans(a, b, c); }
    if Cmp(c, a) <= 0 { CmpTrans(c, a, b); }
    if Cmp(c, b) <= 0 { CmpTrans(c, b, a); }
  }

  lemma {:induction false} LastEntriesEqual(x: seq<Key>, y: seq<Key>)
    requires |x| == |y| >= 1 && CmpAll(x, y) == 0
    ensures Cmp(x[|x| - 1], y[|y| - 1]) == 0
  {
    if |x| > 1 { LastEntriesEqual(x[1..], y[1..]); }
  }

  lemma SameLabels(x: Parts, y: Parts)
    requires x.PepParts? && y.PepParts? && Cmp(PepLabel(x), PepLabel(y)) == 0
    ensures x.localIds.Some? == y.localIds.Some?
  {
    if x.localIds.Some? { LabelsDiffer(Tup(Ids(x.localIds.value, 0, 1))); }
    if y.localIds.Some? { LabelsDiffer(Tup(Ids(y.localIds.value, 0, 1))); }
  }

  lemma LabelIsLast(v: Version, x: Parts)
    requires Of(Pep440, v, x)
    ensures x.PepParts? && v.key.Tup? && |v.key.ks| == 6 && v.key.ks[5] == PepLabel(x)
    ensures v.local == x.localIds.Some?
  {
  }

  /** Only versions that both have a local label, or both have none, are equal. */
  lemma SameLabelling(v: Version, w: Version, x: Parts, y: Parts)
    requires Of(Pep440, v, x) && Of(Pep440, w, y) && Cmp(v.key, w.key) == 0
    ensures v.local == w.local
  {
    LabelIsLast(v, x);
    LabelIsLast(w, y);
    LastEntriesEqual(v.key.ks, w.key.ks);
    SameLabels(x, y);
  }

  lemma SamePublicPlace(v: Version, w: Version, x: Parts, y: Parts, bound: Version)
    requires Of(Pep440, v, x) && Of(Pep440, w, y) && Cmp(v.key, w.key) == 0 && !bound.local
    ensures Cmp(Public(v.key), bound.key) == Cmp(Public(w.key), bound.key)
  {
    SeenMono(Pep440, v, w, bound, x, y);
    SamePlace(Public(v.key), Public(w.key), bound.key);
  }

  lemma SameRangeCmp(scheme: Scheme, v: Version, w: Version, x: Parts, y: Parts, bound: Version)
    requires Of(scheme, v, x) && Of(scheme, w, y) && !scheme.HfSha?
    requires v.flavour == w.flavour && Cmp(v.key, w.key) == 0
    ensures HasKey(scheme, v) && HasKey(scheme, w)
    ensures RangeCmp(scheme, v, bound) == RangeCmp(scheme, w, bound)
  {
    SamePlace(v.key, w.key, bound.key);
    if scheme.Pep440? {
      SameLabelling(v, w, x, y);
      if !bound.local { SamePublicPlace(v, w, x, y, bound); }
    }
  }

  lemma {:induction false} SameClause(scheme: Scheme, v: Version, w: Version, x: Parts, y: Parts,
                                      clause: seq<Comparator>)
    requires Of(scheme, v, x) && Of(scheme, w, y) && !scheme.HfSha?
    requires v.flavour == w.flavour && Cmp(v.key, w.key) == 0
    ensures HasKey(scheme, v) && HasKey(scheme, w)
    ensures AllHold(scheme, v, clause) == AllHold(scheme, w, clause)
  {
    if clause != [] {
      SameRangeCmp(scheme, v, w, x, y, clause[0].bound);
      SameClause(scheme, v, w, x, y, clause[1..]);
    }
  }

  lemma {:induction false} SameAny(scheme: Scheme, v: Version, w: Version, x: Parts, y: Parts,
                                   clauses: seq<seq<Comparator>>)
    requires Of(scheme, v, x) && Of(scheme, w, y) && !scheme.HfSha?
    requires v.flavour == w.flavour && Cmp(v.key, w.key) == 0
    ensures HasKey(scheme, v) && HasKey(scheme, w)
    ensures AnyHolds(scheme, v, clauses) == AnyHolds(scheme, w, clauses)
  {
    if clauses != [] {
      SameClause(scheme, v, w, x, y, clauses[0]);
      SameAny(scheme, v, w, x, y, clauses[1..]);
    }
  }

  /** A range reads a version only through its place in the order: equal versions of one flavour
      are in the same ranges, and raise on the same ones. */
  lemma RangeReadsTheOrder(scheme: Scheme, v: Version, w: Version, x: Parts, y: Parts, clauses: seq<seq<Comparator>>)
    requires Of(scheme, v, x) && Of(scheme, w, y) && !scheme.HfSha?
    requires v.flavour == w.flavour && Cmp(v.key, w.key) == 0
    ensures HasKey(scheme, v) && HasKey(scheme, w)
    ensures InRange(scheme, v, clauses) == InRange(scheme, w, clauses)
  {
    SameAny(scheme, v, w, x, y, clauses);
  }

  /** What a bound sees lies between what it sees of the versions around. */
  lemma BetweenBounds(op: Op, a: Key, b: Key, c: Key, bound: Key)
    requires !op.Ne? && Cmp(a, b) <= 0 && Cmp(b, c) <= 0
    requires Holds(op, Cmp(a, bound)) && Holds(op, Cmp(c, bound))
    ensures Holds(op, Cmp(b, bound))
  {
    CmpFlip(a, bound);
    CmpFlip(b, bound);
    CmpFlip(c, bound);
    if Cmp(c, bound) <= 0 { CmpTrans(b, c, bound); }
    if Cmp(bound, a) <= 0 { CmpTrans(bound, a, b); }
  }

  ghost predicate IsVersion(scheme: Scheme, v: Version) { exists p :: Of(scheme, v, p) }

  /** A comparator that v passes. */
  ghost predicate Passes(scheme: Scheme, v: Version, k: Comparator)
    requires HasKey(scheme, v)
  {
    RangeCmp(scheme, v, k.bound).Ok? && Holds(k.op, RangeCmp(scheme, v, k.bound).value)
  }

  lemma PassesBetween(scheme: Scheme, u: Version, v: Version, w: Version, x: Parts, y: Parts, z: Parts, k: Comparator)
    requires Of(scheme, u, x) && Of(scheme, v, y) && Of(scheme, w, z) && !scheme.HfSha? && !k.op.Ne?
    requires u.flavour == v.flavour == w.flavour && Cmp(u.key, v.key) <= 0 && Cmp(v.key, w.key) <= 0
    requires IsVersion(scheme, k.bound)
    ensures HasKey(scheme, u) && HasKey(scheme, v) && HasKey(scheme, w)
    ensures Passes(scheme, u, k) && Passes(scheme, w, k) ==> Passes(scheme, v, k)
  {
    SeenIsCompared(scheme, u, k.bound, x);
    SeenIsCompared(scheme, v, k.bound, y);
    SeenIsCompared(scheme, w, k.bound, z);
    SeenMono(scheme, u, v, k.bound, x, y);
    SeenMono(scheme, v, w, k.bound, y, z);
    if Passes(scheme, u, k) && Passes(scheme, w, k) {
      BetweenBounds(k.op, Seen(scheme, u, k.bound), Seen(scheme, v, k.bound), Seen(scheme, w, k.bound), k.bound.key);
      var p :| Of(scheme, k.bound, p);
    }
  }

  /** A clause holds exactly when every comparator passes. */
  lemma {:induction false} AllHoldIff(scheme: Scheme, v: Version, clause: seq<Comparator>)
    requires HasKey(scheme, v)
    ensures AllHold(scheme, v, clause) == Ok(true) <==> forall i :: 0 <= i < |clause| ==> Passes(scheme, v, clause[i])
  {
    if clause != [] {
      AllHoldIff(scheme, v, clause[1..]);
      assert forall i :: 0 <= i < |clause[1..]| ==> clause[1..][i] == clause[i + 1];
      assert forall i :: 1 <= i < |clause| ==> clause[i] == clause[1..][i - 1];
    }
  }

  /** A clause without != is convex, also where pep440 bounds do not see local labels and
      docker-suffix bounds see only the core. */
  lemma ClauseIsConvex(scheme: Scheme, u: Version, v: Version, w: Version,
                       x: Parts, y: Parts, z: Parts, clause: seq<Comparator>)
    requires Of(scheme, u, x) && Of(scheme, v, y) && Of(scheme, w, z) && !scheme.HfSha?
    requires u.flavour == v.flavour == w.flavour && Cmp(u.key, v.key) <= 0 && Cmp(v.key, w.key) <= 0
    requires forall i :: 0 <= i < |clause| ==> !clause[i].op.Ne? && IsVersion(scheme, clause[i].bound)
    ensures HasKey(scheme, u) && HasKey(scheme, v) && HasKey(scheme, w)
    ensures AllHold(scheme, u, clause) == Ok(true) && AllHold(scheme, w, clause) == Ok(true)
            ==> AllHold(scheme, v, clause) == Ok(true)
  {
    SeenMono(scheme, u, v, u, x, y);
    SeenMono(scheme, v, w, u, y, z);
    AllHoldIff(scheme, u, clause);
    AllHoldIff(scheme, v, clause);
    AllHoldIff(scheme, w, clause);
    if AllHold(scheme, u, clause) == Ok(true) && AllHold(scheme, w, clause) == Ok(true) {
      forall i | 0 <= i < |clause| ensures Passes(scheme, v, clause[i]) {
        assert Passes(scheme, u, clause[i]) && Passes(scheme, w, clause[i]);
        PassesBetween(scheme, u, v, w, x, y, z, clause[i]);
      }
    }
  }
}
