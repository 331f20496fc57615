/** console/shared_prefix.py: greedy, input-ordered grouping of prompt heads. A group keeps only
    its first member and a length, yet that length is always the longest prefix of all members. */
module SharedPrefix {
  import opened Wrappers

  // ---- common prefixes -----------------------------------------------------------------------------

  /** a and b share their first k characters. */
  predicate Agree(a: string, b: string, k: nat) { k <= |a| && k <= |b| && a[..k] == b[..k] }

  function Lcp(a: string, b: string): (n: nat)
    ensures n <= |a| && n <= |b|
  {
    if a == "" || b == "" || a[0] != b[0] then 0 else 1 + Lcp(a[1..], b[1..])
  }

  lemma {:induction false} LcpIsLongest(a: string, b: string, k: nat)
    ensures Agree(a, b, k) <==> k <= Lcp(a, b)
  {
    if k > 0 && a != "" && b != "" {
      LcpIsLongest(a[1..], b[1..], k - 1);
      assert k <= |a| ==> a[..k] == [a[0]] + a[1..][..k - 1];
      assert k <= |b| ==> b[..k] == [b[0]] + b[1..][..k - 1];
      assert k <= |a| ==> a[..k][0] == a[0] && a[..k][1..] == a[1..][..k - 1];
      assert k <= |b| ==> b[..k][0] == b[0] && b[..k][1..] == b[1..][..k - 1];
    }
  }

  lemma LcpStops(a: string, b: string, i: nat)
    requires Agree(a, b, i) && (i == |a| || i == |b| || a[i] != b[i])
    ensures Lcp(a, b) == i
  {
    LcpIsLongest(a, b, i);
    LcpIsLongest(a, b, i + 1);
    if i < |a| && i < |b| { assert a[..i + 1][i] != b[..i + 1][i]; }
  }

  /** common_prefix. */
  method CommonPrefix(a: string, b: string) returns (i: nat)
    ensures i == Lcp(a, b)
  {
    var n := if |a| <= |b| then |a| else |b|;
    i := 0;
    while i < n && a[i] == b[i]
      invariant i <= n && Agree(a, b, i)
    {
      assert a[..i + 1] == a[..i] + [a[i]] && b[..i + 1] == b[..i] + [b[i]];
      i := i + 1;
    }
    LcpStops(a, b, i);
  }

  // ---- the grouping, as a function ---------------------------------------------------------------------

  /** A group's value: its prefix length and the agents in it, in the order they joined. */
  datatype View = View(len: nat, members: seq<nat>)

  ghost predicate ViewOk(heads: seq<string>, v: View)
  {
    v.members != [] && forall k :: 0 <= k < |v.members| ==> v.members[k] < |heads|
  }

  ghost predicate ViewsOk(heads: seq<string>, vs: seq<View>) { forall g :: 0 <= g < |vs| ==> ViewOk(heads, vs[g]) }

  /** The prefix group v would keep with h in it. */
  function Offer(heads: seq<string>, v: View, h: string): nat
    requires ViewOk(heads, v)
  {
    Min(Lcp(heads[v.members[0]], h), v.len)
  }

  /** The first of the first n groups with the longest offer. */
  function BestOf(heads: seq<string>, vs: seq<View>, h: string, n: nat): (b: nat)
    requires 1 <= n <= |vs| && ViewsOk(heads, vs)
    ensures b < n
    ensures forall g :: 0 <= g < n ==> Offer(heads, vs[g], h) <= Offer(heads, vs[b], h)
    ensures forall g :: 0 <= g < b ==> Offer(heads, vs[g], h) < Offer(heads, vs[b], h)
  {
    if n == 1 then 0
    else
      var b := BestOf(heads, vs, h, n - 1);
      if Offer(heads, vs[n - 1], h) > Offer(heads, vs[b], h) then n - 1 else b
  }

  function Best(heads: seq<string>, vs: seq<View>, h: string): nat
    requires vs != [] && ViewsOk(heads, vs)
  {
    BestOf(heads, vs, h, |vs|)
  }

  /** Agent i joins the best group if that offers minChars, and starts one of its own if not. */
  function Place(heads: seq<string>, minChars: int, vs: seq<View>, i: nat): (r: seq<View>)
    requires i < |heads| && ViewsOk(heads, vs)
    ensures ViewsOk(heads, r)
  {
    if vs != [] && Offer(heads, vs[Best(heads, vs, heads[i])], heads[i]) >= minChars then
      var b := Best(heads, vs, heads[i]);
      vs[b := View(Offer(heads, vs[b], heads[i]), vs[b].members + [i])]
    else vs + [View(|heads[i]|, [i])]
  }

  /** The groups after the first n agents. */
  function Grouping(heads: seq<string>, minChars: int, n: nat): (r: seq<View>)
    requires n <= |heads|
    ensures ViewsOk(heads, r)
  {
    if n == 0 then [] else Place(heads, minChars, Grouping(heads, minChars, n - 1), n - 1)
  }

  // ---- group(), in place ----------------------------------------------------------------------------------

  class Group {
    var len: nat
    var members: seq<nat>

    constructor (len: nat, members: seq<nat>)
      ensures this.len == len && this.members == members
    {
      this.len, this.members := len, members;
    }

    /** Agent i joins: the prefix shrinks to what it shares. */
    method Join(len: nat, i: nat)
      modifies this
      ensures Value() == View(len, old(members) + [i])
    {
      this.len := len;
      members := members + [i];
    }

    function Value(): View
      reads this
    {
      View(len, members)
    }
  }

  function Views(groups: seq<Group>): (vs: seq<View>)
    reads groups
    ensures |vs| == |groups|
    ensures forall g :: 0 <= g < |vs| ==> vs[g] == groups[g].Value()
  {
    seq(|groups|, g requires 0 <= g < |groups| reads groups => groups[g].Value())
  }

  ghost predicate Distinct(groups: seq<Group>) { forall g, h :: 0 <= g < h < |groups| ==> groups[g] != groups[h] }

  /** b is the best of the first g groups, if there are any. */
  ghost predicate BestSoFar(heads: seq<string>, vs: seq<View>, h: string, g: nat, b: nat, bestLen: int)
  {
    g <= |vs| && ViewsOk(heads, vs)
    && if g == 0 then bestLen == -1 else b == BestOf(heads, vs, h, g) && bestLen == Offer(heads, vs[b], h)
  }

  lemma BestStep(heads: seq<string>, vs: seq<View>, h: string, g: nat, b: nat, bestLen: int)
    requires g < |vs| && BestSoFar(heads, vs, h, g, b, bestLen)
    ensures ViewOk(heads, vs[g])
    ensures var n := Offer(heads, vs[g], h);
            if n > bestLen then BestSoFar(heads, vs, h, g + 1, g, n) else BestSoFar(heads, vs, h, g + 1, b, bestLen)
  {
    assert ViewOk(heads, vs[g]);
  }

  /** The inner loop: the first group with the longest offer, -1 when there is no group. */
  method FindBest(heads: seq<string>, groups: seq<Group>, h: string) returns (b: nat, bestLen: int)
    requires ViewsOk(heads, Views(groups))
    ensures groups == [] ==> bestLen == -1
    ensures groups != [] ==> b == Best(heads, Views(groups), h) && bestLen == Offer(heads, groups[b].Value(), h)
  {
    b, bestLen := 0, -1;
    ghost var vs := Views(groups);
    for g := 0 to |groups|
      invariant BestSoFar(heads, vs, h, g, b, bestLen)
    {
      BestStep(heads, vs, h, g, b, bestLen);
      var common := CommonPrefix(heads[groups[g].members[0]], h);
      var n := Min(common, groups[g].len);
      if n > bestLen {
        b, bestLen := g, n;
      }
    }
  }

  /** One turn of the outer loop: a group is overwritten in place, or one is appended. */
  method PlaceHead(heads: seq<string>, minChars: int, groups: seq<Group>, i: nat) returns (r: seq<Group>)
    requires i < |heads| && Distinct(groups) && ViewsOk(heads, Views(groups))
    modifies groups
    ensures Views(r) == Place(heads, minChars, old(Views(groups)), i)
    ensures Distinct(r) && (r == groups || (exists g :: r == groups + [g] && fresh(g)))
  {
    ghost var vs := Views(groups);
    var b, bestLen := FindBest(heads, groups, heads[i]);
    if groups != [] && bestLen >= minChars {
      groups[b].Join(bestLen, i);
      r := groups;
      assert Views(r) == vs[b := View(bestLen, vs[b].members + [i])];
    } else {
      var g := new Group(|heads[i]|, [i]);
      r := groups + [g];
      assert Views(r) == vs + [View(|heads[i]|, [i])];
    }
  }

  /** group: every agent in input order. */
  method GroupHeads(heads: seq<string>, minChars: int) returns (groups: seq<Group>)
    ensures Views(groups) == Grouping(heads, minChars, |heads|)
    ensures Distinct(groups) && fresh(groups)
  {
    groups := [];
    for i := 0 to |heads|
      invariant Distinct(groups) && fresh(groups)
      invariant Views(groups) == Grouping(heads, minChars, i)
    {
      groups := PlaceHead(heads, minChars, groups, i);
    }
  }

  // ---- what every grouping keeps -----------------------------------------------------------------------

  /** All members' heads share their first k characters. */
  ghost predicate Shared(heads: seq<string>, members: seq<nat>, k: nat)
    requires members != [] && forall j :: 0 <= j < |members| ==> members[j] < |heads|
  {
    forall j :: 0 <= j < |members| ==> Agree(heads[members[0]], heads[members[j]], k)
  }

  /** The stored length is exactly the longest prefix that all members share. */
  ghost predicate ExactPrefix(heads: seq<string>, v: View)
    requires ViewOk(heads, v)
  {
    forall k: nat :: Shared(heads, v.members, k) <==> k <= v.len
  }

  ghost predicate Ordered(v: View, n: nat)
  {
    (forall j :: 0 <= j < |v.members| ==> v.members[j] < n)
    && forall j, k :: 0 <= j < k < |v.members| ==> v.members[j] < v.members[k]
  }

  lemma AgreeChain(a: string, b: string, h: string, k: nat)
    requires Agree(a, b, k)
    ensures Agree(a, h, k) ==> Agree(b, h, k)
  {
  }

  lemma SharedAppend(heads: seq<string>, members: seq<nat>, i: nat, k: nat)
    requires members != [] && i < |heads| && forall j :: 0 <= j < |members| ==> members[j] < |heads|
    ensures Shared(heads, members + [i], k) <==> Shared(heads, members, k) && Agree(heads[members[0]], heads[i], k)
  {
    var more := members + [i];
    assert more[|members|] == i && more[0] == members[0];
    assert forall j :: 0 <= j < |members| ==> more[j] == members[j];
  }

  /** The ultrametric step: what a newcomer shares with every member is the smaller of what it
      shares with the first and what the members share already. */
  lemma OfferIsExact(heads: seq<string>, v: View, i: nat, k: nat)
    requires ViewOk(heads, v) && ExactPrefix(heads, v) && i < |heads|
    ensures Shared(heads, v.members + [i], k) <==> k <= Offer(heads, v, heads[i])
  {
    SharedAppend(heads, v.members, i, k);
    LcpIsLongest(heads[v.members[0]], heads[i], k);
  }

  lemma AloneIsExact(heads: seq<string>, i: nat)
    requires i < |heads|
    ensures ExactPrefix(heads, View(|heads[i]|, [i]))
  {
    forall k: nat ensures Shared(heads, [i], k) <==> k <= |heads[i]| {
      assert Shared(heads, [i], k) ==> Agree(heads[i], heads[[i][0]], k);
    }
  }

  /** A group among the first n agents: in input order, with its exact prefix, which is at least
      minChars once two have joined. */
  ghost predicate GroupOk(heads: seq<string>, minChars: int, v: View, n: nat)
  {
    ViewOk(heads, v) && Ordered(v, n) && ExactPrefix(heads, v) && (|v.members| >= 2 ==> v.len >= minChars)
  }

  ghost predicate AllOk(heads: seq<string>, minChars: int, vs: seq<View>, n: nat)
  {
    forall g :: 0 <= g < |vs| ==> GroupOk(heads, minChars, vs[g], n)
  }

  ghost predicate InSome(vs: seq<View>, i: nat) { exists g :: 0 <= g < |vs| && i in vs[g].members }

  ghost predicate Disjoint(v: View, w: View) { forall i :: i in v.members ==> i !in w.members }

  /** The first n agents, each in exactly one group. */
  ghost predicate Partition(vs: seq<View>, n: nat)
  {
    (forall i: nat :: i < n ==> InSome(vs, i)) && forall g, h :: 0 <= g < h < |vs| ==> Disjoint(vs[g], vs[h])
  }

  lemma JoinOk(heads: seq<string>, minChars: int, v: View, i: nat)
    requires i < |heads| && GroupOk(heads, minChars, v, i) && Offer(heads, v, heads[i]) >= minChars
    ensures GroupOk(heads, minChars, View(Offer(heads, v, heads[i]), v.members + [i]), i + 1)
  {
    var w := View(Offer(heads, v, heads[i]), v.members + [i]);
    forall k: nat ensures Shared(heads, w.members, k) <==> k <= w.len { OfferIsExact(heads, v, i, k); }
  }

  lemma StartOk(heads: seq<string>, minChars: int, i: nat)
    requires i < |heads|
    ensures GroupOk(heads, minChars, View(|heads[i]|, [i]), i + 1)
  {
    AloneIsExact(heads, i);
  }

  lemma JoinPartitions(vs: seq<View>, i: nat, b: nat, w: View)
    requires b < |vs| && Partition(vs, i) && w.members == vs[b].members + [i]
    requires forall g :: 0 <= g < |vs| ==> Ordered(vs[g], i)
    ensures Partition(vs[b := w], i + 1)
  {
    var r := vs[b := w];
    forall j: nat | j < i + 1 ensures InSome(r, j) {
      if j < i {
        assert InSome(vs, j);
        var g :| 0 <= g < |vs| && j in vs[g].members;
        assert j in r[g].members;
      } else {
        assert r[b].members[|vs[b].members|] == i;
      }
    }
  }

  lemma StartPartitions(vs: seq<View>, i: nat, w: View)
    requires Partition(vs, i) && w.members == [i] && forall g :: 0 <= g < |vs| ==> Ordered(vs[g], i)
    ensures Partition(vs + [w], i + 1)
  {
    var r := vs + [w];
    forall j: nat | j < i + 1 ensures InSome(r, j) {
      if j < i {
        assert InSome(vs, j);
        var g :| 0 <= g < |vs| && j in vs[g].members;
        assert j in r[g].members;
      } else {
        assert r[|vs|].members[0] == i;
      }
    }
  }

  ghost predicate Sound(heads: seq<string>, minChars: int, vs: seq<View>, n: nat)
  {
    AllOk(heads, minChars, vs, n) && Partition(vs, n)
  }

  /** group() partitions the agents, keeps their order and stores exact prefixes. */
  lemma {:induction false} GroupingIsSound(heads: seq<string>, minChars: int, n: nat)
    requires n <= |heads|
    ensures Sound(heads, minChars, Grouping(heads, minChars, n), n)
  {
    if n == 0 {
      NothingIsSound(heads, minChars);
    } else {
      var vs, i := Grouping(heads, minChars, n - 1), n - 1;
      GroupingIsSound(heads, minChars, i);
      PlaceIsSound(heads, minChars, vs, i);
      assert Grouping(heads, minChars, n) == Place(heads, minChars, vs, i);
    }
  }

  lemma NothingIsSound(heads: seq<string>, minChars: int)
    ensures Sound(heads, minChars, [], 0)
  {
  }

  lemma PlaceIsSound(heads: seq<string>, minChars: int, vs: seq<View>, i: nat)
    requires i < |heads| && ViewsOk(heads, vs) && Sound(heads, minChars, vs, i)
    ensures Sound(heads, minChars, Place(heads, minChars, vs, i), i + 1)
  {
    forall g | 0 <= g < |vs| ensures Ordered(vs[g], i) && GroupOk(heads, minChars, vs[g], i + 1) {
      assert GroupOk(heads, minChars, vs[g], i);
    }
    if vs != [] && Offer(heads, vs[Best(heads, vs, heads[i])], heads[i]) >= minChars {
      var b := Best(heads, vs, heads[i]);
      assert GroupOk(heads, minChars, vs[b], i);
      JoinOk(heads, minChars, vs[b], i);
      JoinPartitions(vs, i, b, View(Offer(heads, vs[b], heads[i]), vs[b].members + [i]));
    } else {
      StartOk(heads, minChars, i);
      StartPartitions(vs, i, View(|heads[i]|, [i]));
    }
  }

  /** Nothing that a group with agent i in it would share is longer than k. */
  ghost predicate AtMost(heads: seq<string>, vs: seq<View>, i: nat, k: int)
    requires i < |heads| && ViewsOk(heads, vs)
  {
    forall g, l: nat :: 0 <= g < |vs| && Shared(heads, vs[g].members + [i], l) ==> l <= k
  }

  /** The greedy choice, in terms of all members: agent i starts a group of its own when no group
      would share minChars characters with it, and otherwise joins one that, with i in it, shares
      at least minChars and as much as any group would. */
  lemma ChoiceIsLongest(heads: seq<string>, minChars: int, i: nat)
    requires i < |heads|
    ensures var vs, r := Grouping(heads, minChars, i), Grouping(heads, minChars, i + 1);
            || (AtMost(heads, vs, i, minChars - 1) && r == vs + [View(|heads[i]|, [i])])
            || (exists b :: 0 <= b < |vs| && r == vs[b := View(r[b].len, vs[b].members + [i])]
                            && r[b].len >= minChars && AtMost(heads, vs, i, r[b].len))
  {
    var vs := Grouping(heads, minChars, i);
    GroupingIsSound(heads, minChars, i);
    if vs != [] {
      var b := Best(heads, vs, heads[i]);
      forall g, l: nat | 0 <= g < |vs| && Shared(heads, vs[g].members + [i], l)
        ensures l <= Offer(heads, vs[b], heads[i])
      {
        assert GroupOk(heads, minChars, vs[g], i);
        OfferIsExact(heads, vs[g], i, l);
      }
    }
  }
}
