/** console/shared_prefix.py's analyse: the whole KV blocks that agents of a group can reuse, and the
    pairs of agents that would reuse more with their tool keys sorted. */
module PrefixReuse {
  import opened Wrappers
  import opened SharedPrefix

  const CHARS_PER_TOKEN: nat := 4

  datatype Device = Cpu | Gpu

  /** The agents' prompt heads, the same heads with sorted keys, and the tokenizer if there is one. */
  datatype Setup = Setup(heads: seq<string>, canon: seq<string>, device: Device, minTokens: int,
                         count: Option<string -> nat>)

  /** KV block size in tokens. */
  function Block(d: Device): nat { if d.Cpu? then 32 else 16 }

  /** Whole KV blocks of a prefix, in tokens. */
  function Whole(tokens: nat, d: Device): nat { tokens / Block(d) * Block(d) }

  lemma WholeBlocks(tokens: nat, d: Device)
    ensures Whole(tokens, d) % Block(d) == 0 && Whole(tokens, d) <= tokens < Whole(tokens, d) + Block(d)
  {
    var b := Block(d);
    assert tokens == tokens / b * b + tokens % b;
  }

  function Prefix(s: string, k: nat): string { if k <= |s| then s[..k] else s }

  /** Tokens of the first k characters: the tokenizer's count, or an estimate. */
  function TokensOf(q: Setup, s: string, k: nat): nat
  {
    match q.count case Some(f) => f(Prefix(s, k)) case None => k / CHARS_PER_TOKEN
  }

  /** Whole blocks of the first k characters. */
  function Reusable(q: Setup, s: string, k: nat): nat { Whole(TokensOf(q, s, k), q.device) }

  // ---- groups that share -------------------------------------------------------------------------

  datatype Report = Report(members: seq<nat>, sharedChars: nat, tokens: nat, reusable: nat)

  /** The report of a group, whether it is listed or not. */
  function ReportOf(q: Setup, v: View): Report
    requires ViewOk(q.heads, v)
  {
    var s := q.heads[v.members[0]];
    Report(v.members, v.len, TokensOf(q, s, v.len), Reusable(q, s, v.len))
  }

  /** Two agents or more share whole blocks of at least minTokens. */
  predicate Enough(q: Setup, r: Report) { |r.members| >= 2 && r.reusable >= q.minTokens }

  function Reported(q: Setup, v: View): Option<Report>
    requires ViewOk(q.heads, v)
  {
    if Enough(q, ReportOf(q, v)) then Some(ReportOf(q, v)) else None
  }

  /** The reports among the first n groups. */
  function Reports(q: Setup, vs: seq<View>, n: nat): seq<Report>
    requires n <= |vs| && ViewsOk(q.heads, vs)
  {
    if n == 0 then []
    else
      match Reported(q, vs[n - 1])
      case None => Reports(q, vs, n - 1)
      case Some(r) => Reports(q, vs, n - 1) + [r]
  }

  /** A report is listed exactly when it is that of a group of two agents or more whose whole blocks
      come to minTokens. */
  lemma {:induction false} ReportsIff(q: Setup, vs: seq<View>, n: nat, r: Report)
    requires n <= |vs| && ViewsOk(q.heads, vs)
    ensures r in Reports(q, vs, n) <==> Enough(q, r) && exists g :: 0 <= g < n && r == ReportOf(q, vs[g])
  {
    if n > 0 { ReportsIff(q, vs, n - 1, r); }
  }

  method CollectReports(q: Setup, groups: seq<Group>) returns (out: seq<Report>)
    requires ViewsOk(q.heads, Views(groups))
    ensures out == Reports(q, Views(groups), |groups|)
  {
    out := [];
    ghost var vs := Views(groups);
    for g := 0 to |groups|
      invariant out == Reports(q, vs, g)
    {
      var v := groups[g].Value();
      assert ViewOk(q.heads, v) && v == vs[g];
      var r := Reported(q, v);
      if r.Some? {
        out := out + [r.value];
      }
    }
  }

  // ---- pairs that sorted keys would help -----------------------------------------------------------

  datatype Fix = Fix(i: nat, j: nat, plain: nat, sorted: nat)

  /** Agents i and j with their keys as they are, and sorted. */
  function PairOf(q: Setup, i: nat, j: nat): Fix
    requires i < |q.heads| == |q.canon| && j < |q.heads|
  {
    Fix(i, j, Reusable(q, q.heads[i], Lcp(q.heads[i], q.heads[j])),
        Reusable(q, q.canon[i], Lcp(q.canon[i], q.canon[j])))
  }

  /** Sorting gains a block, and enough tokens are shared then. */
  predicate Gains(q: Setup, f: Fix) { f.sorted - f.plain >= Block(q.device) && f.sorted >= q.minTokens }

  /** The fixes of agent i with the agents from i + 1 to j - 1. */
  function FixesOf(q: Setup, i: nat, j: nat): seq<Fix>
    requires i < |q.heads| == |q.canon| && i < j <= |q.heads|
  {
    if j == i + 1 then []
    else FixesOf(q, i, j - 1) + if Gains(q, PairOf(q, i, j - 1)) then [PairOf(q, i, j - 1)] else []
  }

  function Fixes(q: Setup, n: nat): seq<Fix>
    requires n <= |q.heads| == |q.canon|
  {
    if n == 0 then [] else Fixes(q, n - 1) + FixesOf(q, n - 1, |q.heads|)
  }

  /** The inner loop, over the agents after i. */
  method CollectFixesOf(q: Setup, i: nat) returns (out: seq<Fix>)
    requires i < |q.heads| == |q.canon|
    ensures out == FixesOf(q, i, |q.heads|)
  {
    out := [];
    for j := i + 1 to |q.heads|
      invariant out == FixesOf(q, i, j)
    {
      var before := CommonPrefix(q.heads[i], q.heads[j]);
      var after := CommonPrefix(q.canon[i], q.canon[j]);
      var f := Fix(i, j, Reusable(q, q.heads[i], before), Reusable(q, q.canon[i], after));
      assert f == PairOf(q, i, j);
      out := out + if Gains(q, f) then [f] else [];
    }
  }

  method CollectFixes(q: Setup) returns (out: seq<Fix>)
    requires |q.heads| == |q.canon|
    ensures out == Fixes(q, |q.heads|)
  {
    out := [];
    for i := 0 to |q.heads|
      invariant out == Fixes(q, i)
    {
      var more := CollectFixesOf(q, i);
      out := out + more;
    }
  }

  /** f is what sorting does for a pair of agents, and that gains. */
  predicate Fixed(q: Setup, f: Fix)
    requires |q.heads| == |q.canon|
  {
    f.i < f.j < |q.heads| && f == PairOf(q, f.i, f.j) && Gains(q, f)
  }

  lemma {:induction false} FixesOfIff(q: Setup, i: nat, j: nat, f: Fix)
    requires i < |q.heads| == |q.canon| && i < j <= |q.heads|
    ensures f in FixesOf(q, i, j) <==> f.i == i && f.j < j && Fixed(q, f)
  {
    if i + 1 < j { FixesOfIff(q, i, j - 1, f); }
  }

  /** A pair is listed exactly when sorting its keys gains it a block and leaves enough shared. */
  lemma {:induction false} FixesIff(q: Setup, n: nat, f: Fix)
    requires n <= |q.heads| == |q.canon|
    ensures f in Fixes(q, n) <==> f.i < n && Fixed(q, f)
  {
    if n > 0 {
      FixesIff(q, n - 1, f);
      FixesOfIff(q, n - 1, |q.heads|, f);
      assert f in Fixes(q, n) <==> f in Fixes(q, n - 1) || f in FixesOf(q, n - 1, |q.heads|);
    }
  }

  // ---- analyse -----------------------------------------------------------------------------------------

  /** The plan's two answers: serve the agents from one engine, and sort their tool keys. */
  datatype Analysis = Analysis(groups: seq<Report>, fixes: seq<Fix>, oneEngine: bool, sortKeys: bool)

  /** analyse; None is its error for a minimum under 1. The plan is one engine exactly when some group
      shares enough, and sorted keys exactly when some pair gains by them. */
  method Analyse(q: Setup) returns (r: Option<Analysis>)
    requires |q.heads| == |q.canon|
    ensures r.None? <==> q.minTokens < 1
    ensures r.Some? ==>
              var vs := Grouping(q.heads, q.minTokens * CHARS_PER_TOKEN, |q.heads|);
              r.value.groups == Reports(q, vs, |vs|) && r.value.fixes == Fixes(q, |q.heads|)
              && (r.value.oneEngine <==> exists g :: 0 <= g < |vs| && Enough(q, ReportOf(q, vs[g])))
              && (r.value.sortKeys <==> exists i, j :: 0 <= i < j < |q.heads| && Gains(q, PairOf(q, i, j)))
  {
    if q.minTokens < 1 {
      return None;
    }
    var groups := GroupHeads(q.heads, q.minTokens * CHARS_PER_TOKEN);
    var reports := CollectReports(q, groups);
    var fixes := CollectFixes(q);
    AnyReport(q, Views(groups), |groups|);
    AnyFix(q);
    r := Some(Analysis(reports, fixes, reports != [], fixes != []));
  }

  lemma AnyReport(q: Setup, vs: seq<View>, n: nat)
    requires n <= |vs| && ViewsOk(q.heads, vs)
    ensures Reports(q, vs, n) != [] <==> exists g :: 0 <= g < n && Enough(q, ReportOf(q, vs[g]))
  {
    var reports := Reports(q, vs, n);
    if reports != [] {
      ReportsIff(q, vs, n, reports[0]);
    }
    if g :| 0 <= g < n && Enough(q, ReportOf(q, vs[g])) {
      ReportsIff(q, vs, n, ReportOf(q, vs[g]));
    }
  }

  lemma AnyFix(q: Setup)
    requires |q.heads| == |q.canon|
    ensures Fixes(q, |q.heads|) != [] <==> exists i, j :: 0 <= i < j < |q.heads| && Gains(q, PairOf(q, i, j))
  {
    var fixes := Fixes(q, |q.heads|);
    if fixes != [] {
      var f := fixes[0];
      FixesIff(q, |q.heads|, f);
      assert Gains(q, PairOf(q, f.i, f.j));
    }
    if i: nat, j: nat :| i < j < |q.heads| && Gains(q, PairOf(q, i, j)) {
      FixesIff(q, |q.heads|, PairOf(q, i, j));
    }
  }

  // ---- what a report says ------------------------------------------------------------------------------

  /** Any two agents of a report agree on all its characters, and on every agent they count the same. */
  ghost predicate ReallyShared(q: Setup, r: Report)
  {
    |r.members| >= 2
    && (forall j, k :: 0 <= j < k < |r.members| ==>
          r.members[j] < |q.heads| && r.members[k] < |q.heads|
          && Agree(q.heads[r.members[j]], q.heads[r.members[k]], r.sharedChars))
    && (forall j :: 0 <= j < |r.members| ==>
          r.members[j] < |q.heads| && TokensOf(q, q.heads[r.members[j]], r.sharedChars) == r.tokens)
  }

  lemma GroupIsShared(q: Setup, minChars: int, v: View, r: Report)
    requires ViewOk(q.heads, v) && GroupOk(q.heads, minChars, v, |q.heads|) && Reported(q, v) == Some(r)
    ensures ReallyShared(q, r)
  {
    assert Shared(q.heads, v.members, v.len);
    var first := q.heads[v.members[0]];
    forall j, k | 0 <= j < k < |v.members| ensures Agree(q.heads[v.members[j]], q.heads[v.members[k]], r.sharedChars) {
      assert Agree(first, q.heads[v.members[j]], v.len) && Agree(first, q.heads[v.members[k]], v.len);
      AgreeChain(first, q.heads[v.members[j]], q.heads[v.members[k]], v.len);
    }
    forall j | 0 <= j < |v.members| ensures TokensOf(q, q.heads[v.members[j]], r.sharedChars) == r.tokens {
      assert Agree(first, q.heads[v.members[j]], v.len);
    }
  }

  /** Every reported block is really shared, whole, and enough of them. */
  lemma {:induction false} ReportsAreShared(q: Setup, minChars: int, vs: seq<View>, n: nat, r: Report)
    requires n <= |vs| && ViewsOk(q.heads, vs) && AllOk(q.heads, minChars, vs, |q.heads|)
    requires r in Reports(q, vs, n)
    ensures ReallyShared(q, r)
    ensures r.reusable >= q.minTokens && r.reusable % Block(q.device) == 0 && r.reusable <= r.tokens
    ensures q.count.None? ==> r.reusable * CHARS_PER_TOKEN <= r.sharedChars
  {
    if r in Reports(q, vs, n - 1) {
      ReportsAreShared(q, minChars, vs, n - 1, r);
    } else {
      assert GroupOk(q.heads, minChars, vs[n - 1], |q.heads|);
      GroupIsShared(q, minChars, vs[n - 1], r);
      WholeBlocks(r.tokens, q.device);
    }
  }
}
