/** console/fit.py's guard_rungs and the pod limit of every rung. */
module Rungs {
  import opened Wrappers
  import opened KvSize
  import opened Placement
  import opened HostPlacement

  datatype Rung = Rung(seqs: nat, ctx: nat)

  /** Halve the sequences to 1, then halve the context to the floor. */
  predicate IsStep(a: Rung, b: Rung)
  {
    if a.seqs > 1 then b == Rung(a.seqs / 2, a.ctx)
    else b == Rung(1, a.ctx / 2) && b.ctx >= CTX_FLOOR
  }

  predicate IsLadder(rungs: seq<Rung>)
  {
    rungs != [] && forall i :: 0 <= i < |rungs| - 1 ==> IsStep(rungs[i], rungs[i + 1])
  }

  /** The ladder a guard walks down: it starts at the fit and goes as far as steps lead. */
  method GuardRungs(ctx: nat, seqs: nat) returns (rungs: seq<Rung>)
    requires seqs >= 1
    ensures IsLadder(rungs) && rungs[0] == Rung(seqs, ctx)
    ensures var last := rungs[|rungs| - 1]; last.seqs == 1 && last.ctx / 2 < CTX_FLOOR
  {
    var s: nat, c: nat := seqs, ctx;
    rungs := [Rung(seqs, ctx)];
    while s > 1
      invariant IsLadder(rungs) && rungs[0] == Rung(seqs, ctx) && rungs[|rungs| - 1] == Rung(s, c) && s >= 1
    {
      s := Max(s / 2, 1);
      rungs := rungs + [Rung(s, c)];
    }
    while c / 2 >= CTX_FLOOR
      invariant IsLadder(rungs) && rungs[0] == Rung(seqs, ctx) && rungs[|rungs| - 1] == Rung(1, c)
      decreases c
    {
      c := c / 2;
      rungs := rungs + [Rung(1, c)];
    }
  }

  lemma {:induction false} LadderDescends(rungs: seq<Rung>, i: nat, j: nat)
    requires IsLadder(rungs) && i <= j < |rungs|
    ensures rungs[j].seqs <= Max(rungs[i].seqs, 1) && rungs[j].ctx <= rungs[i].ctx
    decreases j - i
  {
    if i < j {
      LadderDescends(rungs, i, j - 1);
      assert IsStep(rungs[j - 1], rungs[j]);
    }
  }

  // ---- limits ----------------------------------------------------------------------------------------

  function RungKv(p: Placed, kv: Kv, r: Rung): int { KvPool(p.eng, p.cpu, KvOfAll(kv, r.ctx, p.kvScale, r.seqs)) }

  /** Host bytes at a rung: a CPU placement's KV and checkpoints shrink with it. */
  function RungHost(p: Placed, kv: Kv, r: Rung): real
  {
    if p.cpu then
      (p.hostBytes - p.kvBytes) as real - p.ckptBytes + RungKv(p, kv, r) as real + CkptOf(kv, r.ctx, r.seqs)
    else p.hostBytes as real
  }

  /** The rung limits of fit(), in GiB. */
  method RungLimits(p: Placed, kv: Kv, rungs: seq<Rung>) returns (limits: seq<int>)
    requires Booked(p, kv) && IsLadder(rungs) && rungs[0] == Rung(p.seqs, p.ctx)
    ensures |limits| == |rungs|
    ensures forall i :: 0 <= i < |rungs| ==> limits[i] == PodLimit(RungHost(p, kv, rungs[i]))
    ensures limits[0] == PodLimit(p.hostBytes as real)
    ensures forall i, j :: 0 <= i <= j < |rungs| ==> limits[j] <= limits[i]
  {
    limits := [];
    for i := 0 to |rungs|
      invariant |limits| == i
      invariant forall j :: 0 <= j < i ==> limits[j] == PodLimit(RungHost(p, kv, rungs[j]))
    {
      limits := limits + [PodLimit(RungHost(p, kv, rungs[i]))];
    }
    FirstRung(p, kv);
    forall i, j | 0 <= i <= j < |rungs| ensures limits[j] <= limits[i] {
      LimitsDescend(p, kv, rungs, i, j);
    }
  }

  lemma FirstRung(p: Placed, kv: Kv)
    requires Booked(p, kv)
    ensures RungHost(p, kv, Rung(p.seqs, p.ctx)) == p.hostBytes as real
  {
  }

  lemma PoolMono(eng: Engine, cpu: bool, x: int, y: int)
    requires x <= y
    ensures KvPool(eng, cpu, x) <= KvPool(eng, cpu, y)
  {
    if WholeGibPool(eng, cpu) { CeilMono(x as real / GIB as real, y as real / GIB as real); }
  }

  lemma CeilMono(x: real, y: real)
    requires x <= y
    ensures Ceil(x) <= Ceil(y)
  {
    FloorMono(-y, -x);
  }

  lemma FloorMono(x: real, y: real)
    requires x <= y
    ensures x.Floor <= y.Floor
  {
  }

  lemma {:induction false} KvMono(kv: Kv, scale: Bytes, a: Rung, b: Rung)
    requires b.seqs <= a.seqs && b.ctx <= a.ctx
    ensures 0 <= KvOfAll(kv, b.ctx, scale, b.seqs) <= KvOfAll(kv, a.ctx, scale, a.seqs)
    decreases a.seqs
  {
    if a.seqs > 0 {
      PerSeqMono(kv, b.ctx, a.ctx, scale);
      KvMono(kv, scale, Rung(a.seqs - 1, a.ctx), Rung(if b.seqs > 0 then b.seqs - 1 else 0, b.ctx));
    }
  }

  lemma CkptMono(kv: Kv, a: Rung, b: Rung)
    requires b.seqs <= a.seqs && b.ctx <= a.ctx
    ensures CkptOf(kv, b.ctx, b.seqs) <= CkptOf(kv, a.ctx, a.seqs)
  {
    CkptSeqMono(kv, b.ctx, a.ctx);
    TimesMono(b.seqs, a.seqs, CkptSeq(kv, b.ctx), CkptSeq(kv, a.ctx));
  }

  lemma RungHostMono(p: Placed, kv: Kv, a: Rung, b: Rung)
    requires b.seqs <= a.seqs && b.ctx <= a.ctx
    ensures RungHost(p, kv, b) <= RungHost(p, kv, a)
  {
    KvMono(kv, p.kvScale, a, b);
    CkptMono(kv, a, b);
    PoolMono(p.eng, p.cpu, KvOfAll(kv, b.ctx, p.kvScale, b.seqs), KvOfAll(kv, a.ctx, p.kvScale, a.seqs));
  }

  lemma LadderKeepsOne(rungs: seq<Rung>, i: nat)
    requires IsLadder(rungs) && rungs[0].seqs >= 1 && i < |rungs|
    ensures rungs[i].seqs >= 1
  {
    if i > 0 {
      LadderKeepsOne(rungs, i - 1);
      assert IsStep(rungs[i - 1], rungs[i]);
    }
  }

  lemma LimitsDescend(p: Placed, kv: Kv, rungs: seq<Rung>, i: nat, j: nat)
    requires IsLadder(rungs) && rungs[0].seqs >= 1 && i <= j < |rungs|
    ensures PodLimit(RungHost(p, kv, rungs[j])) <= PodLimit(RungHost(p, kv, rungs[i]))
  {
    LadderKeepsOne(rungs, i);
    LadderDescends(rungs, i, j);
    RungHostMono(p, kv, rungs[i], rungs[j]);
    PodLimitMono(RungHost(p, kv, rungs[j]), RungHost(p, kv, rungs[i]));
  }

  // ---- a rung's limit still holds the rung ---------------------------------------------------------------

  lemma MaskBytesMono(kv: Kv, ctx: nat, ctx': nat)
    requires ctx <= ctx'
    ensures MaskBytes(kv, ctx) <= MaskBytes(kv, ctx')
  {
    SwaTokensMono(kv, ctx, ctx');
  }

  /** llama.cpp's fixed bytes shrink with the context, since only the masks depend on it. */
  lemma FixedMono(q: LlamaCpuPlan, ctx: nat, ctx': nat)
    requires ctx <= ctx'
    ensures GIB <= Fixed(q, ctx) <= Fixed(q, ctx')
  {
    MaskBytesMono(q.kv, ctx, ctx');
    if q.draft.Some? { MaskBytesMono(q.draft.value.kv, ctx, ctx'); }
  }

  /** Slack and whole bytes: a limit of at least h - 1 bytes, 10% more and rounded up, covers h. */
  lemma LimitCovers(need: int, host: real)
    requires host >= need as real - 1.0 && host >= 10.0
    ensures need <= PodLimit(host) * GIB
  {
    GibRounding(host * 1.1);
    assert GibCeil(host * 1.1) == (PodLimit(host) * GIB) as real;
  }

  /** Trading the KV and checkpoints of some slots for those of fewer leaves room for the latter. */
  lemma TradeSlots(fixed: nat, fixed': nat, kv: nat, kv': nat, ck: Bytes, ck': Bytes, logits: nat, logits': nat)
    requires GIB <= fixed' <= fixed && logits' <= logits
    ensures var host := (HostTotal(fixed, kv, ck, logits) - kv) as real - ck + kv' as real + ck';
            HostTotal(fixed', kv', ck', logits') as real - 1.0 <= host && host >= 10.0
  {
  }

  /** What a llama.cpp server on the CPU takes at a lower rung stays inside that rung's limit. */
  lemma RungHoldsServer(z: Sizing, c: nat, n: nat, r: Rung)
    requires n >= 1 && r.seqs <= n && GIB <= z.fixed(r.ctx) <= z.fixed(c)
    ensures HostOf(z, r.ctx, r.seqs) <= PodLimit(RungHost(AllInHost(z, c, n), z.kv, r)) * GIB
  {
    KvOfAllIsProduct(z.kv, c, z.scale, n);
    KvOfAllIsProduct(z.kv, r.ctx, z.scale, r.seqs);
    assert z.extra * r.seqs <= z.extra * n;
    TradeSlots(z.fixed(c), z.fixed(r.ctx), KvOfAll(z.kv, c, z.scale, n), KvOfAll(z.kv, r.ctx, z.scale, r.seqs),
               CkptOf(z.kv, c, n), CkptOf(z.kv, r.ctx, r.seqs), z.extra * n, z.extra * r.seqs);
    LimitCovers(HostOf(z, r.ctx, r.seqs), RungHost(AllInHost(z, c, n), z.kv, r));
  }

  /** So does every rung of the ladder below a placement of llama.cpp on the CPU. */
  lemma EveryRungHolds(q: LlamaCpuPlan, p: Placed, rungs: seq<Rung>, i: nat)
    requires p == AllInHost(LlamaCpuSizing(q), p.ctx, p.seqs) && p.seqs >= 1
    requires IsLadder(rungs) && rungs[0] == Rung(p.seqs, p.ctx) && i < |rungs|
    ensures HostOf(LlamaCpuSizing(q), rungs[i].ctx, rungs[i].seqs) <= PodLimit(RungHost(p, q.kv, rungs[i])) * GIB
  {
    LadderDescends(rungs, 0, i);
    FixedMono(q, rungs[i].ctx, p.ctx);
    RungHoldsServer(LlamaCpuSizing(q), p.ctx, p.seqs, rungs[i]);
  }

  /** Without checkpoints the host bytes are the fixed ones and the pool. */
  lemma CpuHost(q: CpuPlan, c: nat, n: nat)
    requires CpuPlanOk(q)
    ensures CpuPlaced(q, c, n).hostBytes
            == q.serve + q.act + HostRuntime(q.eng) + KvPool(q.eng, true, KvOfAll(q.kv, c, 1.0, n))
    ensures CpuPlaced(q, c, n).ckptBytes == 0.0
  {
    NoCheckpoints(q.eng, q.kv, c, n);
  }

  lemma PoolNonNegative(q: CpuPlan, c: nat, n: nat)
    ensures KvPool(q.eng, true, KvOfAll(q.kv, c, 1.0, n)) >= 0
  {
    KvOfAllIsProduct(q.kv, c, 1.0, n);
    PoolMono(q.eng, true, 0, KvOfAll(q.kv, c, 1.0, n));
  }

  lemma RungTrades(q: CpuPlan, c: nat, n: nat, r: Rung)
    requires CpuPlanOk(q)
    ensures RungHost(CpuPlaced(q, c, n), q.kv, r) == CpuPlaced(q, r.ctx, r.seqs).hostBytes as real
    ensures CpuPlaced(q, r.ctx, r.seqs).hostBytes >= GIB
  {
    CpuHost(q, c, n);
    CpuHost(q, r.ctx, r.seqs);
    PoolNonNegative(q, r.ctx, r.seqs);
    assert CpuPlaced(q, r.ctx, r.seqs).ckptBytes == CkptOf(q.kv, r.ctx, r.seqs);
  }

  /** ... and below one of vLLM or OVMS on the CPU. */
  lemma EveryCpuRungHolds(q: CpuPlan, p: Placed, rungs: seq<Rung>, i: nat)
    requires CpuPlanOk(q) && p == CpuPlaced(q, p.ctx, p.seqs) && i < |rungs|
    ensures CpuPlaced(q, rungs[i].ctx, rungs[i].seqs).hostBytes <= PodLimit(RungHost(p, q.kv, rungs[i])) * GIB
  {
    RungTrades(q, p.ctx, p.seqs, rungs[i]);
    LimitCovers(CpuPlaced(q, rungs[i].ctx, rungs[i].seqs).hostBytes, RungHost(p, q.kv, rungs[i]));
  }

  /** Every rung of the ladder below p fits its limit, and no limit is above the one before. */
  ghost predicate LimitsHold(q: LlamaCpuPlan, p: Placed, rungs: seq<Rung>, limits: seq<int>)
  {
    |limits| == |rungs|
    && (forall i, j :: 0 <= i <= j < |rungs| ==> limits[j] <= limits[i])
    && forall i :: 0 <= i < |rungs| ==> HostOf(LlamaCpuSizing(q), rungs[i].ctx, rungs[i].seqs) <= limits[i] * GIB
  }

  /** Ladder and limits of a llama.cpp placement on the CPU: whatever rung the guard is on, the
      server takes no more than that rung's limit, and the first limit is the placement's. */
  method LimitsFor(q: LlamaCpuPlan, p: Placed) returns (rungs: seq<Rung>, limits: seq<int>)
    requires p == AllInHost(LlamaCpuSizing(q), p.ctx, p.seqs) && p.seqs >= 1
    ensures IsLadder(rungs) && rungs[0] == Rung(p.seqs, p.ctx) && LimitsHold(q, p, rungs, limits)
    ensures limits[0] == PodLimit(p.hostBytes as real)
  {
    rungs := GuardRungs(p.ctx, p.seqs);
    limits := RungLimits(p, q.kv, rungs);
    forall i | 0 <= i < |rungs|
      ensures HostOf(LlamaCpuSizing(q), rungs[i].ctx, rungs[i].seqs) <= limits[i] * GIB
    {
      EveryRungHolds(q, p, rungs, i);
    }
  }
}
