/** console/fit.py's placements: sequences sized into what weights, overhead and runtime leave,
    and the pod limit taken from the host bytes. A placement that fits over-commits neither a
    card nor the host, after the whole-GiB pools, the 10% slack and the rounding up to GiB. */
module Placement {
  import opened Wrappers
  import opened KvSize
  import opened LlamaSearch

  datatype Engine = Vllm | Ovms | LlamaCpp

  const VLLM_SHM: nat := 2 * GIB
  const LLAMA_CTX_CHECKPOINTS: nat := 4
  const MIN_DRAM_TOK_S: real := 5.0
  const CTX_FLOOR: nat := 4096

  function HostRuntime(eng: Engine): nat
  {
    match eng case Vllm => 6 * GIB case Ovms => 2 * GIB case LlamaCpp => GIB
  }

  /** fit(): only llama.cpp's KV profile gets context checkpoints. */
  predicate ProfileOf(eng: Engine, kv: Kv)
  {
    kv.ckpts == if eng.LlamaCpp? then LLAMA_CTX_CHECKPOINTS else 0
  }

  // ---- rounding -----------------------------------------------------------------------------------

  function Ceil(x: real): int { -((-x).Floor) }

  function GibFloor(x: real): real { (x / GIB as real).Floor as real * GIB as real }

  function GibCeil(x: real): real { Ceil(x / GIB as real) as real * GIB as real }

  lemma GibRounding(x: real)
    ensures GibFloor(x) <= x <= GibCeil(x) < x + GIB as real
  {
    assert x / GIB as real * GIB as real == x;
  }

  /** What fits under a whole number of GiB still fits after rounding up to one. */
  lemma RoundUpStaysInside(x: real, left: real)
    requires x <= GibFloor(left)
    ensures GibCeil(x) <= GibFloor(left)
  {
    var n := (left / GIB as real).Floor;
    assert x / GIB as real <= n as real;
    assert Ceil(x / GIB as real) <= n;
  }

  // ---- budgets -------------------------------------------------------------------------------------

  datatype Card = Card(total: nat, used: nat)

  function GpuReserve(c: Card): nat { Max(c.total / 20, GIB) }

  /** gpu_budget: the reserve is the larger of 5% and 1 GiB. */
  function Budget(c: Card): nat { Max(c.total - c.used - GpuReserve(c), 0) }

  datatype Host = Host(total: nat, available: nat, cgroup: Option<(nat, nat)>)

  function HostReserve(h: Host): nat { Max(h.total / 10, 4 * GIB) }

  /** host_budget: MemAvailable, or the cgroup's room if less, minus the reserve. */
  function HostFree(h: Host): nat
  {
    var avail: int := match h.cgroup
                      case None => h.available
                      case Some((limit, current)) =>
                        if limit > 0 && limit - current < h.available then limit - current else h.available;
    Max(avail - HostReserve(h), 0)
  }

  /** _placements: the host bytes a pod may have so that its limit stays inside the budget. */
  function HostRoom(free: nat): nat { Max((free as real / 1.1).Floor - GIB, 0) }

  /** k8s memory limit in GiB of a pod with hb host bytes. */
  function PodLimit(hb: real): int { Ceil(hb * 1.1 / GIB as real) }

  lemma PodLimitMono(x: real, y: real)
    requires x <= y
    ensures PodLimit(x) <= PodLimit(y)
  {
  }

  lemma PodLimitInside(hb: real, free: nat)
    requires 0.0 < hb <= HostRoom(free) as real
    ensures PodLimit(hb) * GIB <= free
  {
    GibRounding(hb * 1.1);
    assert hb + GIB as real <= free as real / 1.1;
    assert GibCeil(hb * 1.1) == (PodLimit(hb) * GIB) as real;
  }

  // ---- size_kv ------------------------------------------------------------------------------------

  /** fixed is what the budget holds first at a context, extra more bytes per sequence. */
  datatype Sizing = Sizing(kv: Kv, budget: real, ladder: seq<nat>, wantSeqs: nat, scale: Bytes, relaxed: bool,
                           hostCkpt: bool, fixed: nat -> nat, extra: nat)

  function Room(z: Sizing, ctx: nat): real { z.budget - z.fixed(ctx) as real }

  /** Bytes of one sequence in the budget. */
  function Slot(z: Sizing, ctx: nat): Bytes
  {
    PerSeqNonNegative(z.kv, ctx, z.scale);
    PerSeq(z.kv, ctx, z.scale) as real + (if z.hostCkpt then CkptSeq(z.kv, ctx) else 0.0) + z.extra as real
  }

  lemma PerSeqNonNegative(kv: Kv, ctx: nat, scale: Bytes)
    ensures PerSeq(kv, ctx, scale) >= 0
  {
    PerSeqMono(kv, ctx, ctx, scale);
  }

  /** Whole sequences in room: int(room // s), or MAX_SEQS when a sequence takes nothing. */
  function Whole(room: real, s: Bytes): int { if s == 0.0 then MAX_SEQS else (room / s).Floor }

  /** The last rung of a relaxed ladder, with no count asked for, is enough with one sequence. */
  predicate OneIsEnough(z: Sizing, ctx: nat)
    requires z.ladder != []
  {
    z.relaxed && ctx == z.ladder[|z.ladder| - 1] && z.wantSeqs == 0
  }

  predicate AdmitsCount(room: real, s: Bytes, wantSeqs: nat, one: bool)
  {
    var n := Whole(room, s);
    room > 0.0 && (n >= (if wantSeqs != 0 then wantSeqs else TARGET_SEQS) || (one && n >= 1))
  }

  predicate Admits(z: Sizing, ctx: nat)
    requires z.ladder != []
  {
    AdmitsCount(Room(z, ctx), Slot(z, ctx), z.wantSeqs, OneIsEnough(z, ctx))
  }

  lemma CrossDivide(x: real, s: real, room: real)
    requires s > 0.0
    ensures x <= room / s <==> x * s <= room
  {
    assert room / s * s == room;
  }

  lemma WholeFits(room: real, s: Bytes, n: nat)
    requires room > 0.0 && n <= Whole(room, s)
    ensures Times(n, s) <= room
  {
    TimesIsProduct(n, s);
    if s > 0.0 { CrossDivide(n as real, s, room); }
  }

  lemma MoreDoNotFit(room: real, s: Bytes, n: nat)
    requires s > 0.0 && n > Whole(room, s)
    ensures Times(n, s) > room
  {
    TimesIsProduct(n, s);
    CrossDivide(n as real, s, room);
  }

  /** n sequences of s bytes fit in room, and, with no count asked for, no larger count up to the
      cap does. */
  ghost predicate SizedIn(room: real, s: Bytes, wantSeqs: nat, n: nat)
  {
    1 <= n <= MAX_SEQS && Times(n, s) <= room
    && (wantSeqs != 0 ==> n == Min(wantSeqs, MAX_SEQS))
    && (wantSeqs == 0 && n < MAX_SEQS ==> Times(n + 1, s) > room)
  }

  ghost predicate Sized(z: Sizing, ctx: nat, n: nat)
  {
    SizedIn(Room(z, ctx), Slot(z, ctx), z.wantSeqs, n)
  }

  /** KV and checkpoint bytes of seqs sequences, added up. */
  function KvOfAll(kv: Kv, ctx: nat, scale: Bytes, seqs: nat): int
  {
    if seqs == 0 then 0 else KvOfAll(kv, ctx, scale, seqs - 1) + PerSeq(kv, ctx, scale)
  }

  function CkptOf(kv: Kv, ctx: nat, seqs: nat): Bytes { Times(seqs, CkptSeq(kv, ctx)) }

  lemma {:induction false} KvOfAllIsProduct(kv: Kv, ctx: nat, scale: Bytes, seqs: nat)
    ensures KvOfAll(kv, ctx, scale, seqs) == PerSeq(kv, ctx, scale) * seqs
    ensures KvOfAll(kv, ctx, scale, seqs) >= 0
  {
    PerSeqNonNegative(kv, ctx, scale);
    if seqs > 0 { KvOfAllIsProduct(kv, ctx, scale, seqs - 1); }
  }

  /** n slots are n sequences, their checkpoints where the budget holds them, and the extra bytes. */
  lemma {:induction false} SlotsAddUp(z: Sizing, c: nat, n: nat)
    ensures Times(n, Slot(z, c)) ==
            (KvOfAll(z.kv, c, z.scale, n) + z.extra * n) as real + if z.hostCkpt then CkptOf(z.kv, c, n) else 0.0
  {
    if n > 0 {
      SlotsAddUp(z, c, n - 1);
      assert z.extra * n == z.extra * (n - 1) + z.extra;
    }
  }

  lemma AdmitsSized(room: real, s: Bytes, wantSeqs: nat, one: bool, n: int)
    requires AdmitsCount(room, s, wantSeqs, one) && (one ==> wantSeqs == 0)
    requires n == if wantSeqs != 0 then wantSeqs else Whole(room, s)
    ensures n >= 1 && SizedIn(room, s, wantSeqs, Min(n, MAX_SEQS))
  {
    WholeFits(room, s, Min(n, MAX_SEQS));
    if wantSeqs == 0 && n < MAX_SEQS { MoreDoNotFit(room, s, n + 1); }
  }

  /** c is the first context of the ladder that admits the needed sequences. */
  ghost predicate FirstAdmits(z: Sizing, c: nat)
  {
    exists i :: 0 <= i < |z.ladder| && z.ladder[i] == c && Admits(z, z.ladder[i])
                && forall j :: 0 <= j < i ==> !Admits(z, z.ladder[j])
  }

  /** What size_kv settles on: the first admitting context and the sequences that fit there. */
  ghost predicate SizedFirst(z: Sizing, c: nat, n: nat) { FirstAdmits(z, c) && Sized(z, c, n) }

  lemma OneCountFits(room: real, s: Bytes, wantSeqs: nat, n: nat, n': nat)
    requires SizedIn(room, s, wantSeqs, n) && SizedIn(room, s, wantSeqs, n')
    ensures n == n'
  {
    if n < n' { TimesMono(n + 1, n', s, s); }
    if n' < n { TimesMono(n' + 1, n, s, s); }
  }

  /** There is only one such context and one such count. */
  lemma SizedOnce(z: Sizing, c: nat, n: nat, c': nat, n': nat)
    requires SizedFirst(z, c, n) && SizedFirst(z, c', n')
    ensures c == c' && n == n'
  {
    OneCountFits(Room(z, c), Slot(z, c), z.wantSeqs, n, n');
  }

  predicate NothingAdmits(z: Sizing) { forall i :: 0 <= i < |z.ladder| ==> !Admits(z, z.ladder[i]) }

  /** The first admitting context of the ladder, and the sequences that fit there. */
  method SizeKv(z: Sizing) returns (r: Option<(nat, nat)>)
    ensures r.None? <==> NothingAdmits(z)
    ensures r.Some? ==> SizedFirst(z, r.value.0, r.value.1)
  {
    for i := 0 to |z.ladder|
      invariant forall j :: 0 <= j < i ==> !Admits(z, z.ladder[j])
    {
      var ctx := z.ladder[i];
      if Admits(z, ctx) {
        var n := if z.wantSeqs != 0 then z.wantSeqs else Whole(Room(z, ctx), Slot(z, ctx));
        AdmitsSized(Room(z, ctx), Slot(z, ctx), z.wantSeqs, OneIsEnough(z, ctx), n);
        return Some((ctx, Min(n, MAX_SEQS)));
      }
    }
    r := None;
  }

  // ---- KV pools -------------------------------------------------------------------------------------

  /** OVMS --cache_size and vLLM's CPU pool are set in whole GiB. */
  predicate WholeGibPool(eng: Engine, cpu: bool) { eng.Ovms? || (eng.Vllm? && cpu) }

  function KvRoom(eng: Engine, cpu: bool, left: real): real
  {
    if WholeGibPool(eng, cpu) then GibFloor(left) else left
  }

  function KvPool(eng: Engine, cpu: bool, kv: int): int
  {
    if WholeGibPool(eng, cpu) then Ceil(kv as real / GIB as real) * GIB else kv
  }

  /** Rounded up or not, the pool holds the sequences and stays inside what was left for it. */
  lemma PoolInsideLeft(eng: Engine, cpu: bool, kv: int, left: real)
    requires kv as real <= KvRoom(eng, cpu, left)
    ensures kv <= KvPool(eng, cpu, kv)
    ensures KvPool(eng, cpu, kv) as real <= left
  {
    if WholeGibPool(eng, cpu) {
      GibRounding(kv as real);
      GibRounding(left);
      RoundUpStaysInside(kv as real, left);
      assert GibCeil(kv as real) == (Ceil(kv as real / GIB as real) * GIB) as real;
    }
  }

  // ---- placements -------------------------------------------------------------------------------------

  datatype Placed = Placed(eng: Engine, cpu: bool, ctx: nat, seqs: nat, kvScale: Bytes, cardBytes: seq<int>,
                           hostBytes: int, kvBytes: int, ckptBytes: Bytes)

  /** The KV and checkpoint bytes booked are those of the plan's sequences. */
  predicate Booked(p: Placed, kv: Kv)
  {
    p.seqs >= 1
    && p.kvBytes == KvPool(p.eng, p.cpu, KvOfAll(kv, p.ctx, p.kvScale, p.seqs))
    && p.ckptBytes == CkptOf(kv, p.ctx, p.seqs)
  }

  predicate CardsHold(p: Placed, use: seq<Card>)
  {
    |p.cardBytes| == |use| && forall c :: 0 <= c < |use| ==> p.cardBytes[c] <= Budget(use[c])
  }

  predicate HostHolds(p: Placed, room: nat) { 0 < p.hostBytes <= room }

  function MinBudget(use: seq<Card>): (b: nat)
    requires use != []
    ensures forall c :: 0 <= c < |use| ==> b <= Budget(use[c])
    ensures exists c :: 0 <= c < |use| && b == Budget(use[c])
  {
    if |use| == 1 then Budget(use[0])
    else Min(MinBudget(use[..|use| - 1]), Budget(use[|use| - 1]))
  }

  /** What a placement on GPUs starts from: room is the host budget of the pod. */
  datatype GpuPlan = GpuPlan(eng: Engine, kv: Kv, ladder: seq<nat>, relaxed: bool, wantSeqs: nat, use: seq<Card>,
                             serve: nat, lookup: nat, outputCopy: nat, overhead: nat, room: nat)

  /** OVMS and llama.cpp come here with one card; vLLM spreads its ranks over any number. */
  predicate GpuPlanOk(q: GpuPlan)
  {
    q.use != [] && (q.eng.Vllm? || |q.use| == 1) && ProfileOf(q.eng, q.kv) && q.lookup <= q.serve
  }

  function OnHost(q: GpuPlan): nat { if q.eng.LlamaCpp? then q.lookup else 0 }

  /** Weight bytes of each card. */
  function CardWeights(q: GpuPlan): real
    requires GpuPlanOk(q)
  {
    if q.eng.Vllm? then (q.serve - OnHost(q)) as real / |q.use| as real
    else (q.serve - OnHost(q) + if q.eng.LlamaCpp? then q.outputCopy else 0) as real
  }

  /** KV heads split across vLLM's ranks, or one per rank with fewer heads than ranks. */
  function KvScale(q: GpuPlan): Bytes
    requires GpuPlanOk(q)
  {
    var k := |q.use|;
    if !q.eng.Vllm? then 1.0
    else if q.kv.kvHeads == 0 then 1.0 / k as real
    else (if q.kv.kvHeads / k >= 1 then q.kv.kvHeads / k else 1) as real / q.kv.kvHeads as real
  }

  function GpuHostBytes(q: GpuPlan, ckpt: Bytes): int
    requires GpuPlanOk(q)
  {
    ((HostRuntime(q.eng) + (if q.eng.Vllm? then VLLM_SHM + HostRuntime(q.eng) * (|q.use| - 1) else 0)
      + OnHost(q) + (if q.eng.Ovms? then q.serve else 0)) as real + ckpt).Floor
  }

  lemma WithinCard(weights: real, overhead: nat, kvBytes: int, budget: nat)
    requires kvBytes as real <= budget as real - weights - overhead as real
    ensures (weights + overhead as real + kvBytes as real).Floor <= budget
  {
  }

  function GpuSizing(q: GpuPlan, left: real): Sizing
    requires GpuPlanOk(q)
  {
    Sizing(q.kv, KvRoom(q.eng, false, left), q.ladder, q.wantSeqs, KvScale(q), q.relaxed, false, _ => 0, 0)
  }

  lemma GpuPoolFits(q: GpuPlan, left: real, c: nat, n: nat)
    requires GpuPlanOk(q) && Sized(GpuSizing(q, left), c, n)
    ensures KvPool(q.eng, false, KvOfAll(q.kv, c, KvScale(q), n)) as real <= left
  {
    SlotsAddUp(GpuSizing(q, left), c, n);
    PoolInsideLeft(q.eng, false, KvOfAll(q.kv, c, KvScale(q), n), left);
  }

  function Left(q: GpuPlan): real
    requires GpuPlanOk(q)
  {
    MinBudget(q.use) as real - CardWeights(q) - q.overhead as real
  }

  /** n sequences of c tokens: every card holds its weights, the overhead and the pool. */
  function GpuPlaced(q: GpuPlan, c: nat, n: nat): Placed
    requires GpuPlanOk(q)
  {
    var kvUsed := KvPool(q.eng, false, KvOfAll(q.kv, c, KvScale(q), n));
    var ck := CkptOf(q.kv, c, n);
    var gpuUse := (CardWeights(q) + q.overhead as real + kvUsed as real).Floor;
    Placed(q.eng, false, c, n, KvScale(q), seq(|q.use|, _ => gpuUse), GpuHostBytes(q, ck), kvUsed, ck)
  }

  lemma GpuPlacedBooked(q: GpuPlan, c: nat, n: nat)
    requires GpuPlanOk(q) && n >= 1
    ensures Booked(GpuPlaced(q, c, n), q.kv) && GpuPlaced(q, c, n).hostBytes > 0
  {
  }

  lemma GpuPlacedFits(q: GpuPlan, c: nat, n: nat)
    requires GpuPlanOk(q) && Sized(GpuSizing(q, Left(q)), c, n)
    ensures CardsHold(GpuPlaced(q, c, n), q.use)
  {
    GpuPoolFits(q, Left(q), c, n);
    var kvUsed := KvPool(q.eng, false, KvOfAll(q.kv, c, KvScale(q), n));
    WithinCard(CardWeights(q), q.overhead, kvUsed, MinBudget(q.use));
  }

  /** The gpu and gpu-tp placements: one GPU, or vLLM's ranks each holding 1/k of the weights. */
  method PlaceOnGpu(q: GpuPlan) returns (r: Option<Placed>)
    requires GpuPlanOk(q)
    ensures r.Some? ==> Booked(r.value, q.kv) && CardsHold(r.value, q.use) && HostHolds(r.value, q.room)
    ensures r.Some? ==> r.value == GpuPlaced(q, r.value.ctx, r.value.seqs)
    ensures r.Some? ==> SizedFirst(GpuSizing(q, Left(q)), r.value.ctx, r.value.seqs)
    ensures r.None? <==> Left(q) <= 0.0 || NothingAdmits(GpuSizing(q, Left(q)))
                         || exists c, n :: SizedFirst(GpuSizing(q, Left(q)), c, n)
                             && GpuPlaced(q, c, n).hostBytes > q.room
  {
    var left := Left(q);
    if left <= 0.0 {
      return None;
    }
    var cn := SizeKv(GpuSizing(q, left));
    if cn.None? {
      return None;
    }
    var (c, n) := cn.value;
    GpuPlacedBooked(q, c, n);
    GpuPlacedFits(q, c, n);
    var p := GpuPlaced(q, c, n);
    forall c', n' | SizedFirst(GpuSizing(q, left), c', n') ensures c' == c && n' == n {
      SizedOnce(GpuSizing(q, left), c, n, c', n');
    }
    if p.hostBytes > q.room {
      return None;
    }
    r := Some(p);
  }

  /** vLLM's ranks together count a whole sequence's KV exactly when the heads divide over the
      ranks or there are fewer heads than ranks; otherwise the floor loses heads. */
  lemma RanksCountTheWholeKv(q: GpuPlan)
    requires GpuPlanOk(q) && q.eng.Vllm? && q.kv.kvHeads > 0
    ensures |q.use| as real * KvScale(q) >= 1.0 <==> q.kv.kvHeads % |q.use| == 0 || q.kv.kvHeads < |q.use|
  {
    var k, h := |q.use|, q.kv.kvHeads;
    var each := if h / k >= 1 then h / k else 1;
    RankShare(k, each, h);
    assert h == h / k * k + h % k;
  }

  /** Six KV heads on four ranks, a size that 24 attention heads divide into: the ranks count four
      sixths of a sequence's KV. */
  lemma RanksLoseHeads()
    ensures var kv := Kv([Full], 1.0, 0.0, 0.0, 0, WindowOnly, 6, 0);
            var q := GpuPlan(Vllm, kv, [CTX_FLOOR], false, 0, seq(4, _ => Card(8 * GIB, 0)), 0, 0, 0, 0, 32 * GIB);
            GpuPlanOk(q) && 24 % |q.use| == 0 && |q.use| as real * KvScale(q) == 4.0 / 6.0
  {
  }

  lemma RankShare(k: nat, each: nat, h: nat)
    requires h > 0
    ensures k as real * (each as real / h as real) >= 1.0 <==> k * each >= h
  {
    assert k as real * (each as real / h as real) * h as real == (k * each) as real;
  }
}
