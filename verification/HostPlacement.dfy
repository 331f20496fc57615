/** console/fit.py's placements that keep KV or weights in host RAM, and llama.cpp's layer split
    over several cards. */
module HostPlacement {
  import opened Wrappers
  import opened KvSize
  import opened LlamaSplit
  import opened LlamaLayers
  import opened LlamaSearch
  import opened Placement

  /** A DRAM decode bound under the floor refuses a placement; an unknown one does not. */
  predicate TooSlow(dramTok: Option<real>) { dramTok.Some? && dramTok.value < MIN_DRAM_TOK_S }

  // ---- vLLM's and OVMS's CPU placements -------------------------------------------------------------

  datatype CpuPlan = CpuPlan(eng: Engine, kv: Kv, ladder: seq<nat>, relaxed: bool, wantSeqs: nat,
                             serve: nat, act: nat, room: nat, dramTok: Option<real>)

  predicate CpuPlanOk(q: CpuPlan) { !q.eng.LlamaCpp? && ProfileOf(q.eng, q.kv) }

  function CpuLeft(q: CpuPlan): int { q.room - q.serve - q.act - HostRuntime(q.eng) }

  function CpuSizing(q: CpuPlan): Sizing
  {
    Sizing(q.kv, KvRoom(q.eng, true, CpuLeft(q) as real), q.ladder, q.wantSeqs, 1.0, q.relaxed, true, _ => 0, 0)
  }

  function CpuPlaced(q: CpuPlan, c: nat, n: nat): Placed
  {
    var kvUsed := KvPool(q.eng, true, KvOfAll(q.kv, c, 1.0, n));
    var ck := CkptOf(q.kv, c, n);
    var hb := ((q.serve + q.act + HostRuntime(q.eng) + kvUsed) as real + ck).Floor;
    Placed(q.eng, true, c, n, 1.0, [], hb, kvUsed, ck)
  }

  lemma NoCheckpoints(eng: Engine, kv: Kv, c: nat, n: nat)
    requires !eng.LlamaCpp? && ProfileOf(eng, kv)
    ensures CkptSeq(kv, c) == 0.0 && CkptOf(kv, c, n) == 0.0
  {
    TimesIsProduct(n, 0.0);
  }

  lemma CpuPoolFits(q: CpuPlan, c: nat, n: nat)
    requires CpuPlanOk(q) && Sized(CpuSizing(q), c, n)
    ensures KvOfAll(q.kv, c, 1.0, n) <= KvPool(q.eng, true, KvOfAll(q.kv, c, 1.0, n)) <= CpuLeft(q)
  {
    NoCheckpoints(q.eng, q.kv, c, n);
    SlotsAddUp(CpuSizing(q), c, n);
    PoolInsideLeft(q.eng, true, KvOfAll(q.kv, c, 1.0, n), CpuLeft(q) as real);
  }

  lemma CpuPlacedFits(q: CpuPlan, c: nat, n: nat)
    requires CpuPlanOk(q) && Sized(CpuSizing(q), c, n)
    ensures Booked(CpuPlaced(q, c, n), q.kv) && HostHolds(CpuPlaced(q, c, n), q.room)
  {
    CpuPoolFits(q, c, n);
    NoCheckpoints(q.eng, q.kv, c, n);
    KvOfAllIsProduct(q.kv, c, 1.0, n);
  }

  /** The whole-GiB pool is sized in whole GiB of what is left, so the host bytes need no check
      after the sequences are counted. */
  method PlaceOnCpu(q: CpuPlan) returns (r: Option<Placed>)
    requires CpuPlanOk(q)
    ensures r.None? <==> CpuLeft(q) <= 0 || TooSlow(q.dramTok) || NothingAdmits(CpuSizing(q))
    ensures r.Some? ==> Booked(r.value, q.kv) && HostHolds(r.value, q.room)
    ensures r.Some? ==> r.value == CpuPlaced(q, r.value.ctx, r.value.seqs)
    ensures r.Some? ==> SizedFirst(CpuSizing(q), r.value.ctx, r.value.seqs)
  {
    if CpuLeft(q) <= 0 || TooSlow(q.dramTok) {
      return None;
    }
    var cn := SizeKv(CpuSizing(q));
    if cn.None? {
      return None;
    }
    var (c, n) := cn.value;
    CpuPlacedFits(q, c, n);
    r := Some(CpuPlaced(q, c, n));
  }

  // ---- llama.cpp on the CPU -------------------------------------------------------------------------

  /** The drafter llama-server loads beside the target. */
  datatype Draft = Draft(bytes: nat, kv: Kv, act: nat, vocab: nat)

  /** copies: weights the CPU backend copies out of the mapped GGUF; simd doubles the drafter. */
  datatype LlamaCpuPlan = LlamaCpuPlan(kv: Kv, ladder: seq<nat>, relaxed: bool, wantSeqs: nat, serve: nat, copies: nat,
                                       act: nat, vocab: nat, draft: Option<Draft>, simd: bool, room: nat,
                                       dramTok: Option<real>)

  const LLAMA_DRAFT_MAX: nat := 3

  /** llama_mask_bytes: the f16 KQ masks, one per cache. */
  function MaskBytes(kv: Kv, ctx: nat): nat
  {
    (if Count(kv.kinds, Full) > 0 then Pad(ctx, 256) * LLAMA_UBATCH * 2 else 0)
    + (if Count(kv.kinds, Swa) > 0 then SwaTokens(kv, ctx) * LLAMA_UBATCH * 2 else 0)
  }

  /** llama_out_bytes: one row of logits, or the verify batch's, in two buffers. */
  function OutBytes(vocab: nat, drafting: bool): nat { 2 * (1 + if drafting then LLAMA_DRAFT_MAX else 0) * vocab * 4 }

  /** Bytes held before any sequence, at ctx tokens per slot. */
  function Fixed(q: LlamaCpuPlan, ctx: nat): nat
  {
    q.serve + q.copies + HostRuntime(LlamaCpp) + MaskBytes(q.kv, ctx) + q.act
    + match q.draft
      case None => 0
      case Some(d) => d.bytes * (if q.simd then 2 else 1) + MaskBytes(d.kv, ctx) + d.act
  }

  /** Logits of one slot. */
  function SlotLogits(q: LlamaCpuPlan): nat
  {
    OutBytes(q.vocab, q.draft.Some?) + match q.draft case None => 0 case Some(d) => OutBytes(d.vocab, false)
  }

  function LlamaCpuSizing(q: LlamaCpuPlan): Sizing
  {
    Sizing(q.kv, q.room as real, q.ladder, q.wantSeqs, 1.0, q.relaxed, true, c => Fixed(q, c), SlotLogits(q))
  }

  /** int of what is fixed and the KV, checkpoints and logits of every slot. */
  function HostTotal(fixed: nat, kv: int, ck: Bytes, logits: nat): int { ((fixed + kv + logits) as real + ck).Floor }

  /** What n slots of c tokens sized by z take, all of it in host RAM. */
  function HostOf(z: Sizing, c: nat, n: nat): int
  {
    HostTotal(z.fixed(c), KvOfAll(z.kv, c, z.scale, n), CkptOf(z.kv, c, n), z.extra * n)
  }

  function AllInHost(z: Sizing, c: nat, n: nat): Placed
  {
    Placed(LlamaCpp, true, c, n, z.scale, [], HostOf(z, c, n), KvOfAll(z.kv, c, z.scale, n), CkptOf(z.kv, c, n))
  }

  lemma HostTotalFits(fixed: nat, kv: nat, ck: Bytes, logits: nat, room: real)
    requires (kv + logits) as real + ck <= room - fixed as real
    ensures fixed <= HostTotal(fixed, kv, ck, logits)
    ensures HostTotal(fixed, kv, ck, logits) as real <= room
  {
  }

  lemma AllInHostFits(z: Sizing, c: nat, n: nat, room: nat)
    requires Sized(z, c, n) && z.hostCkpt && z.budget == room as real && z.fixed(c) > 0
    ensures HostHolds(AllInHost(z, c, n), room)
  {
    SlotsAddUp(z, c, n);
    KvOfAllIsProduct(z.kv, c, z.scale, n);
    HostTotalFits(z.fixed(c), KvOfAll(z.kv, c, z.scale, n), CkptOf(z.kv, c, n), z.extra * n, z.budget);
  }

  lemma AllInHostBooked(z: Sizing, c: nat, n: nat)
    requires n >= 1
    ensures Booked(AllInHost(z, c, n), z.kv)
  {
  }

  /** _llama_cpu: everything in host RAM, the fixed bytes depending on the context. */
  method PlaceLlamaCpu(q: LlamaCpuPlan) returns (r: Option<Placed>)
    requires q.ladder != []
    ensures r.None? <==> Fixed(q, q.ladder[|q.ladder| - 1]) >= q.room || TooSlow(q.dramTok)
                         || NothingAdmits(LlamaCpuSizing(q))
    ensures r.Some? ==> Booked(r.value, q.kv) && HostHolds(r.value, q.room)
    ensures r.Some? ==> r.value == AllInHost(LlamaCpuSizing(q), r.value.ctx, r.value.seqs)
    ensures r.Some? ==> SizedFirst(LlamaCpuSizing(q), r.value.ctx, r.value.seqs)
  {
    if Fixed(q, q.ladder[|q.ladder| - 1]) >= q.room || TooSlow(q.dramTok) {
      return None;
    }
    var z := LlamaCpuSizing(q);
    var cn := SizeKv(z);
    if cn.None? {
      return None;
    }
    var (c, n) := cn.value;
    AllInHostFits(z, c, n, q.room);
    AllInHostBooked(z, c, n);
    r := Some(AllInHost(z, c, n));
  }

  // ---- llama.cpp on several cards ---------------------------------------------------------------------

  /** bw is the DRAM bandwidth in GB/s, perTok of experts the share of a layer's experts a token reads. */
  datatype MultiPlan = MultiPlan(m: Model, kv: Kv, ladder: seq<nat>, relaxed: bool, wantSeqs: nat, use: seq<Card>,
                                 overhead: nat, nCpus: seq<nat>, room: nat, bw: real, perTok: nat, experts: nat)

  /** The callers' guards: experts are moved only where there are some, and with a known bandwidth. */
  predicate MultiPlanOk(q: MultiPlan)
  {
    q.use != [] && OutputLayer(q.m) >= 0 && ProfileOf(LlamaCpp, q.kv)
    && ((exists j :: 0 <= j < |q.nCpus| && q.nCpus[j] != 0) ==> q.bw > 0.0 && q.experts >= 1 && q.m.b.experts >= 1)
  }

  function MultiQuery(q: MultiPlan): Query
    requires MultiPlanOk(q)
  {
    Query(q.m, q.kv, q.ladder, q.relaxed, q.wantSeqs, |q.use|,
          MinBudget(q.use) as real - q.overhead as real, q.nCpus)
  }

  /** Expert bytes of nCpu layers, in DRAM. */
  function DramWeight(m: Model, nCpu: nat): Bytes { nCpu as real * Share(m.b.experts as real, Trunk(m)) }

  /** _dram_rate over the experts a token reads; none when it reads none of them. */
  function DramTok(q: MultiPlan, nCpu: nat): Option<real>
    requires nCpu != 0 ==> q.experts >= 1
  {
    if nCpu == 0 then None
    else
      var read := DramWeight(q.m, nCpu) * q.perTok as real / q.experts as real;
      if read > 0.0 then Some(q.bw * 1000000000.0 / read) else None
  }

  lemma RatedIff(q: MultiPlan, nCpu: nat)
    requires nCpu >= 1 && q.experts >= 1 && q.m.b.experts >= 1
    ensures DramTok(q, nCpu).Some? <==> q.perTok >= 1
  {
    assert DramWeight(q.m, nCpu) > 0.0;
  }

  function MultiHost(q: MultiPlan, p: Plan): int
  {
    ((HostRuntime(LlamaCpp) + Lookup(q.m)) as real + CkptOf(q.kv, p.ctx, p.seqs)).Floor
    + if p.nCpu == 0 then 0 else DramWeight(q.m, p.nCpu).Floor
  }

  /** int(b + ov) of every card. */
  function WithOverhead(cards: seq<real>, overhead: nat): (r: seq<int>)
    ensures |r| == |cards|
    ensures forall c :: 0 <= c < |r| ==> r[c] == (cards[c] + overhead as real).Floor
  {
    seq(|cards|, c requires 0 <= c < |cards| => (cards[c] + overhead as real).Floor)
  }

  ghost predicate Found(q: MultiPlan, p: Plan)
    requires MultiPlanOk(q)
  {
    var s := MultiQuery(q);
    (exists i, j :: IsFirst(s, p, i, j)) && IsBest(s, p.ctx, p.seqs, p.nCpu, p.ts)
  }

  /** Every card's layers, their KV and its own overhead, where the device rule puts them, are
      within the smallest card's budget. */
  method PlaceOnCards(q: MultiPlan, p: Plan) returns (cards: seq<int>)
    requires MultiPlanOk(q) && Found(q, p)
    ensures |cards| == |q.use| == |p.ts|
    ensures forall c :: 0 <= c < |cards| ==> cards[c] <= MinBudget(q.use)
    ensures var b := LayerBytes(q.m, q.kv, p.ctx, p.seqs, p.nCpu);
            IsSplit(p.ts, |p.ts|, |b|)
            && forall c :: 0 <= c < |cards| ==> cards[c] == (Load(b, p.ts, c) + q.overhead as real).Floor
  {
    var b := LayerBytes(q.m, q.kv, p.ctx, p.seqs, p.nCpu);
    assert Fits(b, p.ts, |q.use|, MultiQuery(q).room);
    var out := Cards(p.ts, b);
    forall c | 0 <= c < |p.ts| ensures out[c] == Load(b, p.ts, c) <= MultiQuery(q).room {
      CardsAreLoads(b, p.ts, c);
    }
    cards := WithOverhead(out, q.overhead);
  }

  function MultiPlaced(q: MultiPlan, p: Plan, cards: seq<int>): Placed
  {
    Placed(LlamaCpp, false, p.ctx, p.seqs, 1.0, cards, MultiHost(q, p), KvOfAll(q.kv, p.ctx, 1.0, p.seqs),
           CkptOf(q.kv, p.ctx, p.seqs))
  }

  lemma MultiPlacedBooked(q: MultiPlan, p: Plan, cards: seq<int>)
    requires p.seqs >= 1
    ensures Booked(MultiPlaced(q, p, cards), q.kv)
  {
  }

  lemma MultiHostPositive(q: MultiPlan, p: Plan)
    ensures MultiHost(q, p) > 0
  {
    FloorAtLeast(HostRuntime(LlamaCpp) + Lookup(q.m), CkptOf(q.kv, p.ctx, p.seqs));
    if p.nCpu != 0 { FloorAtLeast(0, DramWeight(q.m, p.nCpu)); }
  }

  lemma FloorAtLeast(n: nat, x: Bytes)
    ensures (n as real + x).Floor >= n
  {
  }

  /** A plan that moves experts has some to move. */
  lemma MovesWhatThereIs(q: MultiPlan, p: Plan)
    requires MultiPlanOk(q) && Found(q, p) && p.nCpu != 0
    ensures q.experts >= 1 && q.m.b.experts >= 1
  {
    var i: nat, j: nat :| IsFirst(MultiQuery(q), p, i, j);
    assert q.nCpus[j] != 0;
  }

  /** A placement, a refusal with its reason, or the TypeError of printing an unknown rate. */
  datatype Attempt = Placing(p: Placed) | Refusal | TypeError

  /** Experts are moved that no token reads, so the decode bound is unknown where it is printed. */
  predicate Unrated(q: MultiPlan, p: Plan) { p.nCpu != 0 && q.perTok == 0 }

  ghost predicate Refused(q: MultiPlan, p: Plan)
    requires MultiPlanOk(q) && Found(q, p)
  {
    !Unrated(q, p) && (p.nCpu != 0 ==> q.experts >= 1) && (TooSlow(DramTok(q, p.nCpu)) || MultiHost(q, p) > q.room)
  }

  /** Nothing was found: no room on the cards, or no rung that splits. */
  ghost predicate NoPlan(q: MultiPlan)
    requires MultiPlanOk(q)
  {
    MultiQuery(q).room <= 0.0 || NoRungBefore(MultiQuery(q), |q.ladder|)
  }

  /** _llama_multi: the first plan of the search, unless DRAM is too slow for the experts moved or
      the host side does not fit. It raises exactly when the plan moves experts of which a token
      reads none; asked to move experts, that is whenever there is a plan at all. */
  method PlaceLlamaMulti(q: MultiPlan) returns (r: Attempt, ghost plan: Option<Plan>)
    requires MultiPlanOk(q)
    ensures plan.None? <==> NoPlan(q)
    ensures plan.Some? ==> Found(q, plan.value)
    ensures r.TypeError? <==> plan.Some? && Unrated(q, plan.value)
    ensures (forall j :: 0 <= j < |q.nCpus| ==> q.nCpus[j] != 0) ==> (r.TypeError? <==> !NoPlan(q) && q.perTok == 0)
    ensures r.Refusal? <==> plan.None? || Refused(q, plan.value)
    ensures r.Placing? ==> Booked(r.p, q.kv) && CardsHold(r.p, q.use) && HostHolds(r.p, q.room)
    ensures r.Placing? ==> r.p.ctx == plan.value.ctx && r.p.seqs == plan.value.seqs
                           && r.p.hostBytes == MultiHost(q, plan.value)
  {
    plan := None;
    var s := MultiQuery(q);
    if s.room <= 0.0 {
      return Refusal, None;
    }
    var found := Search(s);
    if found.None? {
      return Refusal, None;
    }
    var p := found.value;
    plan := Some(p);
    var cards := PlaceOnCards(q, p);
    if p.nCpu != 0 {
      MovesWhatThereIs(q, p);
      RatedIff(q, p.nCpu);
      if DramTok(q, p.nCpu).None? {
        return TypeError, plan;
      }
    }
    if TooSlow(DramTok(q, p.nCpu)) || MultiHost(q, p) > q.room {
      return Refusal, plan;
    }
    MultiPlacedBooked(q, p, cards);
    MultiHostPositive(q, p);
    r := Placing(MultiPlaced(q, p, cards));
  }

  /** A model whose config does not say how many experts a token reads: there is a plan, so it raises. */
  lemma UnreadExpertsRaise()
    ensures var m := Model(1, 0, Classes(1, 0, 0, 0, 0, 0, 0), 1);
            var kv := Kv([Full], 0.0, 0.0, 0.0, 0, WindowOnly, 1, LLAMA_CTX_CHECKPOINTS);
            var q := MultiPlan(m, kv, [CTX_FLOOR], false, 0, [Card(8 * GIB, 0)], 0, [1], 8 * GIB, 50.0, 0, 8);
            MultiPlanOk(q) && !NoPlan(q) && q.perTok == 0
  {
    var m := Model(1, 0, Classes(1, 0, 0, 0, 0, 0, 0), 1);
    var kv := Kv([Full], 0.0, 0.0, 0.0, 0, WindowOnly, 1, LLAMA_CTX_CHECKPOINTS);
    var q := MultiPlan(m, kv, [CTX_FLOOR], false, 0, [Card(8 * GIB, 0)], 0, [1], 8 * GIB, 50.0, 0, 8);
    var s, b := MultiQuery(q), LayerBytes(m, kv, CTX_FLOOR, TARGET_SEQS, 1);
    TimesZero(CTX_FLOOR);
    assert FullPart(kv, CTX_FLOOR) == 0.0 && PerKind(kv, CTX_FLOOR, Full) == 0.0;
    TimesZero(TARGET_SEQS);
    assert |b| == 2 && b[0] == 0.0 && b[1] == 0.0;
    assert Sum(b, 0, 0) == 0.0 && Sum(b, 0, 1) == 0.0 && Sum(b, 0, 2) == 0.0;
    assert First([2], 0) == 0 && First([2], 1) == 2 && Load(b, [2], 0) == 0.0;
    assert Fits(b, [2], 1, s.room);
    assert Splits(s, CTX_FLOOR, TARGET_SEQS, 1) && s.ladder[0] == CTX_FLOOR && s.nCpus[0] == 1;
  }

  // ---- the main result ---------------------------------------------------------------------------------

  /** A placement sized against HostRoom of the host's free bytes: each card's own total holds what
      is in use, the reserve and the placement, and the pod's limit, in whole GiB after the 10%
      slack, stays inside MemAvailable, and inside what the cgroup leaves, less the reserve. */
  lemma NeverOverCommits(h: Host, use: seq<Card>, p: Placed)
    requires CardsHold(p, use) && HostHolds(p, HostRoom(HostFree(h)))
    ensures PodLimit(p.hostBytes as real) * GIB + HostReserve(h) <= h.available
    ensures h.cgroup.Some? && h.cgroup.value.0 > 0
            ==> h.cgroup.value.1 + PodLimit(p.hostBytes as real) * GIB + HostReserve(h) <= h.cgroup.value.0
    ensures forall c :: 0 <= c < |use| && p.cardBytes[c] > 0
                        ==> use[c].used + GpuReserve(use[c]) + p.cardBytes[c] <= use[c].total
  {
    PodLimitInside(p.hostBytes as real, HostFree(h));
    assert PodLimit(p.hostBytes as real) >= 1;
  }
}
