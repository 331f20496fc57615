/** console/fit.py's llama_layer_bytes: what each layer takes on a GPU. The class totals are
    spread over the layers without losing or inventing a byte. */
module LlamaLayers {
  import opened Wrappers
  import opened KvSize
  import opened LlamaSplit

  /** The bytes of each tensor class of the weights. */
  datatype Classes = Classes(experts: nat, embed: nat, ngram: nat, lmHead: nat, vision: nat, mtp: nat, other: nat)

  /** The part of model_profile the splitter reads. */
  datatype Model = Model(layers: nat, nextn: nat, b: Classes, serve: nat)

  /** model_profile: a GGUF loads every tensor, other formats leave the MTP head out; cfgBlocks is
      the configured MTP block count, where 0 and absent both read as one block. */
  function Profile(b: Classes, layers: nat, gguf: bool, cfgBlocks: nat): Model
  {
    var blocks := MtpBlocks(b, cfgBlocks);
    var rest := b.experts + b.embed + b.ngram + b.lmHead + b.vision + b.other;
    Model(layers, if gguf then blocks else 0, b, if gguf then rest + b.mtp else rest)
  }

  function MtpBlocks(b: Classes, cfgBlocks: nat): nat
  {
    if b.mtp == 0 then 0 else if cfgBlocks == 0 then 1 else cfgBlocks
  }

  /** llama_profile: the GGUF conversion keeps the MTP blocks and serves them. */
  function LlamaProfile(b: Classes, layers: nat, gguf: bool, cfgBlocks: nat): Model
  {
    var m := Profile(b, layers, gguf, cfgBlocks);
    if gguf || MtpBlocks(b, cfgBlocks) == 0 then m
    else m.(nextn := MtpBlocks(b, cfgBlocks), serve := m.serve + b.mtp)
  }

  function Lookup(m: Model): nat { m.b.embed + m.b.ngram }

  /** llama_output_copy: tied embeddings load the token embedding again as the output tensor. */
  function OutputCopy(m: Model): nat { if m.b.lmHead == 0 then m.b.embed else 0 }

  function Trunk(m: Model): (n: nat)
    ensures n >= 1
  {
    if m.layers >= 1 then m.layers else 1
  }

  function Layers(m: Model): nat { Trunk(m) + m.nextn + 1 }

  /** total spread evenly over n layers. */
  function Share(total: Bytes, n: nat): Bytes { total / (if n >= 1 then n else 1) as real }

  function OutputLayer(m: Model): int
  {
    m.serve - Lookup(m) - m.b.experts - m.b.other - m.b.vision - (if m.nextn > 0 then m.b.mtp else 0) + OutputCopy(m)
  }

  /** Weight bytes of layer il with the experts of the first nCpu layers in host RAM. */
  function Weight(m: Model, nCpu: nat, il: nat): real
  {
    var n := Trunk(m);
    if il < n then
      Share(m.b.other as real, n) + (if il >= nCpu then Share(m.b.experts as real, n) else 0.0)
      + (if il == 0 then m.b.vision as real else 0.0)
    else if il < n + m.nextn then Share(m.b.mtp as real, m.nextn)
    else OutputLayer(m) as real
  }

  function PerKind(kv: Kv, ctx: nat, kind: Kind): Bytes
  {
    match kind
    case Full => Share(FullPart(kv, ctx), Count(kv.kinds, Full))
    case Swa => Share(SwaPart(kv, ctx), Count(kv.kinds, Swa))
    case Linear => Share(StatePerSeq(kv), Count(kv.kinds, Linear))
  }

  function Pick(kind: Kind, f: Bytes, s: Bytes, l: Bytes): Bytes
  {
    match kind case Full => f case Swa => s case Linear => l
  }

  /** KV bytes of layer il for seqs sequences, a layer taking f, s or l by its kind: MTP blocks
      and the output layer hold none. */
  function KvOf(m: Model, kinds: seq<Kind>, f: Bytes, s: Bytes, l: Bytes, seqs: nat, il: nat): Bytes
  {
    if il < Trunk(m) && il < |kinds| then Times(seqs, Pick(kinds[il], f, s, l)) else 0.0
  }

  function Weights(m: Model, nCpu: nat): (w: seq<real>)
    ensures |w| == Layers(m)
    ensures forall il :: 0 <= il < |w| ==> w[il] == Weight(m, nCpu, il)
  {
    seq(Layers(m), il requires 0 <= il => Weight(m, nCpu, il))
  }

  function KvSpread(m: Model, kinds: seq<Kind>, f: Bytes, s: Bytes, l: Bytes, seqs: nat): (w: seq<Bytes>)
    ensures |w| == Layers(m)
    ensures forall il :: 0 <= il < |w| ==> w[il] == KvOf(m, kinds, f, s, l, seqs, il)
  {
    seq(Layers(m), il requires 0 <= il => KvOf(m, kinds, f, s, l, seqs, il))
  }

  function KvBytes(m: Model, kv: Kv, ctx: nat, seqs: nat): (w: seq<Bytes>)
    ensures |w| == Layers(m)
  {
    KvSpread(m, kv.kinds, PerKind(kv, ctx, Full), PerKind(kv, ctx, Swa), PerKind(kv, ctx, Linear), seqs)
  }

  function Zip(a: seq<real>, b: seq<real>): (w: seq<real>)
    requires |a| == |b|
    ensures |w| == |a|
    ensures forall il :: 0 <= il < |w| ==> w[il] == a[il] + b[il]
  {
    seq(|a|, il requires 0 <= il < |a| => a[il] + b[il])
  }

  /** Weights and KV together, as the splitter reads them. */
  function LayerBytes(m: Model, kv: Kv, ctx: nat, seqs: nat, nCpu: nat): (w: seq<real>)
    ensures |w| == Layers(m)
  {
    Zip(Weights(m, nCpu), KvBytes(m, kv, ctx, seqs))
  }

  // ---- conservation of the weights --------------------------------------------------------------

  lemma TimesShare(n: nat, total: Bytes)
    requires n >= 1
    ensures Times(n, Share(total, n)) == total
  {
    TimesIsProduct(n, Share(total, n));
  }

  lemma {:induction false} TimesAdd(k: nat, n: nat, x: Bytes)
    requires k <= n
    ensures Times(k, x) + Times(n - k, x) == Times(n, x)
    decreases n - k
  {
    if k < n { TimesAdd(k, n - 1, x); }
  }

  lemma {:induction false} TimesDistributes(n: nat, x: Bytes, y: Bytes)
    ensures Times(n, x + y) == Times(n, x) + Times(n, y)
  {
    if n > 0 { TimesDistributes(n - 1, x, y); }
  }

  lemma {:induction false} TrunkSum(m: Model, nCpu: nat, j: nat)
    requires j <= Trunk(m)
    ensures Sum(Weights(m, nCpu), 0, j) ==
            Times(j, Share(m.b.other as real, Trunk(m)))
            + Times(j - Min(nCpu, j), Share(m.b.experts as real, Trunk(m)))
            + (if j > 0 then m.b.vision as real else 0.0)
  {
    if j > 0 { TrunkSum(m, nCpu, j - 1); }
  }

  /** Bytes of the experts --n-cpu-moe moves to DRAM. */
  function ExpertsInDram(m: Model, nCpu: nat): Bytes
  {
    Times(Min(nCpu, Trunk(m)), Share(m.b.experts as real, Trunk(m)))
  }

  lemma TrunkTotal(m: Model, nCpu: nat)
    ensures Sum(Weights(m, nCpu), 0, Trunk(m)) ==
            m.b.other as real + m.b.experts as real - ExpertsInDram(m, nCpu) + m.b.vision as real
  {
    var n, k := Trunk(m), Min(nCpu, Trunk(m));
    TrunkSum(m, nCpu, n);
    TimesShare(n, m.b.other as real);
    TimesShare(n, m.b.experts as real);
    TimesAdd(k, n, Share(m.b.experts as real, n));
  }

  lemma {:induction false} NextnSum(m: Model, nCpu: nat, j: nat)
    requires j <= m.nextn
    ensures Sum(Weights(m, nCpu), Trunk(m), Trunk(m) + j) == Times(j, Share(m.b.mtp as real, m.nextn))
  {
    if j > 0 { NextnSum(m, nCpu, j - 1); }
  }

  lemma NextnTotal(m: Model, nCpu: nat)
    ensures Sum(Weights(m, nCpu), Trunk(m), Trunk(m) + m.nextn) == if m.nextn > 0 then m.b.mtp as real else 0.0
  {
    NextnSum(m, nCpu, m.nextn);
    if m.nextn > 0 { TimesShare(m.nextn, m.b.mtp as real); }
  }

  lemma OutputTotal(m: Model, nCpu: nat)
    ensures Sum(Weights(m, nCpu), Trunk(m) + m.nextn, Layers(m)) == OutputLayer(m) as real
  {
    assert Sum(Weights(m, nCpu), Trunk(m) + m.nextn, Trunk(m) + m.nextn) == 0.0;
  }

  /** The layers, the experts moved to DRAM and the lookup tables are the bytes to serve plus the
      output copy of tied embeddings. */
  lemma WeightsConserved(m: Model, nCpu: nat)
    ensures Sum(Weights(m, nCpu), 0, Layers(m)) + ExpertsInDram(m, nCpu) + Lookup(m) as real
            == m.serve as real + OutputCopy(m) as real
  {
    SumSplits(Weights(m, nCpu), 0, Trunk(m), Layers(m));
    SumSplits(Weights(m, nCpu), Trunk(m), Trunk(m) + m.nextn, Layers(m));
    TrunkTotal(m, nCpu);
    NextnTotal(m, nCpu);
    OutputTotal(m, nCpu);
  }

  /** In a llama.cpp profile every tensor class is served, so the output layer holds lm_head or
      its copy, and no layer is negative. */
  lemma WeightsNonNegative(b: Classes, layers: nat, gguf: bool, cfgBlocks: nat, nCpu: nat)
    ensures var m := LlamaProfile(b, layers, gguf, cfgBlocks);
            OutputLayer(m) == b.lmHead + OutputCopy(m) && NonNegative(Weights(m, nCpu))
  {
  }

  // ---- conservation of the KV cache ---------------------------------------------------------------

  /** f, s or l for each of the first j layers, by its kind. */
  function KindsSum(kinds: seq<Kind>, f: Bytes, s: Bytes, l: Bytes, j: nat): Bytes
    requires j <= |kinds|
  {
    if j == 0 then 0.0 else KindsSum(kinds, f, s, l, j - 1) + Pick(kinds[j - 1], f, s, l)
  }

  lemma {:induction false} KindsSumByCount(kinds: seq<Kind>, f: Bytes, s: Bytes, l: Bytes, j: nat)
    requires j <= |kinds|
    ensures KindsSum(kinds, f, s, l, j) ==
            Times(CountUpto(kinds, Full, j), f) + Times(CountUpto(kinds, Swa, j), s)
            + Times(CountUpto(kinds, Linear, j), l)
  {
    if j > 0 { KindsSumByCount(kinds, f, s, l, j - 1); }
  }

  lemma {:induction false} TimesZero(n: nat)
    ensures Times(n, 0.0) == 0.0
  {
    if n > 0 { TimesZero(n - 1); }
  }

  /** The layers of one kind hold that kind's part; a kind without layers has nothing to hold. */
  lemma KindHoldsPart(kv: Kv, ctx: nat, kind: Kind)
    ensures Times(Count(kv.kinds, kind), PerKind(kv, ctx, kind)) ==
            match kind case Full => FullPart(kv, ctx) case Swa => SwaPart(kv, ctx) case Linear => StatePerSeq(kv)
  {
    var n := Count(kv.kinds, kind);
    TimesZero(ctx);
    TimesZero(SwaTokens(kv, ctx));
    match kind {
      case Full => if n > 0 { TimesShare(n, FullPart(kv, ctx)); }
      case Swa => if n > 0 { TimesShare(n, SwaPart(kv, ctx)); }
      case Linear => if n > 0 { TimesShare(n, StatePerSeq(kv)); }
    }
  }

  /** The layers of a kv_profile hold one sequence between them. */
  lemma LayersHoldOneSequence(kv: Kv, ctx: nat)
    ensures KindsSum(kv.kinds, PerKind(kv, ctx, Full), PerKind(kv, ctx, Swa), PerKind(kv, ctx, Linear), |kv.kinds|)
            == OneSequence(kv, ctx)
  {
    KindsSumByCount(kv.kinds, PerKind(kv, ctx, Full), PerKind(kv, ctx, Swa), PerKind(kv, ctx, Linear), |kv.kinds|);
    KindHoldsPart(kv, ctx, Full);
    KindHoldsPart(kv, ctx, Swa);
    KindHoldsPart(kv, ctx, Linear);
  }

  lemma {:induction false} KindsSumScales(kinds: seq<Kind>, n: nat, f: Bytes, s: Bytes, l: Bytes, j: nat)
    requires j <= |kinds|
    ensures KindsSum(kinds, Times(n, f), Times(n, s), Times(n, l), j) == Times(n, KindsSum(kinds, f, s, l, j))
  {
    if j > 0 {
      KindsSumScales(kinds, n, f, s, l, j - 1);
      TimesDistributes(n, KindsSum(kinds, f, s, l, j - 1), Pick(kinds[j - 1], f, s, l));
    } else {
      TimesZero(n);
    }
  }

  /** KV bytes of the layers below j. */
  lemma {:induction false} KvSum(m: Model, kinds: seq<Kind>, f: Bytes, s: Bytes, l: Bytes, seqs: nat, j: nat)
    requires j <= Layers(m)
    ensures Sum(KvSpread(m, kinds, f, s, l, seqs), 0, j) ==
            KindsSum(kinds, Times(seqs, f), Times(seqs, s), Times(seqs, l), Min(Min(j, Trunk(m)), |kinds|))
  {
    if j > 0 { KvSum(m, kinds, f, s, l, seqs, j - 1); }
  }

  lemma KvTotal(m: Model, kinds: seq<Kind>, f: Bytes, s: Bytes, l: Bytes, seqs: nat)
    ensures Sum(KvSpread(m, kinds, f, s, l, seqs), 0, Layers(m))
            == Times(seqs, KindsSum(kinds, f, s, l, Min(Trunk(m), |kinds|)))
  {
    KvSum(m, kinds, f, s, l, seqs, Layers(m));
    KindsSumScales(kinds, seqs, f, s, l, Min(Trunk(m), |kinds|));
  }

  /** The kinds from k on hold nothing exactly when the kinds before k hold as much as all up to j. */
  lemma {:induction false} RestIsEmpty(kinds: seq<Kind>, f: Bytes, s: Bytes, l: Bytes, k: nat, j: nat)
    requires k <= j <= |kinds|
    ensures KindsSum(kinds, f, s, l, k) <= KindsSum(kinds, f, s, l, j)
    ensures KindsSum(kinds, f, s, l, k) == KindsSum(kinds, f, s, l, j)
            <==> forall il :: k <= il < j ==> Pick(kinds[il], f, s, l) == 0.0
    decreases j - k
  {
    if k < j { RestIsEmpty(kinds, f, s, l, k, j - 1); }
  }

  lemma TimesInjective(n: nat, x: Bytes, y: Bytes)
    requires n >= 1
    ensures Times(n, x) == Times(n, y) <==> x == y
  {
    TimesIsProduct(n, x);
    TimesIsProduct(n, y);
  }

  /** The cards' KV is seqs times one sequence's exactly when there is no sequence to hold or no
      layer kind past the trunk holds any bytes. */
  lemma KvConserved(m: Model, kv: Kv, ctx: nat, seqs: nat)
    ensures Sum(KvBytes(m, kv, ctx, seqs), 0, Layers(m)) == Times(seqs, OneSequence(kv, ctx))
            <==> seqs == 0 || forall il :: Trunk(m) <= il < |kv.kinds| ==> PerKind(kv, ctx, kv.kinds[il]) == 0.0
  {
    var f, s, l := PerKind(kv, ctx, Full), PerKind(kv, ctx, Swa), PerKind(kv, ctx, Linear);
    var k := Min(Trunk(m), |kv.kinds|);
    KvTotal(m, kv.kinds, f, s, l, seqs);
    LayersHoldOneSequence(kv, ctx);
    RestIsEmpty(kv.kinds, f, s, l, k, |kv.kinds|);
    assert forall il :: 0 <= il < |kv.kinds| ==> Pick(kv.kinds[il], f, s, l) == PerKind(kv, ctx, kv.kinds[il]);
    if seqs > 0 { TimesInjective(seqs, KindsSum(kv.kinds, f, s, l, k), OneSequence(kv, ctx)); }
  }

  /** A config with two layer types and one hidden layer: half of the sequence's KV is on no card. */
  lemma ExtraKindsLoseKv()
    ensures var m := Model(1, 0, Classes(0, 0, 0, 0, 0, 0, 0), 0);
            var kv := Kv([Full, Full], 1.0, 0.0, 0.0, 0, WindowOnly, 1, 0);
            Sum(KvBytes(m, kv, 1, 1), 0, Layers(m)) == 1.0 && Times(1, OneSequence(kv, 1)) == 2.0
  {
    var m := Model(1, 0, Classes(0, 0, 0, 0, 0, 0, 0), 0);
    var kv := Kv([Full, Full], 1.0, 0.0, 0.0, 0, WindowOnly, 1, 0);
    assert Count(kv.kinds, Full) == 2 && Count(kv.kinds, Swa) == 0;
    assert FullPerToken(kv) == 2.0 && FullPart(kv, 1) == 2.0 && SwaPart(kv, 1) == 0.0 && StatePerSeq(kv) == 0.0;
    assert PerKind(kv, 1, Full) == 1.0;
    var b := KvBytes(m, kv, 1, 1);
    assert |b| == 2 && b[0] == Times(1, 1.0) && b[1] == 0.0;
    assert Sum(b, 0, 0) == 0.0 && Sum(b, 0, 1) == 1.0 && Sum(b, 0, 2) == 1.0;
  }

  // ---- fewer sequences and more experts in DRAM are never heavier -----------------------------------

  ghost predicate Served(m: Model) { OutputLayer(m) >= 0 }

  lemma LayerBytesNonNegative(m: Model, kv: Kv, ctx: nat, seqs: nat, nCpu: nat)
    requires Served(m)
    ensures NonNegative(LayerBytes(m, kv, ctx, seqs, nCpu))
  {
  }

  lemma LayerBytesMono(m: Model, kv: Kv, ctx: nat, seqs: nat, seqs': nat, nCpu: nat, nCpu': nat, il: nat)
    requires seqs <= seqs' && nCpu' <= nCpu && il < Layers(m)
    ensures LayerBytes(m, kv, ctx, seqs, nCpu)[il] <= LayerBytes(m, kv, ctx, seqs', nCpu')[il]
  {
    var f, s, l := PerKind(kv, ctx, Full), PerKind(kv, ctx, Swa), PerKind(kv, ctx, Linear);
    KvOfMono(m, kv.kinds, f, s, l, seqs, seqs', il);
  }

  lemma KvOfMono(m: Model, kinds: seq<Kind>, f: Bytes, s: Bytes, l: Bytes, seqs: nat, seqs': nat, il: nat)
    requires seqs <= seqs'
    ensures KvOf(m, kinds, f, s, l, seqs, il) <= KvOf(m, kinds, f, s, l, seqs', il)
  {
    if il < Trunk(m) && il < |kinds| { TimesMono(seqs, seqs', Pick(kinds[il], f, s, l), Pick(kinds[il], f, s, l)); }
  }
}
