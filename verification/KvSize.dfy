/** console/fit.py's KV arithmetic: what one sequence and its context checkpoints take at a
    context length. Bytes are reals, since a quantized element is a fraction of a byte. */
module KvSize {
  import opened Wrappers

  type Bytes = r: real | r >= 0.0

  const GIB: nat := 1073741824
  const LLAMA_UBATCH: nat := 512

  datatype Kind = Full | Swa | Linear

  /** How many tokens a sliding-window layer's cache holds: the window (vLLM), llama.cpp's padded
      window, or the whole context (OVMS). */
  datatype SwaCache = WindowOnly | PaddedWindow | WholeContext

  /** kv_profile: the kind of every layer and what one layer of a kind takes, per token or, for
      a linear layer, per sequence. ckpts is the number of context checkpoints per slot. */
  datatype Kv = Kv(kinds: seq<Kind>, fullLayer: Bytes, swaLayer: Bytes, stateLayer: Bytes,
                   window: nat, swaCache: SwaCache, kvHeads: nat, ckpts: nat)

  /** Layers of a kind among the first j. */
  function CountUpto(kinds: seq<Kind>, kind: Kind, j: nat): nat
    requires j <= |kinds|
  {
    if j == 0 then 0 else CountUpto(kinds, kind, j - 1) + if kinds[j - 1] == kind then 1 else 0
  }

  function Count(kinds: seq<Kind>, kind: Kind): nat { CountUpto(kinds, kind, |kinds|) }

  /** GGML_PAD: n rounded up to a multiple of `to`. */
  function Pad(n: nat, to: nat): nat
    requires to > 0
  {
    (n + to - 1) / to * to
  }

  function SwaTokens(kv: Kv, ctx: nat): nat
  {
    var w := if kv.window == 0 then ctx else kv.window;
    match kv.swaCache
    case WholeContext => ctx
    case PaddedWindow => Min(Pad(ctx, 256), Pad(w + LLAMA_UBATCH, 256))
    case WindowOnly => Min(ctx, w)
  }

  /** n times b, added up: TimesIsProduct says it is the product. */
  function Times(n: nat, b: Bytes): Bytes { if n == 0 then 0.0 else Times(n - 1, b) + b }

  lemma {:induction false} TimesIsProduct(n: nat, b: Bytes)
    ensures Times(n, b) == n as real * b
  {
    if n > 0 { TimesIsProduct(n - 1, b); }
  }

  function FullPerToken(kv: Kv): Bytes { Times(Count(kv.kinds, Full), kv.fullLayer) }

  function SwaPerToken(kv: Kv): Bytes { Times(Count(kv.kinds, Swa), kv.swaLayer) }

  function StatePerSeq(kv: Kv): Bytes { Times(Count(kv.kinds, Linear), kv.stateLayer) }

  /** kv_parts: full attention, sliding window and linear state bytes of one sequence. */
  function FullPart(kv: Kv, ctx: nat): Bytes { Times(ctx, FullPerToken(kv)) }

  function SwaPart(kv: Kv, ctx: nat): Bytes { Times(SwaTokens(kv, ctx), SwaPerToken(kv)) }

  function OneSequence(kv: Kv, ctx: nat): Bytes { FullPart(kv, ctx) + SwaPart(kv, ctx) + StatePerSeq(kv) }

  /** int((f + w) * scale + st * scale): the fraction is dropped. */
  function Scaled(attention: Bytes, state: Bytes, scale: Bytes): int { (attention * scale + state * scale).Floor }

  function PerSeq(kv: Kv, ctx: nat, scale: Bytes): int
  {
    Scaled(FullPart(kv, ctx) + SwaPart(kv, ctx), StatePerSeq(kv), scale)
  }

  /** Host bytes of one slot's context checkpoints. */
  function CkptSeq(kv: Kv, ctx: nat): Bytes { Times(kv.ckpts, SwaPart(kv, ctx) + StatePerSeq(kv)) }

  // ---- a longer context never takes less ------------------------------------------------------

  lemma {:induction false} TimesMono(n: nat, m: nat, a: Bytes, b: Bytes)
    requires n <= m && a <= b
    ensures Times(n, a) <= Times(m, b)
  {
    if m > 0 { TimesMono(if n > 0 then n - 1 else 0, m - 1, a, b); }
  }

  lemma ScaledMono(x: Bytes, y: Bytes, state: Bytes, scale: Bytes)
    requires x <= y
    ensures 0 <= Scaled(x, state, scale) <= Scaled(y, state, scale)
  {
    assert 0.0 <= x * scale <= y * scale;
    assert 0.0 <= state * scale;
  }

  lemma PadMono(n: nat, m: nat)
    requires n <= m
    ensures n <= Pad(n, 256) <= Pad(m, 256)
  {
    assert (n + 255) / 256 <= (m + 255) / 256;
  }

  lemma SwaTokensMono(kv: Kv, ctx: nat, ctx': nat)
    requires ctx <= ctx'
    ensures SwaTokens(kv, ctx) <= SwaTokens(kv, ctx')
  {
    PadMono(ctx, ctx');
    PadMono(ctx + LLAMA_UBATCH, ctx' + LLAMA_UBATCH);
  }

  lemma PartsMono(kv: Kv, ctx: nat, ctx': nat)
    requires ctx <= ctx'
    ensures FullPart(kv, ctx) <= FullPart(kv, ctx') && SwaPart(kv, ctx) <= SwaPart(kv, ctx')
  {
    SwaTokensMono(kv, ctx, ctx');
    TimesMono(ctx, ctx', FullPerToken(kv), FullPerToken(kv));
    TimesMono(SwaTokens(kv, ctx), SwaTokens(kv, ctx'), SwaPerToken(kv), SwaPerToken(kv));
  }

  lemma PerSeqMono(kv: Kv, ctx: nat, ctx': nat, scale: Bytes)
    requires ctx <= ctx'
    ensures 0 <= PerSeq(kv, ctx, scale) <= PerSeq(kv, ctx', scale)
  {
    PartsMono(kv, ctx, ctx');
    ScaledMono(FullPart(kv, ctx) + SwaPart(kv, ctx), FullPart(kv, ctx') + SwaPart(kv, ctx'), StatePerSeq(kv), scale);
  }

  lemma CkptSeqMono(kv: Kv, ctx: nat, ctx': nat)
    requires ctx <= ctx'
    ensures CkptSeq(kv, ctx) <= CkptSeq(kv, ctx')
  {
    PartsMono(kv, ctx, ctx');
    TimesMono(kv.ckpts, kv.ckpts, SwaPart(kv, ctx) + StatePerSeq(kv), SwaPart(kv, ctx') + StatePerSeq(kv));
  }
}
