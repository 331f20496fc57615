/** console/fit.py's _llama_search: the context ladder, the experts moved to DRAM and the
    bisection over sequence counts around the layer splitter. */
module LlamaSearch {
  import opened Wrappers
  import opened KvSize
  import opened LlamaSplit
  import opened LlamaLayers

  const TARGET_SEQS: nat := 4
  const MAX_SEQS: nat := 256

  /** What a search runs on; wantSeqs is 0 when no sequence count was asked for. */
  datatype Query = Query(m: Model, kv: Kv, ladder: seq<nat>, relaxed: bool, wantSeqs: nat,
                         k: nat, room: real, nCpus: seq<nat>)

  datatype Plan = Plan(ctx: nat, seqs: nat, nCpu: nat, ts: seq<nat>)

  predicate Sound(q: Query) { q.k >= 1 && OutputLayer(q.m) >= 0 }

  /** The sequences a context must hold; at the ladder's last rung a relaxed search takes one. */
  function Need(q: Query, ctx: nat): nat
    requires q.ladder != []
  {
    if q.wantSeqs != 0 then q.wantSeqs
    else if q.relaxed && ctx == q.ladder[|q.ladder| - 1] then 1 else TARGET_SEQS
  }

  /** seqs sequences of ctx tokens split over the cards with nCpu layers' experts in DRAM. */
  ghost predicate Splits(q: Query, ctx: nat, seqs: nat, nCpu: nat)
  {
    Splittable(LayerBytes(q.m, q.kv, ctx, seqs, nCpu), q.k, q.room)
  }

  /** Split feasibility is antitone in the sequence count and monotone in the experts moved. */
  lemma SplitsAntitone(q: Query, ctx: nat, seqs: nat, seqs': nat, nCpu: nat, nCpu': nat)
    requires seqs <= seqs' && nCpu' <= nCpu && Splits(q, ctx, seqs', nCpu')
    ensures Splits(q, ctx, seqs, nCpu)
  {
    var b, h := LayerBytes(q.m, q.kv, ctx, seqs, nCpu), LayerBytes(q.m, q.kv, ctx, seqs', nCpu');
    forall il | 0 <= il < |b| ensures b[il] <= h[il] {
      LayerBytesMono(q.m, q.kv, ctx, seqs, seqs', nCpu, nCpu', il);
    }
    SplittableLighter(b, h, q.k, q.room);
  }

  /** The closure split(n) of one ladder rung. */
  method SplitFor(q: Query, ctx: nat, seqs: nat, nCpu: nat) returns (r: Option<seq<nat>>)
    requires Sound(q)
    ensures r.Some? <==> Splits(q, ctx, seqs, nCpu)
    ensures r.Some? ==> IsBest(q, ctx, seqs, nCpu, r.value)
  {
    LayerBytesNonNegative(q.m, q.kv, ctx, seqs, nCpu);
    r := Split(LayerBytes(q.m, q.kv, ctx, seqs, nCpu), q.k, q.room);
  }

  /** ts fits, within 1 MiB of the lightest fit. */
  ghost predicate IsBest(q: Query, ctx: nat, seqs: nat, nCpu: nat, ts: seq<nat>)
  {
    var b := LayerBytes(q.m, q.kv, ctx, seqs, nCpu);
    Fits(b, ts, q.k, q.room) && forall cap: real :: Splittable(b, q.k, cap) ==> Fits(b, ts, q.k, cap + MIB)
  }

  /** As many sequences as split, up to MAX_SEQS; the bisection needs no probe below need. */
  ghost predicate MostSeqs(q: Query, ctx: nat, nCpu: nat, need: nat, n: nat)
  {
    need <= n <= MAX_SEQS && Splits(q, ctx, n, nCpu) && forall n' :: n < n' <= MAX_SEQS ==> !Splits(q, ctx, n', nCpu)
  }

  method CountSeqs(q: Query, ctx: nat, nCpu: nat, need: nat) returns (n: nat)
    requires Sound(q) && 1 <= need <= MAX_SEQS && Splits(q, ctx, need, nCpu)
    ensures MostSeqs(q, ctx, nCpu, need, n)
  {
    var lo, hi := need, MAX_SEQS;
    var top := SplitFor(q, ctx, hi, nCpu);
    if top.Some? {
      lo := hi;
    }
    while hi - lo > 1
      invariant need <= lo <= hi == MAX_SEQS || need <= lo < hi <= MAX_SEQS
      invariant Splits(q, ctx, lo, nCpu)
      invariant lo < hi ==> !Splits(q, ctx, hi, nCpu)
      invariant lo == hi ==> hi == MAX_SEQS
      decreases hi - lo
    {
      var mid := (lo + hi) / 2;
      var t := SplitFor(q, ctx, mid, nCpu);
      if t.Some? { lo := mid; } else { hi := mid; }
    }
    n := lo;
    forall n' | n < n' <= MAX_SEQS ensures !Splits(q, ctx, n', nCpu) {
      if Splits(q, ctx, n', nCpu) { SplitsAntitone(q, ctx, hi, n', nCpu, nCpu); }
    }
  }

  /** No entry of nCpus before j admits the needed sequences at ctx. */
  ghost predicate NoneBefore(q: Query, ctx: nat, j: nat)
    requires q.ladder != [] && j <= |q.nCpus|
  {
    forall j' :: 0 <= j' < j ==> !Splits(q, ctx, Need(q, ctx), q.nCpus[j'])
  }

  /** No rung of the ladder before i admits the needed sequences with any entry of nCpus. */
  ghost predicate NoRungBefore(q: Query, i: nat)
    requires i <= |q.ladder|
  {
    forall i' :: 0 <= i' < i ==> NoneBefore(q, q.ladder[i'], |q.nCpus|)
  }

  /** The plan of rung i and entry j: the first that admits the needed sequences. */
  ghost predicate IsFirst(q: Query, p: Plan, i: nat, j: nat)
  {
    i < |q.ladder| && j < |q.nCpus| && p.ctx == q.ladder[i] && p.nCpu == q.nCpus[j]
    && NoRungBefore(q, i) && NoneBefore(q, p.ctx, j)
    && Splits(q, p.ctx, Need(q, p.ctx), p.nCpu)
  }

  /** _llama_search: the first rung and, there, the fewest layers' experts in DRAM that admit the
      needed sequences, with the sequences asked for or as many as split. */
  method Search(q: Query) returns (r: Option<Plan>)
    requires Sound(q)
    ensures r.None? <==> NoRungBefore(q, |q.ladder|)
    ensures r.Some? ==> exists i, j :: IsFirst(q, r.value, i, j)
    ensures r.Some? && q.wantSeqs != 0 ==> r.value.seqs == q.wantSeqs
    ensures r.Some? && q.wantSeqs == 0
            ==> q.ladder != [] && MostSeqs(q, r.value.ctx, r.value.nCpu, Need(q, r.value.ctx), r.value.seqs)
    ensures r.Some? ==> IsBest(q, r.value.ctx, r.value.seqs, r.value.nCpu, r.value.ts)
  {
    for i := 0 to |q.ladder|
      invariant NoRungBefore(q, i)
    {
      var ctx := q.ladder[i];
      var need := Need(q, ctx);
      for j := 0 to |q.nCpus|
        invariant NoneBefore(q, ctx, j)
      {
        var nCpu := q.nCpus[j];
        var t := SplitFor(q, ctx, need, nCpu);
        if t.Some? {
          var n := q.wantSeqs;
          if n == 0 {
            n := CountSeqs(q, ctx, nCpu, need);
          }
          var best := SplitFor(q, ctx, n, nCpu);
          r := Some(Plan(ctx, n, nCpu, best.value));
          assert IsFirst(q, r.value, i, j);
          return;
        }
      }
    }
    r := None;
  }
}
