/** The layout of a GGUF file's head, written out as an encoder, and the proof that gguf_header's parser
    accepts exactly the bytes that begin with one, and returns what was laid out. */
module GgufLayout {
  import opened Wrappers
  import opened Gguf
  import opened GgufSizes

  // ---- documents ---------------------------------------------------------------------------------

  datatype Item =
    | Plain(t: nat, raw: Bytes)
    | Word(s: Bytes)
    | Numbers(et: nat, cnt: nat, raw: Bytes)
    | Array(et: nat, items: Items)

  datatype Items = End | More(head: Item, rest: Items)

  datatype Doc = Doc(version: nat, pairs: seq<(Bytes, Item)>, infos: seq<Info>)

  function Length(items: Items): nat { match items case End => 0 case More(_, rest) => 1 + Length(rest) }

  function TypeOf(v: Item): nat { match v case Plain(t, _) => t case Word(_) => 8 case _ => 9 }

  /** What the header keeps of a value. */
  function Kept(v: Item): Value
  {
    match v case Plain(t, raw) => Scalar(t, raw) case Word(s) => Str(s) case _ => Nothing
  }

  const U32: nat := 0x1_0000_0000
  const U64: nat := 0x1_0000_0000_0000_0000

  predicate Proper(v: Item)
  {
    match v
    case Plain(t, raw) => ScalarSize(t) == Some(|raw|)
    case Word(s) => |s| <= MAX_STRING
    case Numbers(et, cnt, raw) => ScalarSize(et).Some? && |raw| == ScalarSize(et).value * cnt && cnt < U64
    case Array(et, items) => ScalarSize(et).None? && et < U32 && Length(items) < U64 && AllOf(items, et)
  }

  predicate AllOf(items: Items, et: nat)
  {
    match items case End => true case More(v, rest) => Proper(v) && TypeOf(v) == et && AllOf(rest, et)
  }

  predicate ProperInfo(i: Info)
  {
    |i.name| <= MAX_STRING && |i.dims| <= 8 && (forall k :: 0 <= k < |i.dims| ==> i.dims[k] < U64)
    && i.t < U32 && i.off < U64
  }

  predicate ProperPair(p: (Bytes, Item)) { |p.0| <= MAX_STRING && Proper(p.1) }

  predicate ProperDoc(d: Doc)
  {
    2 <= d.version < U32 && |d.pairs| <= MAX_COUNT && |d.infos| <= MAX_COUNT
    && ProperPairs(d.pairs) && (forall k :: 0 <= k < |d.infos| ==> ProperInfo(d.infos[k]))
  }

  // ---- the layout --------------------------------------------------------------------------------

  /** x in n little-endian bytes. */
  function LeBytes(x: nat, n: nat): (s: Bytes)
    ensures |s| == n
  {
    if n == 0 then [] else [x % 256] + LeBytes(x / 256, n - 1)
  }

  function EncText(s: Bytes): Bytes { LeBytes(|s|, 8) + s }

  function Enc(v: Item): Bytes
  {
    match v
    case Plain(_, raw) => raw
    case Word(s) => EncText(s)
    case Numbers(et, cnt, raw) => LeBytes(et, 4) + (LeBytes(cnt, 8) + raw)
    case Array(et, items) => LeBytes(et, 4) + (LeBytes(Length(items), 8) + EncItems(items))
  }

  function EncItems(items: Items): Bytes { match items case End => [] case More(v, rest) => Enc(v) + EncItems(rest) }

  function EncPair(p: (Bytes, Item)): Bytes { EncText(p.0) + (LeBytes(TypeOf(p.1), 4) + Enc(p.1)) }

  function EncMany<T>(enc: T -> Bytes, xs: seq<T>): Bytes
  {
    if xs == [] then [] else enc(xs[0]) + EncMany(enc, xs[1..])
  }

  function EncDims(ds: seq<nat>): (s: Bytes)
    ensures |s| == 8 * |ds|
  { if ds == [] then [] else LeBytes(ds[0], 8) + EncDims(ds[1..]) }

  function EncInfo(i: Info): Bytes
  {
    EncText(i.name) + (LeBytes(|i.dims|, 4) + (EncDims(i.dims) + (LeBytes(i.t, 4) + LeBytes(i.off, 8))))
  }

  function EncDoc(d: Doc): Bytes
  {
    var body := EncMany(EncPair, d.pairs) + EncMany(EncInfo, d.infos);
    Ascii("GGUF") + (LeBytes(d.version, 4) + (LeBytes(|d.infos|, 8) + (LeBytes(|d.pairs|, 8) + body)))
  }

  /** What is read of each pair. */
  function Values(ps: seq<(Bytes, Item)>): (r: seq<(Bytes, Value)>)
    ensures |r| == |ps| && forall k :: 0 <= k < |ps| ==> r[k] == (ps[k].0, Kept(ps[k].1))
  {
    seq(|ps|, k requires 0 <= k < |ps| => (ps[k].0, Kept(ps[k].1)))
  }

  /** The bytes s stand at pos. */
  predicate At(data: Bytes, pos: nat, s: Bytes) { pos + |s| <= |data| && Agree(data, pos, s, |s|) }

  /** The first n bytes of s are those at pos. */
  predicate Agree(data: Bytes, pos: nat, s: Bytes, n: nat)
    requires pos + |s| <= |data| && n <= |s|
  {
    n == 0 || (s[n - 1] == data[pos + n - 1] && Agree(data, pos, s, n - 1))
  }

  lemma {:induction false} AgreeIff(data: Bytes, pos: nat, s: Bytes, n: nat)
    requires pos + |s| <= |data| && n <= |s|
    ensures Agree(data, pos, s, n) <==> forall i :: 0 <= i < n ==> s[i] == data[pos + i]
  {
    if n > 0 { AgreeIff(data, pos, s, n - 1); }
  }

  lemma AtSlice(data: Bytes, pos: nat, s: Bytes)
    ensures At(data, pos, s) <==> pos + |s| <= |data| && data[pos..pos + |s|] == s
  {
    if pos + |s| <= |data| {
      AgreeIff(data, pos, s, |s|);
      if data[pos..pos + |s|] == s {
        forall i | 0 <= i < |s| ensures s[i] == data[pos + i] { assert data[pos..pos + |s|][i] == s[i]; }
      }
    }
  }

  lemma AtSplit(data: Bytes, pos: nat, s: Bytes, t: Bytes)
    ensures At(data, pos, s + t) <==> At(data, pos, s) && At(data, pos + |s|, t)
  {
    if pos + |s| + |t| <= |data| {
      AgreeIff(data, pos, s + t, |s + t|);
      AgreeIff(data, pos, s, |s|);
      AgreeIff(data, pos + |s|, t, |t|);
      if At(data, pos, s + t) {
        assert forall i :: 0 <= i < |s| ==> s[i] == (s + t)[i];
        assert forall i :: 0 <= i < |t| ==> t[i] == (s + t)[|s| + i] == data[pos + (|s| + i)];
      }
    }
  }

  lemma Cut(data: Bytes, pos: nat, s: Bytes, t: Bytes, mid: nat)
    requires At(data, pos, s + t) && mid == pos + |s|
    ensures At(data, pos, s) && At(data, mid, t)
  {
    AtSplit(data, pos, s, t);
  }

  lemma Join(data: Bytes, pos: nat, s: Bytes, t: Bytes, mid: nat)
    requires At(data, pos, s) && At(data, mid, t) && mid == pos + |s|
    ensures At(data, pos, s + t)
  {
    AtSplit(data, pos, s, t);
  }

  lemma ManyLength<T>(enc: T -> Bytes, x: T, rest: seq<T>)
    ensures EncMany(enc, [x] + rest) == enc(x) + EncMany(enc, rest)
  {
    assert ([x] + rest)[1..] == rest;
  }

  lemma ManyCut<T>(data: Bytes, pos: nat, enc: T -> Bytes, xs: seq<T>, at: nat, end: nat)
    requires xs != [] && at == pos + |enc(xs[0])| && end == pos + |EncMany(enc, xs)| && At(data, pos, EncMany(enc, xs))
    ensures At(data, pos, enc(xs[0])) && At(data, at, EncMany(enc, xs[1..])) && end == at + |EncMany(enc, xs[1..])|
  {
    Cut(data, pos, enc(xs[0]), EncMany(enc, xs[1..]), at);
  }

  lemma ManyJoin<T>(data: Bytes, pos: nat, enc: T -> Bytes, x: T, rest: seq<T>, at: nat, end: nat)
    requires At(data, pos, enc(x)) && At(data, at, EncMany(enc, rest)) && at == pos + |enc(x)|
            && end == at + |EncMany(enc, rest)|
    ensures At(data, pos, EncMany(enc, [x] + rest)) && end == pos + |EncMany(enc, [x] + rest)|
  {
    ManyLength(enc, x, rest);
    Join(data, pos, enc(x), EncMany(enc, rest), at);
  }

  // ---- numbers and strings -----------------------------------------------------------------------

  lemma {:induction false} LeReadsBack(x: nat, n: nat)
    requires x < Pow256(n)
    ensures Le(LeBytes(x, n)) == x
  {
    if n > 0 {
      LeReadsBack(x / 256, n - 1);
      assert LeBytes(x, n)[1..] == LeBytes(x / 256, n - 1);
    }
  }

  lemma LowByte(d: Byte, q: nat)
    ensures (d + 256 * q) % 256 == d && (d + 256 * q) / 256 == q
  {
  }

  lemma {:induction false} LeBound(s: Bytes)
    ensures Le(s) < Pow256(|s|)
  {
    if s != [] { LeBound(s[1..]); }
  }

  lemma {:induction false} LeWritesBack(s: Bytes)
    ensures LeBytes(Le(s), |s|) == s
  {
    if s != [] {
      LeWritesBack(s[1..]);
      LowByte(s[0], Le(s[1..]));
      assert s == [s[0]] + s[1..];
    }
  }

  lemma Widths()
    ensures Pow256(4) == U32 && Pow256(8) == U64
  {
    assert Pow256(2) == 65536;
    assert Pow256(4) == U32;
    assert Pow256(6) == 65536 * U32;
  }

  lemma NumberReads(data: Bytes, pos: nat, x: nat, n: nat)
    requires x < Pow256(n) && At(data, pos, LeBytes(x, n))
    ensures Number(data, pos, n) == Got(x, pos + n)
  {
    LeReadsBack(x, n);
    AtSlice(data, pos, LeBytes(x, n));
  }

  lemma NumberWrites(data: Bytes, pos: nat, x: nat, n: nat)
    requires Number(data, pos, n) == Got(x, pos + n)
    ensures x < Pow256(n) && At(data, pos, LeBytes(x, n))
  {
    LeBound(data[pos..pos + n]);
    LeWritesBack(data[pos..pos + n]);
    AtSlice(data, pos, data[pos..pos + n]);
  }

  lemma Word32Reads(data: Bytes, pos: nat, x: nat)
    requires x < U32 && At(data, pos, LeBytes(x, 4))
    ensures Number(data, pos, 4) == Got(x, pos + 4)
  {
    Widths();
    NumberReads(data, pos, x, 4);
  }

  lemma Word64Reads(data: Bytes, pos: nat, x: nat)
    requires x < U64 && At(data, pos, LeBytes(x, 8))
    ensures Number(data, pos, 8) == Got(x, pos + 8)
  {
    Widths();
    NumberReads(data, pos, x, 8);
  }

  lemma Word32Writes(data: Bytes, pos: nat, x: nat)
    requires Number(data, pos, 4) == Got(x, pos + 4)
    ensures x < U32 && At(data, pos, LeBytes(x, 4))
  {
    Widths();
    NumberWrites(data, pos, x, 4);
  }

  lemma Word64Writes(data: Bytes, pos: nat, x: nat)
    requires Number(data, pos, 8) == Got(x, pos + 8)
    ensures x < U64 && At(data, pos, LeBytes(x, 8))
  {
    Widths();
    NumberWrites(data, pos, x, 8);
  }

  lemma TextReads(data: Bytes, pos: nat, s: Bytes)
    requires |s| <= MAX_STRING && At(data, pos, EncText(s))
    ensures Text(data, pos) == Got(s, pos + |EncText(s)|)
  {
    Cut(data, pos, LeBytes(|s|, 8), s, pos + 8);
    AtSlice(data, pos + 8, s);
    Word64Reads(data, pos, |s|);
  }

  lemma TextWrites(data: Bytes, pos: nat, s: Bytes, at: nat)
    requires Text(data, pos) == Got(s, at)
    ensures |s| <= MAX_STRING && At(data, pos, EncText(s)) && at == pos + |EncText(s)|
  {
    Word64Writes(data, pos, |s|);
    AtSlice(data, pos + 8, s);
    Join(data, pos, LeBytes(|s|, 8), s, pos + 8);
  }

  // ---- values ------------------------------------------------------------------------------------

  lemma {:induction false} ItemHasBytes(v: Item)
    requires Proper(v)
    ensures |Enc(v)| > 0
  {
  }

  lemma {:induction false} ItemsHaveBytes(items: Items, et: nat)
    requires AllOf(items, et)
    ensures |EncItems(items)| >= Length(items)
  {
    match items {
      case End =>
      case More(v, rest) =>
        ItemHasBytes(v);
        ItemsHaveBytes(rest, et);
    }
  }

  lemma {:induction false} ValueReads(data: Bytes, pos: nat, v: Item)
    requires Proper(v) && At(data, pos, Enc(v))
    ensures ReadValue(data, pos, TypeOf(v)) == Got(Kept(v), pos + |Enc(v)|)
    decreases v
  {
    match v {
      case Plain(t, raw) => AtSlice(data, pos, raw);
      case Word(s) => TextReads(data, pos, s);
      case Numbers(et, cnt, raw) =>
        ArrayHead(data, pos, et, cnt, raw);
        Whole(cnt, ScalarSize(et).value);
      case Array(et, items) =>
        ArrayHead(data, pos, et, Length(items), EncItems(items));
        ItemsHaveBytes(items, et);
        ItemsRead(data, pos + 12, et, items, pos + |Enc(v)|);
    }
  }

  lemma Whole(cnt: nat, size: nat)
    requires size > 0
    ensures cnt <= size * cnt
  {
  }

  lemma ArrayHead(data: Bytes, pos: nat, et: nat, cnt: nat, body: Bytes)
    requires et < U32 && cnt < U64 && At(data, pos, LeBytes(et, 4) + (LeBytes(cnt, 8) + body))
    ensures Number(data, pos, 4) == Got(et, pos + 4) && Number(data, pos + 4, 8) == Got(cnt, pos + 12)
    ensures At(data, pos + 12, body)
  {
    Cut(data, pos, LeBytes(et, 4), LeBytes(cnt, 8) + body, pos + 4);
    Cut(data, pos + 4, LeBytes(cnt, 8), body, pos + 12);
    Word32Reads(data, pos, et);
    Word64Reads(data, pos + 4, cnt);
  }

  lemma {:induction false} ItemsRead(data: Bytes, pos: nat, et: nat, items: Items, end: nat)
    requires AllOf(items, et) && At(data, pos, EncItems(items)) && end == pos + |EncItems(items)|
    ensures SkipRun(data, pos, et, Length(items), end)
    decreases items
  {
    match items {
      case End =>
      case More(v, rest) =>
        var at := pos + |Enc(v)|;
        Cut(data, pos, Enc(v), EncItems(rest), at);
        ValueReads(data, pos, v);
        ItemsRead(data, at, et, rest, end);
        SkipJoin(data, pos, et, Length(items), at, end);
    }
  }

  lemma SkipJoin(data: Bytes, pos: nat, et: nat, cnt: nat, at: nat, end: nat)
    requires cnt > 0 && pos <= |data| && ReadValue(data, pos, et).Got? && ReadValue(data, pos, et).at == at
    requires SkipRun(data, at, et, cnt - 1, end)
    ensures SkipRun(data, pos, et, cnt, end)
  {
  }

  /** Whatever value(t) reads is the layout of some value. */
  lemma {:induction false} ValueWrites(data: Bytes, pos: nat, t: nat) returns (v: Item)
    requires ReadValue(data, pos, t).Got?
    ensures Proper(v) && TypeOf(v) == t && At(data, pos, Enc(v))
    ensures ReadValue(data, pos, t) == Got(Kept(v), pos + |Enc(v)|)
    decreases |data| - pos, 0, 1
  {
    if t == 8 {
      v := Word(Text(data, pos).v);
      TextWrites(data, pos, v.s, Text(data, pos).at);
    } else if t == 9 {
      v := ArrayWrites(data, pos);
    } else {
      v := Plain(t, Take(data, pos, ScalarSize(t).value).v);
      AtSlice(data, pos, v.raw);
    }
  }

  lemma {:induction false} ArrayWrites(data: Bytes, pos: nat) returns (v: Item)
    requires ReadValue(data, pos, 9).Got?
    ensures Proper(v) && TypeOf(v) == 9 && At(data, pos, Enc(v))
    ensures ReadValue(data, pos, 9) == Got(Nothing, pos + |Enc(v)|)
    decreases |data| - pos, 0, 0
  {
    var end := ReadValue(data, pos, 9).at;
    var et, cnt := ArrayOpens(data, pos, end);
    if ScalarSize(et).Some? {
      var raw := Take(data, pos + 12, ScalarSize(et).value * cnt).v;
      AtSlice(data, pos + 12, raw);
      ArrayJoin(data, pos, et, cnt, raw);
      v := Numbers(et, cnt, raw);
    } else {
      var items := ItemsWrite(data, pos + 12, et, cnt, end);
      ArrayJoin(data, pos, et, cnt, EncItems(items));
      v := Array(et, items);
    }
  }

  lemma ArrayOpens(data: Bytes, pos: nat, end: nat) returns (et: nat, cnt: nat)
    requires ReadValue(data, pos, 9) == Got(Nothing, end)
    ensures Number(data, pos, 4) == Got(et, pos + 4) && Number(data, pos + 4, 8) == Got(cnt, pos + 12)
    ensures match ScalarSize(et)
            case Some(size) => Take(data, pos + 12, size * cnt).Got? && end == pos + 12 + size * cnt
            case None => SkipRun(data, pos + 12, et, cnt, end)
  {
    et, cnt := Number(data, pos, 4).v, Number(data, pos + 4, 8).v;
    if ScalarSize(et).None? {
      assert SkipValues(data, pos + 12, et, cnt).v == ();
    }
  }

  lemma ArrayJoin(data: Bytes, pos: nat, et: nat, cnt: nat, body: Bytes)
    requires Number(data, pos, 4) == Got(et, pos + 4) && Number(data, pos + 4, 8) == Got(cnt, pos + 12)
    requires At(data, pos + 12, body)
    ensures et < U32 && cnt < U64 && At(data, pos, LeBytes(et, 4) + (LeBytes(cnt, 8) + body))
  {
    Word32Writes(data, pos, et);
    Word64Writes(data, pos + 4, cnt);
    Join(data, pos + 4, LeBytes(cnt, 8), body, pos + 12);
    Join(data, pos, LeBytes(et, 4), LeBytes(cnt, 8) + body, pos + 4);
  }

  lemma {:induction false} ItemsWrite(data: Bytes, pos: nat, et: nat, cnt: nat, end: nat) returns (items: Items)
    requires SkipRun(data, pos, et, cnt, end)
    ensures AllOf(items, et) && Length(items) == cnt && At(data, pos, EncItems(items)) && end == pos + |EncItems(items)|
    decreases |data| - pos, 1, 0
  {
    items := End;
    if cnt > 0 {
      var at := SkipStep(data, pos, et, cnt, end);
      var v := ValueWrites(data, pos, et);
      var rest := ItemsWrite(data, at, et, cnt - 1, end);
      Join(data, pos, Enc(v), EncItems(rest), at);
      items := More(v, rest);
    }
  }

  predicate SkipRun(data: Bytes, pos: nat, et: nat, cnt: nat, end: nat)
  {
    pos <= |data| && SkipValues(data, pos, et, cnt) == Got((), end)
  }

  lemma SkipStep(data: Bytes, pos: nat, et: nat, cnt: nat, end: nat) returns (at: nat)
    requires cnt > 0 && SkipRun(data, pos, et, cnt, end)
    ensures ReadValue(data, pos, et).Got? && ReadValue(data, pos, et).at == at && SkipRun(data, at, et, cnt - 1, end)
  {
    at := ReadValue(data, pos, et).at;
  }

  // ---- pairs -------------------------------------------------------------------------------------

  /** The two reads that make a pair, the key ending at mid. */
  predicate PairRun(data: Bytes, pos: nat, key: Bytes, v: Item, mid: nat, end: nat)
  {
    Text(data, pos) == Got(key, mid) && Number(data, mid, 4) == Got(TypeOf(v), mid + 4)
    && ReadValue(data, mid + 4, TypeOf(v)) == Got(Kept(v), end)
  }

  lemma PairRunReads(data: Bytes, pos: nat, key: Bytes, v: Item, mid: nat, end: nat)
    requires PairRun(data, pos, key, v, mid, end)
    ensures ReadPair(data, pos) == Got((key, Kept(v)), end)
  {
  }

  lemma PairReads(data: Bytes, pos: nat, p: (Bytes, Item), end: nat)
    requires ProperPair(p) && At(data, pos, EncPair(p)) && end == pos + |EncPair(p)|
    ensures ReadPair(data, pos) == Got((p.0, Kept(p.1)), end)
  {
    var mid := pos + |EncText(p.0)|;
    PairCut(data, pos, p.0, p.1, mid, end);
    PairRuns(data, pos, p.0, p.1, mid, end);
    PairRunReads(data, pos, p.0, p.1, mid, end);
  }

  /** The three parts of a pair, laid out. */
  predicate PairAt(data: Bytes, pos: nat, key: Bytes, v: Item, mid: nat, end: nat)
  {
    mid == pos + |EncText(key)| && end == mid + 4 + |Enc(v)|
    && At(data, pos, EncText(key)) && At(data, mid, LeBytes(TypeOf(v), 4)) && At(data, mid + 4, Enc(v))
  }

  lemma PairCut(data: Bytes, pos: nat, key: Bytes, v: Item, mid: nat, end: nat)
    requires At(data, pos, EncPair((key, v))) && mid == pos + |EncText(key)| && end == pos + |EncPair((key, v))|
    ensures PairAt(data, pos, key, v, mid, end)
  {
    Cut(data, pos, EncText(key), LeBytes(TypeOf(v), 4) + Enc(v), mid);
    Cut(data, mid, LeBytes(TypeOf(v), 4), Enc(v), mid + 4);
  }

  lemma PairRuns(data: Bytes, pos: nat, key: Bytes, v: Item, mid: nat, end: nat)
    requires ProperPair((key, v)) && PairAt(data, pos, key, v, mid, end)
    ensures PairRun(data, pos, key, v, mid, end)
  {
    TypeFits(v);
    TextReads(data, pos, key);
    Word32Reads(data, mid, TypeOf(v));
    ValueReads(data, mid + 4, v);
  }

  lemma TypeFits(v: Item)
    requires Proper(v)
    ensures TypeOf(v) < U32
  {
  }

  lemma PairOpens(data: Bytes, pos: nat) returns (key: Bytes, mid: nat, t: nat)
    requires ReadPair(data, pos).Got?
    ensures Text(data, pos) == Got(key, mid) && Number(data, mid, 4) == Got(t, mid + 4)
    ensures ReadValue(data, mid + 4, t).Got?
  {
    var Got(k, m) := Text(data, pos);
    key, mid, t := k, m, Number(data, m, 4).v;
  }

  lemma PairWrites(data: Bytes, pos: nat) returns (p: (Bytes, Item), end: nat)
    requires ReadPair(data, pos).Got?
    ensures ProperPair(p) && At(data, pos, EncPair(p)) && end == pos + |EncPair(p)|
    ensures ReadPair(data, pos) == Got((p.0, Kept(p.1)), end)
  {
    var key, mid, t := PairOpens(data, pos);
    TextWrites(data, pos, key, mid);
    Word32Writes(data, mid, t);
    var v := ValueWrites(data, mid + 4, t);
    p, end := (key, v), mid + 4 + |Enc(v)|;
    PairRunReads(data, pos, key, v, mid, end);
    PairJoin(data, pos, key, v, mid, end);
  }

  lemma PairJoin(data: Bytes, pos: nat, key: Bytes, v: Item, mid: nat, end: nat)
    requires PairAt(data, pos, key, v, mid, end)
    ensures At(data, pos, EncPair((key, v))) && end == pos + |EncPair((key, v))|
  {
    Join(data, mid, LeBytes(TypeOf(v), 4), Enc(v), mid + 4);
    Join(data, pos, EncText(key), LeBytes(TypeOf(v), 4) + Enc(v), mid);
  }

  predicate ProperPairs(ps: seq<(Bytes, Item)>) { forall k :: 0 <= k < |ps| ==> ProperPair(ps[k]) }

  predicate AllRun(data: Bytes, pos: nat, rs: seq<(Bytes, Value)>, end: nat)
  {
    pos <= |data| && ReadAll(data, pos, |rs|) == Got(rs, end)
  }

  lemma AllJoin(data: Bytes, pos: nat, rs: seq<(Bytes, Value)>, at: nat, end: nat)
    requires rs != [] && pos <= |data| && ReadPair(data, pos) == Got(rs[0], at) && AllRun(data, at, rs[1..], end)
    ensures AllRun(data, pos, rs, end)
  {
    assert [rs[0]] + rs[1..] == rs;
  }

  lemma AllCut(data: Bytes, pos: nat, rs: seq<(Bytes, Value)>, end: nat) returns (at: nat)
    requires rs != [] && AllRun(data, pos, rs, end)
    ensures ReadPair(data, pos) == Got(rs[0], at) && AllRun(data, at, rs[1..], end)
  {
    at := ReadPair(data, pos).at;
    assert rs[1..] == ReadAll(data, at, |rs| - 1).v;
  }

  lemma {:induction false} PairsRead(data: Bytes, pos: nat, ps: seq<(Bytes, Item)>, end: nat)
    requires ProperPairs(ps) && At(data, pos, EncMany(EncPair, ps)) && end == pos + |EncMany(EncPair, ps)|
    ensures AllRun(data, pos, Values(ps), end)
    decreases ps
  {
    if ps != [] {
      var at := pos + |EncPair(ps[0])|;
      ManyCut(data, pos, EncPair, ps, at, end);
      PairReads(data, pos, ps[0], at);
      PairsRead(data, at, ps[1..], end);
      assert Values(ps)[1..] == Values(ps[1..]);
      AllJoin(data, pos, Values(ps), at, end);
    }
  }

  /** Pairs laid out of which rs is read. */
  predicate PairsAt(data: Bytes, pos: nat, ps: seq<(Bytes, Item)>, rs: seq<(Bytes, Value)>, end: nat)
  {
    ProperPairs(ps) && Values(ps) == rs && At(data, pos, EncMany(EncPair, ps)) && end == pos + |EncMany(EncPair, ps)|
  }

  lemma PairsCons(p: (Bytes, Item), rest: seq<(Bytes, Item)>)
    requires ProperPair(p) && ProperPairs(rest)
    ensures ProperPairs([p] + rest) && Values([p] + rest) == [(p.0, Kept(p.1))] + Values(rest)
  {
  }

  lemma PairsJoin(data: Bytes, pos: nat, p: (Bytes, Item), at: nat, rest: seq<(Bytes, Item)>,
                  rs: seq<(Bytes, Value)>, end: nat)
    requires ProperPair(p) && At(data, pos, EncPair(p)) && at == pos + |EncPair(p)|
    requires PairsAt(data, at, rest, rs, end)
    ensures PairsAt(data, pos, [p] + rest, [(p.0, Kept(p.1))] + rs, end)
  {
    ManyJoin(data, pos, EncPair, p, rest, at, end);
    PairsCons(p, rest);
  }

  lemma {:induction false} PairsWrite(data: Bytes, pos: nat, rs: seq<(Bytes, Value)>, end: nat)
    returns (ps: seq<(Bytes, Item)>)
    requires AllRun(data, pos, rs, end)
    ensures PairsAt(data, pos, ps, rs, end)
    decreases rs
  {
    if rs == [] {
      ps := [];
    } else {
      var at := AllCut(data, pos, rs, end);
      var p, at' := PairWrites(data, pos);
      var rest := PairsWrite(data, at, rs[1..], end);
      PairsJoin(data, pos, p, at, rest, rs[1..], end);
      assert [rs[0]] + rs[1..] == rs;
      ps := [p] + rest;
    }
  }

  // ---- tensor infos --------------------------------------------------------------------------------

  predicate DimsRun(data: Bytes, pos: nat, ds: seq<nat>, end: nat)
  {
    pos <= |data| && ReadDims(data, pos, |ds|) == Got(ds, end)
  }

  lemma DimsStep(data: Bytes, pos: nat, ds: seq<nat>, end: nat)
    requires ds != [] && Number(data, pos, 8) == Got(ds[0], pos + 8) && DimsRun(data, pos + 8, ds[1..], end)
    ensures DimsRun(data, pos, ds, end)
  {
    assert [ds[0]] + ds[1..] == ds;
  }

  lemma DimsCut(data: Bytes, pos: nat, ds: seq<nat>, end: nat)
    requires ds != [] && DimsRun(data, pos, ds, end)
    ensures Number(data, pos, 8) == Got(ds[0], pos + 8) && DimsRun(data, pos + 8, ds[1..], end)
  {
    assert ds[1..] == ReadDims(data, pos + 8, |ds| - 1).v;
  }

  lemma {:induction false} DimsRead(data: Bytes, pos: nat, ds: seq<nat>, end: nat)
    requires (forall k :: 0 <= k < |ds| ==> ds[k] < U64) && At(data, pos, EncDims(ds)) && end == pos + 8 * |ds|
    ensures DimsRun(data, pos, ds, end)
    decreases ds
  {
    if ds != [] {
      Cut(data, pos, LeBytes(ds[0], 8), EncDims(ds[1..]), pos + 8);
      Word64Reads(data, pos, ds[0]);
      DimsRead(data, pos + 8, ds[1..], end);
      DimsStep(data, pos, ds, end);
    }
  }

  lemma {:induction false} DimsWrite(data: Bytes, pos: nat, ds: seq<nat>, end: nat)
    requires DimsRun(data, pos, ds, end)
    ensures (forall k :: 0 <= k < |ds| ==> ds[k] < U64) && At(data, pos, EncDims(ds)) && end == pos + 8 * |ds|
    decreases ds
  {
    if ds != [] {
      DimsCut(data, pos, ds, end);
      Word64Writes(data, pos, ds[0]);
      DimsWrite(data, pos + 8, ds[1..], end);
      Join(data, pos, LeBytes(ds[0], 8), EncDims(ds[1..]), pos + 8);
      assert ds == [ds[0]] + ds[1..];
    }
  }

  /** The five reads that make an info, the dimensions ending at p. */
  predicate InfoParts(data: Bytes, pos: nat, i: Info, p1: nat, p: nat)
  {
    |i.dims| <= 8
    && Text(data, pos) == Got(i.name, p1) && Number(data, p1, 4) == Got(|i.dims|, p1 + 4)
    && DimsRun(data, p1 + 4, i.dims, p)
    && Number(data, p, 4) == Got(i.t, p + 4) && Number(data, p + 4, 8) == Got(i.off, p + 12)
  }

  lemma InfoFromParts(data: Bytes, pos: nat, i: Info, p1: nat, p: nat)
    requires InfoParts(data, pos, i, p1, p)
    ensures ReadInfo(data, pos) == Got(i, p + 12)
  {
  }

  lemma PartsFromInfo(data: Bytes, pos: nat, i: Info, at: nat) returns (p1: nat, p: nat)
    requires ReadInfo(data, pos) == Got(i, at)
    ensures InfoParts(data, pos, i, p1, p) && at == p + 12
  {
    var Got(name, q1) := Text(data, pos);
    var Got(nd, q2) := Number(data, q1, 4);
    var Got(dims, q3) := ReadDims(data, q2, nd);
    var Got(t, q4) := Number(data, q3, 4);
    var Got(off, q5) := Number(data, q4, 8);
    assert i == Info(name, dims, t, off);
    p1, p := q1, q3;
  }

  /** The five parts of an info, laid out. */
  predicate InfoAt(data: Bytes, pos: nat, i: Info, p1: nat, p: nat)
  {
    p1 == pos + |EncText(i.name)| && p == p1 + 4 + 8 * |i.dims|
    && At(data, pos, EncText(i.name)) && At(data, p1, LeBytes(|i.dims|, 4)) && At(data, p1 + 4, EncDims(i.dims))
    && At(data, p, LeBytes(i.t, 4)) && At(data, p + 4, LeBytes(i.off, 8))
  }

  lemma InfoCut(data: Bytes, pos: nat, i: Info, p1: nat, p: nat)
    requires At(data, pos, EncInfo(i)) && p1 == pos + |EncText(i.name)| && p == p1 + 4 + 8 * |i.dims|
    ensures InfoAt(data, pos, i, p1, p)
  {
    RowCut(data, pos, EncText(i.name), LeBytes(|i.dims|, 4), EncDims(i.dims), LeBytes(i.t, 4), LeBytes(i.off, 8), p1,
           p1 + 4, p, p + 4);
  }

  lemma InfoJoin(data: Bytes, pos: nat, i: Info, p1: nat, p: nat)
    requires InfoAt(data, pos, i, p1, p)
    ensures At(data, pos, EncInfo(i))
  {
    RowJoin(data, pos, EncText(i.name), LeBytes(|i.dims|, 4), EncDims(i.dims), LeBytes(i.t, 4), LeBytes(i.off, 8),
            p1, p1 + 4, p, p + 4);
  }

  lemma InfoLength(i: Info)
    ensures |EncInfo(i)| == |EncText(i.name)| + 16 + 8 * |i.dims|
  {
  }

  /** Five strings in a row, from pos, p1, p2, p3 and p4. */
  predicate Row(pos: nat, a: Bytes, b: Bytes, c: Bytes, d: Bytes, p1: nat, p2: nat, p3: nat, p4: nat)
  {
    p1 == pos + |a| && p2 == p1 + |b| && p3 == p2 + |c| && p4 == p3 + |d|
  }

  lemma RowCut(data: Bytes, pos: nat, a: Bytes, b: Bytes, c: Bytes, d: Bytes, e: Bytes, p1: nat, p2: nat, p3: nat,
               p4: nat)
    requires At(data, pos, a + (b + (c + (d + e)))) && Row(pos, a, b, c, d, p1, p2, p3, p4)
    ensures At(data, pos, a) && At(data, p1, b) && At(data, p2, c) && At(data, p3, d) && At(data, p4, e)
  {
    Cut(data, pos, a, b + (c + (d + e)), p1);
    Cut(data, p1, b, c + (d + e), p2);
    Cut(data, p2, c, d + e, p3);
    Cut(data, p3, d, e, p4);
  }

  lemma RowJoin(data: Bytes, pos: nat, a: Bytes, b: Bytes, c: Bytes, d: Bytes, e: Bytes, p1: nat, p2: nat, p3: nat,
                p4: nat)
    requires At(data, pos, a) && At(data, p1, b) && At(data, p2, c) && At(data, p3, d) && At(data, p4, e)
    requires Row(pos, a, b, c, d, p1, p2, p3, p4)
    ensures At(data, pos, a + (b + (c + (d + e))))
  {
    Join(data, p3, d, e, p4);
    Join(data, p2, c, d + e, p3);
    Join(data, p1, b, c + (d + e), p2);
    Join(data, pos, a, b + (c + (d + e)), p1);
  }

  lemma InfoReads(data: Bytes, pos: nat, i: Info, end: nat)
    requires ProperInfo(i) && At(data, pos, EncInfo(i)) && end == pos + |EncInfo(i)|
    ensures ReadInfo(data, pos) == Got(i, end)
  {
    var p1 := pos + |EncText(i.name)|;
    var p := p1 + 4 + 8 * |i.dims|;
    InfoLength(i);
    InfoCut(data, pos, i, p1, p);
    PartsRead(data, pos, i, p1, p);
    InfoFromParts(data, pos, i, p1, p);
  }

  lemma PartsRead(data: Bytes, pos: nat, i: Info, p1: nat, p: nat)
    requires ProperInfo(i) && InfoAt(data, pos, i, p1, p)
    ensures InfoParts(data, pos, i, p1, p)
  {
    NamesRead(data, pos, i, p1, p);
    TailReads(data, i, p);
  }

  lemma NamesRead(data: Bytes, pos: nat, i: Info, p1: nat, p: nat)
    requires ProperInfo(i) && p1 == pos + |EncText(i.name)| && p == p1 + 4 + 8 * |i.dims|
    requires At(data, pos, EncText(i.name)) && At(data, p1, LeBytes(|i.dims|, 4)) && At(data, p1 + 4, EncDims(i.dims))
    ensures Text(data, pos) == Got(i.name, p1) && Number(data, p1, 4) == Got(|i.dims|, p1 + 4)
    ensures DimsRun(data, p1 + 4, i.dims, p)
  {
    TextReads(data, pos, i.name);
    Word32Reads(data, p1, |i.dims|);
    DimsRead(data, p1 + 4, i.dims, p);
  }

  lemma TailReads(data: Bytes, i: Info, p: nat)
    requires i.t < U32 && i.off < U64 && At(data, p, LeBytes(i.t, 4)) && At(data, p + 4, LeBytes(i.off, 8))
    ensures Number(data, p, 4) == Got(i.t, p + 4) && Number(data, p + 4, 8) == Got(i.off, p + 12)
  {
    Word32Reads(data, p, i.t);
    Word64Reads(data, p + 4, i.off);
  }

  lemma InfoWrites(data: Bytes, pos: nat, i: Info, at: nat)
    requires ReadInfo(data, pos) == Got(i, at)
    ensures ProperInfo(i) && At(data, pos, EncInfo(i)) && at == pos + |EncInfo(i)|
  {
    var p1, p := PartsFromInfo(data, pos, i, at);
    PartsWrite(data, pos, i, p1, p);
    InfoJoin(data, pos, i, p1, p);
    InfoLength(i);
  }

  lemma PartsWrite(data: Bytes, pos: nat, i: Info, p1: nat, p: nat)
    requires InfoParts(data, pos, i, p1, p)
    ensures ProperInfo(i) && InfoAt(data, pos, i, p1, p)
  {
    NamesWrite(data, pos, i, p1, p);
    TailWrites(data, i, p);
  }

  /** The name and the dimensions. */
  lemma NamesWrite(data: Bytes, pos: nat, i: Info, p1: nat, p: nat)
    requires InfoParts(data, pos, i, p1, p)
    ensures |i.name| <= MAX_STRING && (forall k :: 0 <= k < |i.dims| ==> i.dims[k] < U64)
    ensures p1 == pos + |EncText(i.name)| && p == p1 + 4 + 8 * |i.dims|
    ensures At(data, pos, EncText(i.name)) && At(data, p1, LeBytes(|i.dims|, 4)) && At(data, p1 + 4, EncDims(i.dims))
  {
    TextWrites(data, pos, i.name, p1);
    Word32Writes(data, p1, |i.dims|);
    DimsWrite(data, p1 + 4, i.dims, p);
  }

  /** The type and the offset. */
  lemma TailWrites(data: Bytes, i: Info, p: nat)
    requires Number(data, p, 4) == Got(i.t, p + 4) && Number(data, p + 4, 8) == Got(i.off, p + 12)
    ensures i.t < U32 && i.off < U64 && At(data, p, LeBytes(i.t, 4)) && At(data, p + 4, LeBytes(i.off, 8))
  {
    Word32Writes(data, p, i.t);
    Word64Writes(data, p + 4, i.off);
  }

  predicate InfosRun(data: Bytes, pos: nat, infos: seq<Info>, end: nat)
  {
    pos <= |data| && ReadInfos(data, pos, |infos|) == Got(infos, end)
  }

  lemma InfosJoin(data: Bytes, pos: nat, infos: seq<Info>, at: nat, end: nat)
    requires infos != [] && pos <= |data| && ReadInfo(data, pos) == Got(infos[0], at)
    requires InfosRun(data, at, infos[1..], end)
    ensures InfosRun(data, pos, infos, end)
  {
    assert [infos[0]] + infos[1..] == infos;
  }

  lemma InfosCut(data: Bytes, pos: nat, infos: seq<Info>, end: nat) returns (at: nat)
    requires infos != [] && InfosRun(data, pos, infos, end)
    ensures ReadInfo(data, pos) == Got(infos[0], at) && InfosRun(data, at, infos[1..], end)
  {
    at := ReadInfo(data, pos).at;
    assert infos[1..] == ReadInfos(data, at, |infos| - 1).v;
  }

  lemma {:induction false} InfosRead(data: Bytes, pos: nat, infos: seq<Info>, end: nat)
    requires (forall k :: 0 <= k < |infos| ==> ProperInfo(infos[k])) && At(data, pos, EncMany(EncInfo, infos))
    requires end == pos + |EncMany(EncInfo, infos)|
    ensures InfosRun(data, pos, infos, end)
    decreases infos
  {
    if infos != [] {
      var at := pos + |EncInfo(infos[0])|;
      ManyCut(data, pos, EncInfo, infos, at, end);
      InfoReads(data, pos, infos[0], at);
      InfosRead(data, at, infos[1..], end);
      InfosJoin(data, pos, infos, at, end);
    }
  }

  lemma {:induction false} InfosWrite(data: Bytes, pos: nat, infos: seq<Info>, end: nat)
    requires InfosRun(data, pos, infos, end)
    ensures (forall k :: 0 <= k < |infos| ==> ProperInfo(infos[k])) && At(data, pos, EncMany(EncInfo, infos))
    ensures end == pos + |EncMany(EncInfo, infos)|
    decreases infos
  {
    if infos != [] {
      var at := InfosCut(data, pos, infos, end);
      var i, rest := infos[0], infos[1..];
      InfoWrites(data, pos, i, at);
      InfosWrite(data, at, rest, end);
      ManyJoin(data, pos, EncInfo, i, rest, at, end);
      assert infos == [i] + rest;
    }
  }

  // ---- the whole header ----------------------------------------------------------------------------

  /** What a document says. */
  function HeaderOf(d: Doc): Header { Header(Keep(Values(d.pairs), map[]), d.infos) }

  /** The first four reads of a header. */
  predicate HeadParts(data: Bytes, version: nat, nT: nat, nKv: nat)
  {
    24 <= |data| && 2 <= version && nT <= MAX_COUNT && nKv <= MAX_COUNT
    && Take(data, 0, 4) == Got(Ascii("GGUF"), 4) && Number(data, 4, 4) == Got(version, 8)
    && Number(data, 8, 8) == Got(nT, 16) && Number(data, 16, 8) == Got(nKv, 24)
  }

  lemma HeaderFromParts(data: Bytes, version: nat, rs: seq<(Bytes, Value)>, p: nat, infos: seq<Info>, at: nat)
    requires HeadParts(data, version, |infos|, |rs|)
    requires AllRun(data, 24, rs, p) && InfosRun(data, p, infos, at)
    ensures ReadHeader(data) == Got(Header(Keep(rs, map[]), infos), at)
  {
  }

  lemma PartsFromHeader(data: Bytes, h: Header, at: nat) returns (version: nat, rs: seq<(Bytes, Value)>, p: nat)
    requires ReadHeader(data) == Got(h, at)
    ensures HeadParts(data, version, |h.infos|, |rs|) && h.kv == Keep(rs, map[])
    ensures AllRun(data, 24, rs, p) && InfosRun(data, p, h.infos, at)
  {
    version := Number(data, 4, 4).v;
    var Got(all, end) := ReadAll(data, 24, Number(data, 16, 8).v);
    rs, p := all, end;
  }

  /** The document's parts, laid out: the pairs end at p and the infos at at. */
  predicate DocAt(data: Bytes, d: Doc, p: nat, at: nat)
  {
    p == 24 + |EncMany(EncPair, d.pairs)| && at == p + |EncMany(EncInfo, d.infos)|
    && HeadAt(data, d.version, |d.infos|, |d.pairs|)
    && At(data, 24, EncMany(EncPair, d.pairs)) && At(data, p, EncMany(EncInfo, d.infos))
  }

  predicate HeadAt(data: Bytes, version: nat, nT: nat, nKv: nat)
  {
    At(data, 0, Ascii("GGUF")) && At(data, 4, LeBytes(version, 4)) && At(data, 8, LeBytes(nT, 8))
    && At(data, 16, LeBytes(nKv, 8))
  }

  lemma DocCut(data: Bytes, d: Doc, p: nat, at: nat)
    requires At(data, 0, EncDoc(d)) && p == 24 + |EncMany(EncPair, d.pairs)| && at == p + |EncMany(EncInfo, d.infos)|
    ensures DocAt(data, d, p, at)
  {
    var body := EncMany(EncPair, d.pairs) + EncMany(EncInfo, d.infos);
    RowCut(data, 0, Ascii("GGUF"), LeBytes(d.version, 4), LeBytes(|d.infos|, 8), LeBytes(|d.pairs|, 8), body, 4, 8,
           16, 24);
    Cut(data, 24, EncMany(EncPair, d.pairs), EncMany(EncInfo, d.infos), p);
  }

  lemma DocJoin(data: Bytes, d: Doc, p: nat, at: nat)
    requires DocAt(data, d, p, at)
    ensures At(data, 0, EncDoc(d))
  {
    var body := EncMany(EncPair, d.pairs) + EncMany(EncInfo, d.infos);
    Join(data, 24, EncMany(EncPair, d.pairs), EncMany(EncInfo, d.infos), p);
    RowJoin(data, 0, Ascii("GGUF"), LeBytes(d.version, 4), LeBytes(|d.infos|, 8), LeBytes(|d.pairs|, 8), body, 4, 8,
            16, 24);
  }

  lemma DocLength(d: Doc)
    ensures |EncDoc(d)| == 24 + |EncMany(EncPair, d.pairs)| + |EncMany(EncInfo, d.infos)|
  {
  }

  lemma HeadReads(data: Bytes, version: nat, nT: nat, nKv: nat)
    requires 2 <= version < U32 && nT <= MAX_COUNT && nKv <= MAX_COUNT && HeadAt(data, version, nT, nKv)
    ensures HeadParts(data, version, nT, nKv)
  {
    AtSlice(data, 0, Ascii("GGUF"));
    Word32Reads(data, 4, version);
    Word64Reads(data, 8, nT);
    Word64Reads(data, 16, nKv);
  }

  lemma HeadWrites(data: Bytes, version: nat, nT: nat, nKv: nat)
    requires HeadParts(data, version, nT, nKv)
    ensures version < U32 && HeadAt(data, version, nT, nKv)
  {
    AtSlice(data, 0, Ascii("GGUF"));
    Word32Writes(data, 4, version);
    Word64Writes(data, 8, nT);
    Word64Writes(data, 16, nKv);
  }

  /** A file that begins with a laid-out document is read as that document. */
  lemma HeaderReads(data: Bytes, d: Doc)
    requires ProperDoc(d) && At(data, 0, EncDoc(d))
    ensures ReadHeader(data) == Got(HeaderOf(d), |EncDoc(d)|)
  {
    var p := 24 + |EncMany(EncPair, d.pairs)|;
    var at := p + |EncMany(EncInfo, d.infos)|;
    DocCut(data, d, p, at);
    DocLength(d);
    HeadReads(data, d.version, |d.infos|, |d.pairs|);
    PairsRead(data, 24, d.pairs, p);
    InfosRead(data, p, d.infos, at);
    HeaderFromParts(data, d.version, Values(d.pairs), p, d.infos, at);
  }

  /** A file that is read begins with a laid-out document, and is read as that document. */
  lemma HeaderWrites(data: Bytes, h: Header, at: nat) returns (d: Doc)
    requires ReadHeader(data) == Got(h, at)
    ensures ProperDoc(d) && At(data, 0, EncDoc(d)) && h == HeaderOf(d) && at == |EncDoc(d)|
  {
    var version, rs, p := PartsFromHeader(data, h, at);
    HeadWrites(data, version, |h.infos|, |rs|);
    var pairs := PairsWrite(data, 24, rs, p);
    InfosWrite(data, p, h.infos, at);
    d := Doc(version, pairs, h.infos);
    DocJoin(data, d, p, at);
    DocLength(d);
  }

  /** gguf_header reads a header h exactly when the file begins with a document that says h. */
  lemma ReadIffLaidOut(data: Bytes, h: Header, at: nat)
    ensures ReadHeader(data) == Got(h, at) <==>
            exists d :: ProperDoc(d) && At(data, 0, EncDoc(d)) && h == HeaderOf(d) && at == |EncDoc(d)|
  {
    if ReadHeader(data) == Got(h, at) {
      var d := HeaderWrites(data, h, at);
      assert ProperDoc(d) && At(data, 0, EncDoc(d)) && h == HeaderOf(d) && at == |EncDoc(d)|;
    }
    if d :| ProperDoc(d) && At(data, 0, EncDoc(d)) && h == HeaderOf(d) && at == |EncDoc(d)| {
      HeaderReads(data, d);
    }
  }
}
