/** console/fit.py's _Buf, a sequential reader over a ranged source, and gguf_header on top of it:
    however the source chunks its answers, the header read is the parse of the whole file. */
module GgufRead {
  import opened Wrappers
  import opened Gguf
  import opened GgufSizes

  const MIB: nat := 1048576

  /** The ranges fetched so far, in turn, cover 0..n and no byte twice. */
  ghost predicate Tiles(log: seq<(nat, nat)>, n: nat)
  {
    if log == [] then n == 0
    else
      var (off, len) := log[|log| - 1];
      len > 0 && off + len == n && Tiles(log[..|log| - 1], off)
  }

  /** A file or an HTTP range: a read returns some, but not always all, of the bytes asked for. */
  class Source {
    const data: Bytes
    ghost var log: seq<(nat, nat)>

    constructor (data: Bytes)
      ensures this.data == data && log == []
    {
      this.data, log := data, [];
    }

    method Read(off: nat, n: nat) returns (chunk: Bytes)
      requires 0 < n && off + n <= |data|
      modifies this`log
      ensures 0 < |chunk| <= n && chunk == data[off..off + |chunk|]
      ensures log == old(log) + [(off, |chunk|)]
    {
      var k :| 0 < k <= n;
      chunk := data[off..off + k];
      log := log + [(off, k)];
    }
  }

  datatype Taken = Ok(bytes: Bytes) | Fail

  class Buf {
    const source: Source
    const size: nat
    var pos: nat
    var buf: Bytes
    var base: nat

    ghost predicate Valid()
      reads this, source
    {
      base == 0 && size == |source.data| && pos <= |buf| <= size && buf == source.data[..|buf|]
      && Tiles(source.log, |buf|)
    }

    constructor (source: Source)
      requires source.log == []
      ensures Valid() && pos == 0 && this.source == source
    {
      this.source, size := source, |source.data|;
      pos, buf, base := 0, [], 0;
    }

    /** take: the next n bytes of the file, fetching while the buffer is short; it fails, and takes
        nothing, only when they pass the end of the file. */
    method Take(n: nat) returns (r: Taken)
      requires Valid()
      modifies this, source`log
      ensures Valid() && old(source.log) <= source.log && old(buf) <= buf
      ensures r.Ok? <==> old(pos) + n <= size
      ensures r.Ok? ==> r.bytes == source.data[old(pos)..old(pos) + n] && pos == old(pos) + n
      ensures r.Fail? ==> pos == old(pos)
    {
      while pos + n > base + |buf|
        invariant Valid() && old(source.log) <= source.log && old(buf) <= buf
        invariant pos == old(pos)
        decreases size - |buf|
      {
        var want := Max(n, Max(if |buf| > 0 then |buf| else 4 * MIB, 4 * MIB));
        var start := base + |buf|;
        if start >= size {
          return Fail;
        }
        var chunk := source.Read(start, Min(want, size - start));
        buf := buf + chunk;
        assert source.log[..|source.log| - 1] + [source.log[|source.log| - 1]] == source.log;
      }
      var lo := pos - base;
      pos := pos + n;
      r := Ok(buf[lo..lo + n]);
    }
  }

  // ---- gguf_header on the reader -------------------------------------------------------------------------

  method ReadTake(b: Buf, n: nat) returns (r: P<Bytes>)
    requires b.Valid()
    modifies b, b.source`log
    ensures b.Valid() && r == Gguf.Take(b.source.data, old(b.pos), n)
    ensures r.Got? ==> b.pos == r.at
  {
    var at := b.pos + n;
    var t := b.Take(n);
    r := match t case Fail => Bad(Truncated) case Ok(bytes) => Got(bytes, at);
  }

  method ReadNumber(b: Buf, n: nat) returns (r: P<nat>)
    requires b.Valid()
    modifies b, b.source`log
    ensures b.Valid() && r == Number(b.source.data, old(b.pos), n)
    ensures r.Got? ==> b.pos == r.at
  {
    var t := ReadTake(b, n);
    r := match t case Bad(e) => Bad(e) case Got(bytes, at) => Got(Le(bytes), at);
  }

  /** Two numbers unpacked from one take. */
  method ReadTwo(b: Buf, n: nat, m: nat) returns (r: P<(nat, nat)>)
    requires b.Valid()
    modifies b, b.source`log
    ensures b.Valid() && (r.Got? ==> b.pos == r.at)
    ensures r == TwoNumbers(b.source.data, old(b.pos), n, m)
  {
    ghost var pos, data := b.pos, b.source.data;
    var t := ReadTake(b, n + m);
    if t.Got? {
      CutSlice(data, pos, n, m);
      r := Got((Le(t.v[..n]), Le(t.v[n..])), t.at);
    } else {
      r := Bad(t.e);
    }
  }

  lemma CutSlice(data: Bytes, pos: nat, n: nat, m: nat)
    requires pos + n + m <= |data|
    ensures data[pos..pos + (n + m)][..n] == data[pos..pos + n]
    ensures data[pos..pos + (n + m)][n..] == data[pos + n..pos + n + m]
  {
  }

  /** One number and then another. */
  function TwoNumbers(data: Bytes, pos: nat, n: nat, m: nat): P<(nat, nat)>
  {
    match Number(data, pos, n)
    case Bad(e) => Bad(e)
    case Got(x, mid) => match Number(data, mid, m) case Bad(e) => Bad(e) case Got(y, at) => Got((x, y), at)
  }

  method ReadText(b: Buf) returns (r: P<Bytes>)
    requires b.Valid()
    modifies b, b.source`log
    ensures b.Valid() && r == Text(b.source.data, old(b.pos))
    ensures r.Got? ==> b.pos == r.at
  {
    var n := ReadNumber(b, 8);
    if n.Bad? {
      return Bad(n.e);
    }
    if n.v > MAX_STRING {
      return Bad(Corrupt);
    }
    r := ReadTake(b, n.v);
  }

  /** value(t). */
  method ReadValueAt(b: Buf, t: nat) returns (r: P<Value>)
    requires b.Valid()
    modifies b, b.source`log
    ensures b.Valid() && r == ReadValue(b.source.data, old(b.pos), t)
    ensures r.Got? ==> b.pos == r.at
    decreases b.size - b.pos, 0
  {
    if t == 8 {
      var s := ReadText(b);
      return match s case Bad(e) => Bad(e) case Got(v, at) => Got(Str(v), at);
    }
    if t == 9 {
      var two := ReadTwo(b, 4, 8);
      if two.Bad? {
        return Bad(two.e);
      }
      var (et, cnt) := two.v;
      if cnt > b.size {
        return Bad(Corrupt);
      }
      if ScalarSize(et).Some? {
        var raw := ReadTake(b, ScalarSize(et).value * cnt);
        return match raw case Bad(e) => Bad(e) case Got(_, at) => Got(Nothing, at);
      }
      var rest := SkipAll(b, et, cnt);
      return match rest case Bad(e) => Bad(e) case Got(_, at) => Got(Nothing, at);
    }
    if ScalarSize(t).None? {
      return Bad(UnknownType);
    }
    var raw := ReadTake(b, ScalarSize(t).value);
    r := match raw case Bad(e) => Bad(e) case Got(v, at) => Got(Scalar(t, v), at);
  }

  /** value(t)'s loop over the elements of an array. */
  method SkipAll(b: Buf, et: nat, cnt: nat) returns (r: P<()>)
    requires b.Valid()
    modifies b, b.source`log
    ensures b.Valid() && r == SkipValues(b.source.data, old(b.pos), et, cnt)
    ensures r.Got? ==> b.pos == r.at
    decreases b.size - b.pos, 1
  {
    ghost var all := SkipValues(b.source.data, b.pos, et, cnt);
    for i := 0 to cnt
      invariant b.Valid() && b.pos >= old(b.pos)
      invariant all == SkipValues(b.source.data, b.pos, et, cnt - i)
    {
      var v := ReadValueAt(b, et);
      if v.Bad? {
        return Bad(v.e);
      }
    }
    r := Got((), b.pos);
  }

  method ReadKv(b: Buf, n: nat) returns (r: P<map<Bytes, Value>>)
    requires b.Valid()
    modifies b, b.source`log
    ensures b.Valid() && r == KeepAll(ReadAll(b.source.data, old(b.pos), n), map[])
    ensures r.Got? ==> b.pos == r.at
  {
    var kv: map<Bytes, Value> := map[];
    ghost var all := KeepAll(ReadAll(b.source.data, b.pos, n), kv);
    for i := 0 to n
      invariant b.Valid()
      invariant PairsLeft(all, b.source.data, b.pos, n - i, kv)
    {
      OnePairLeft(all, b.source.data, b.pos, n - i, kv);
      var key := ReadText(b);
      if key.Bad? {
        return Bad(key.e);
      }
      var t := ReadNumber(b, 4);
      if t.Bad? {
        return Bad(t.e);
      }
      var v := ReadValueAt(b, t.v);
      if v.Bad? {
        return Bad(v.e);
      }
      kv := With(kv, key.v, v.v);
    }
    r := Got(kv, b.pos);
  }

  function KeepAll(r: P<seq<(Bytes, Value)>>, kv: map<Bytes, Value>): P<map<Bytes, Value>>
  {
    match r case Bad(e) => Bad(e) case Got(ps, end) => Got(Keep(ps, kv), end)
  }

  /** all is what comes of reading n more pairs at pos into kv. */
  ghost predicate PairsLeft(all: P<map<Bytes, Value>>, data: Bytes, pos: nat, n: nat, kv: map<Bytes, Value>)
  {
    pos <= |data| && all == KeepAll(ReadAll(data, pos, n), kv)
  }

  lemma OnePairLeft(all: P<map<Bytes, Value>>, data: Bytes, pos: nat, n: nat, kv: map<Bytes, Value>)
    requires n > 0 && PairsLeft(all, data, pos, n, kv)
    ensures match ReadPair(data, pos)
            case Bad(e) => all == Bad(e)
            case Got(p, at) => PairsLeft(all, data, at, n - 1, With(kv, p.0, p.1))
  {
    var one := ReadPair(data, pos);
    if one.Got? {
      var more := ReadAll(data, one.at, n - 1);
      if more.Got? { assert ([one.v] + more.v)[1..] == more.v; }
    }
  }

  /** nd dimensions unpacked from one take. */
  function Unpack(b: Bytes, nd: nat): (ds: seq<nat>)
    requires |b| == 8 * nd
    ensures |ds| == nd
  {
    if nd == 0 then [] else [Le(b[..8])] + Unpack(b[8..], nd - 1)
  }

  lemma {:induction false} DimsInOneTake(data: Bytes, pos: nat, nd: nat)
    requires pos <= |data|
    ensures ReadDims(data, pos, nd) ==
            match Gguf.Take(data, pos, 8 * nd) case Bad(e) => Bad(e) case Got(b, at) => Got(Unpack(b, nd), at)
    decreases nd
  {
    if nd > 0 && pos + 8 <= |data| {
      DimsInOneTake(data, pos + 8, nd - 1);
      if pos + 8 * nd <= |data| {
        CutSlice(data, pos, 8, 8 * (nd - 1));
      }
    }
  }

  method ReadInfoAt(b: Buf) returns (r: P<Info>)
    requires b.Valid()
    modifies b, b.source`log
    ensures b.Valid() && r == ReadInfo(b.source.data, old(b.pos))
    ensures r.Got? ==> b.pos == r.at
  {
    var name := ReadText(b);
    if name.Bad? {
      return Bad(name.e);
    }
    var nd := ReadNumber(b, 4);
    if nd.Bad? {
      return Bad(nd.e);
    }
    if nd.v > 8 {
      return Bad(Corrupt);
    }
    DimsInOneTake(b.source.data, b.pos, nd.v);
    var raw := ReadTake(b, 8 * nd.v);
    if raw.Bad? {
      return Bad(raw.e);
    }
    var two := ReadTwo(b, 4, 8);
    r := match two
         case Bad(e) => Bad(e)
         case Got((t, off), at) => Got(Info(name.v, Unpack(raw.v, nd.v), t, off), at);
  }

  method ReadAllInfos(b: Buf, n: nat) returns (r: P<seq<Info>>)
    requires b.Valid()
    modifies b, b.source`log
    ensures b.Valid() && r == ReadInfos(b.source.data, old(b.pos), n)
    ensures r.Got? ==> b.pos == r.at
  {
    var infos: seq<Info> := [];
    ghost var all := ReadInfos(b.source.data, b.pos, n);
    NoneRead(b.source.data, b.pos, n);
    for i := 0 to n
      invariant b.Valid()
      invariant Left(all, infos, b.source.data, b.pos, n - i)
    {
      OneRead(all, infos, b.source.data, b.pos, n - i);
      var info := ReadInfoAt(b);
      if info.Bad? {
        return Bad(info.e);
      }
      infos := infos + [info.v];
    }
    AllRead(all, infos, b.source.data, b.pos);
    r := Got(infos, b.pos);
  }

  /** all is what comes of reading n more infos at pos after those read. */
  ghost predicate Left(all: P<seq<Info>>, read: seq<Info>, data: Bytes, pos: nat, n: nat)
  {
    pos <= |data|
    && all == match ReadInfos(data, pos, n)
              case Bad(e) => Bad(e)
              case Got(more, at) => Got(read + more, at)
  }

  lemma NoneRead(data: Bytes, pos: nat, n: nat)
    requires pos <= |data|
    ensures Left(ReadInfos(data, pos, n), [], data, pos, n)
  {
    var r := ReadInfos(data, pos, n);
    if r.Got? { assert [] + r.v == r.v; }
  }

  lemma OneRead(all: P<seq<Info>>, read: seq<Info>, data: Bytes, pos: nat, n: nat)
    requires n > 0 && Left(all, read, data, pos, n)
    ensures match ReadInfo(data, pos)
            case Bad(e) => all == Bad(e)
            case Got(i, at) => Left(all, read + [i], data, at, n - 1)
  {
    var one := ReadInfo(data, pos);
    if one.Got? {
      var more := ReadInfos(data, one.at, n - 1);
      if more.Got? { assert read + [one.v] + more.v == read + ([one.v] + more.v); }
    }
  }

  lemma AllRead(all: P<seq<Info>>, read: seq<Info>, data: Bytes, pos: nat)
    requires Left(all, read, data, pos, 0)
    ensures all == Got(read, pos)
  {
    assert read + [] == read;
  }

  method ReadWholeHeader(b: Buf) returns (r: P<Header>)
    requires b.Valid() && b.pos == 0
    modifies b, b.source`log
    ensures b.Valid() && r == ReadHeader(b.source.data)
    ensures r.Got? ==> b.pos == r.at
  {
    var magic := ReadTake(b, 4);
    if magic.Bad? {
      return Bad(magic.e);
    }
    if magic.v != Ascii("GGUF") {
      return Bad(NotGguf);
    }
    var version := ReadNumber(b, 4);
    if version.Bad? {
      return Bad(version.e);
    }
    if version.v < 2 {
      return Bad(OldVersion);
    }
    var counts := ReadTwo(b, 8, 8);
    if counts.Bad? {
      return Bad(counts.e);
    }
    var (nT, nKv) := counts.v;
    if nT > MAX_COUNT || nKv > MAX_COUNT {
      return Bad(Corrupt);
    }
    var kv := ReadKv(b, nKv);
    if kv.Bad? {
      return Bad(kv.e);
    }
    var infos := ReadAllInfos(b, nT);
    r := match infos case Bad(e) => Bad(e) case Got(v, at) => Got(Header(kv.v, v), at);
  }

  /** What gguf_header returns. */
  datatype Parsed = Parsed(kv: map<Bytes, Value>, dataStart: int, tensors: seq<(Bytes, int)>, mm: Table)

  /** gguf_header: the header of the file, read through a _Buf over any source. */
  method GgufHeader(source: Source, cls: Bytes -> string) returns (r: P<Parsed>)
    requires source.log == []
    modifies source
    ensures Tiles(source.log, Covered(source.log)) && Covered(source.log) <= |source.data|
    ensures Answers(r, ReadHeader(source.data), |source.data|, cls)
  {
    var b := new Buf(source);
    var h := ReadWholeHeader(b);
    TilesCover(source.log, |b.buf|);
    r := Finish(h, b.size, cls);
  }

  /** The rest of gguf_header, which reads no more bytes. */
  method Finish(h: P<Header>, size: nat, cls: Bytes -> string) returns (r: P<Parsed>)
    ensures Answers(r, h, size, cls)
  {
    if h.Bad? {
      return Bad(h.e);
    }
    var align := Alignment(h.v.kv);
    if align == 0 {
      return Bad(ZeroAlignment);
    }
    r := Lay(h.v, h.at, DataStart(h.at, align), size, cls);
  }

  method Lay(h: Header, at: nat, data: int, size: nat, cls: Bytes -> string) returns (r: P<Parsed>)
    ensures LaidOut(r, h, data, size, cls)
  {
    var tensors, mm := Sizes(ByOffset(h.infos), size - data, cls);
    r := Got(Parsed(h.kv, data, tensors, mm), at);
  }

  /** r is what gguf_header makes of the header h of a file of size bytes. */
  ghost predicate Answers(r: P<Parsed>, h: P<Header>, size: nat, cls: Bytes -> string)
  {
    match h
    case Bad(e) => r == Bad(e)
    case Got(head, at) =>
      var align := Alignment(head.kv);
      if align == 0 then r == Bad(ZeroAlignment) else LaidOut(r, head, DataStart(at, align), size, cls)
  }

  /** The data starts at data, and the sizes are those of the tensors in the order of their offsets. */
  ghost predicate LaidOut(r: P<Parsed>, h: Header, data: int, size: nat, cls: Bytes -> string)
  {
    r.Got? && r.v.kv == h.kv && r.v.dataStart == data
    && Sized(r.v.tensors, r.v.mm, ByOffset(h.infos), size - data, cls)
  }

  /** Where the last fetched range ends. */
  ghost function Covered(log: seq<(nat, nat)>): nat
  {
    if log == [] then 0 else log[|log| - 1].0 + log[|log| - 1].1
  }

  lemma TilesCover(log: seq<(nat, nat)>, n: nat)
    requires Tiles(log, n)
    ensures Covered(log) == n
  {
  }

  function TensorBytes(ts: seq<(Bytes, int)>): int
  {
    if ts == [] then 0 else TensorBytes(ts[..|ts| - 1]) + ts[|ts| - 1].1
  }

  /** The sizes of a header's tensors add up to what the file holds from the first tensor on. */
  lemma HeaderTelescopes(p: Parsed, infos: seq<Info>, room: int, cls: Bytes -> string)
    requires Sized(p.tensors, p.mm, infos, room, cls) && infos != []
    ensures TensorBytes(p.tensors) == room - infos[0].off
  {
    TensorsAddUp(p.tensors, infos, |infos|, room);
    SizesTelescope(infos, |infos|, room);
    assert p.tensors[..|infos|] == p.tensors;
  }

  lemma {:induction false} TensorsAddUp(ts: seq<(Bytes, int)>, infos: seq<Info>, n: nat, room: int)
    requires n <= |infos| == |ts| && forall i :: 0 <= i < |infos| ==> ts[i] == (infos[i].name, SizeOf(infos, i, room))
    ensures TensorBytes(ts[..n]) == SizesUpto(infos, n, room)
  {
    if n > 0 {
      TensorsAddUp(ts, infos, n - 1, room);
      assert ts[..n][..n - 1] == ts[..n - 1];
    }
  }
}
