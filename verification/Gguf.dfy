/** The GGUF header as console/fit.py's gguf_header reads it: a parser over the whole file's bytes. */
module Gguf {
  import opened Wrappers

  type Byte = n: int | 0 <= n < 256

  type Bytes = seq<Byte>

  datatype Error = Truncated | NotGguf | OldVersion | Corrupt | UnknownType | ZeroAlignment

  /** A parsed value and the position after it. */
  datatype P<+T> = Got(v: T, at: nat) | Bad(e: Error)

  /** _Buf.take, on the whole file. */
  function Take(data: Bytes, pos: nat, n: nat): (r: P<Bytes>)
    ensures r.Got? ==> r.at == pos + n <= |data| && |r.v| == n
  {
    if pos + n <= |data| then Got(data[pos..pos + n], pos + n) else Bad(Truncated)
  }

  /** A little-endian number. */
  function Le(s: Bytes): nat { if s == [] then 0 else s[0] + 256 * Le(s[1..]) }

  function Number(data: Bytes, pos: nat, n: nat): (r: P<nat>)
    ensures r.Got? ==> r.at == pos + n <= |data|
  {
    match Take(data, pos, n) case Bad(e) => Bad(e) case Got(b, at) => Got(Le(b), at)
  }

  const MAX_STRING: nat := 0x4000000
  const MAX_COUNT: nat := 0x1000000

  function Text(data: Bytes, pos: nat): (r: P<Bytes>)
    ensures r.Got? ==> pos + 8 <= r.at <= |data|
  {
    match Number(data, pos, 8)
    case Bad(e) => Bad(e)
    case Got(n, at) => if n > MAX_STRING then Bad(Corrupt) else Take(data, at, n)
  }

  /** Bytes of a scalar type id; None for strings, arrays and unknown types. */
  function ScalarSize(t: nat): Option<nat>
  {
    if t == 0 || t == 1 || t == 7 then Some(1)
    else if t == 2 || t == 3 then Some(2)
    else if 4 <= t <= 6 then Some(4)
    else if 10 <= t <= 12 then Some(8)
    else None
  }

  /** What a key-value pair keeps: a scalar's bytes, a string, or nothing of an array. */
  datatype Value = Scalar(t: nat, raw: Bytes) | Str(s: Bytes) | Nothing

  /** value(t). */
  function ReadValue(data: Bytes, pos: nat, t: nat): (r: P<Value>)
    ensures r.Got? ==> pos < r.at <= |data|
    decreases |data| - pos, 0
  {
    if t == 8 then
      match Text(data, pos) case Bad(e) => Bad(e) case Got(s, at) => Got(Str(s), at)
    else if t == 9 then
      match Number(data, pos, 4)
      case Bad(e) => Bad(e)
      case Got(et, mid) =>
        match Number(data, mid, 8)
        case Bad(e) => Bad(e)
        case Got(cnt, at) =>
          if cnt > |data| then Bad(Corrupt)
          else if ScalarSize(et).Some? then
            match Take(data, at, ScalarSize(et).value * cnt) case Bad(e) => Bad(e) case Got(_, end) => Got(Nothing, end)
          else
            match SkipValues(data, at, et, cnt) case Bad(e) => Bad(e) case Got(_, end) => Got(Nothing, end)
    else if ScalarSize(t).None? then Bad(UnknownType)
    else
      match Take(data, pos, ScalarSize(t).value) case Bad(e) => Bad(e) case Got(b, at) => Got(Scalar(t, b), at)
  }

  /** The elements of an array of strings or arrays. */
  function SkipValues(data: Bytes, pos: nat, et: nat, cnt: nat): (r: P<()>)
    requires pos <= |data|
    ensures r.Got? ==> pos <= r.at <= |data|
    decreases |data| - pos, 1
  {
    if cnt == 0 then Got((), pos)
    else
      match ReadValue(data, pos, et)
      case Bad(e) => Bad(e)
      case Got(_, at) => SkipValues(data, at, et, cnt - 1)
  }

  // ---- the header -----------------------------------------------------------------------------------------

  /** The keys the header keeps. */
  const GGUF_KEYS: set<Bytes> :=
    {Ascii("general.architecture"), Ascii("general.alignment"), Ascii("split.no"), Ascii("split.count"),
     Ascii("split.tensors.count")}

  predicate Wanted(key: Bytes) { key in GGUF_KEYS }

  function Ascii(s: string): Bytes { seq(|s|, i requires 0 <= i < |s| => s[i] as int % 256) }

  /** n pairs. */
  function ReadAll(data: Bytes, pos: nat, n: nat): (r: P<seq<(Bytes, Value)>>)
    requires pos <= |data|
    ensures r.Got? ==> pos <= r.at <= |data| && |r.v| == n
    decreases n
  {
    if n == 0 then Got([], pos)
    else
      match ReadPair(data, pos)
      case Bad(e) => Bad(e)
      case Got(p, at) => match ReadAll(data, at, n - 1) case Bad(e) => Bad(e) case Got(ps, end) => Got([p] + ps, end)
  }

  /** The wanted pairs, the later of two with one key winning. */
  function Keep(ps: seq<(Bytes, Value)>, kv: map<Bytes, Value>): map<Bytes, Value>
  {
    if ps == [] then kv else Keep(ps[1..], With(kv, ps[0].0, ps[0].1))
  }

  function With(kv: map<Bytes, Value>, key: Bytes, v: Value): map<Bytes, Value>
  {
    if Wanted(key) && v != Nothing then kv[key := v] else kv
  }

  function ReadPair(data: Bytes, pos: nat): (r: P<(Bytes, Value)>)
    ensures r.Got? ==> pos < r.at <= |data|
  {
    match Text(data, pos)
    case Bad(e) => Bad(e)
    case Got(key, mid) =>
      match Number(data, mid, 4)
      case Bad(e) => Bad(e)
      case Got(t, next) =>
        match ReadValue(data, next, t) case Bad(e) => Bad(e) case Got(v, at) => Got((key, v), at)
  }

  datatype Info = Info(name: Bytes, dims: seq<nat>, t: nat, off: nat)

  function ReadDims(data: Bytes, pos: nat, nd: nat): (r: P<seq<nat>>)
    requires pos <= |data|
    ensures r.Got? ==> r.at == pos + 8 * nd <= |data| && |r.v| == nd
    decreases nd
  {
    if nd == 0 then Got([], pos)
    else
      match Number(data, pos, 8)
      case Bad(e) => Bad(e)
      case Got(d, at) =>
        match ReadDims(data, at, nd - 1) case Bad(e) => Bad(e) case Got(ds, end) => Got([d] + ds, end)
  }

  function ReadInfo(data: Bytes, pos: nat): (r: P<Info>)
    ensures r.Got? ==> pos < r.at <= |data|
  {
    match Text(data, pos)
    case Bad(e) => Bad(e)
    case Got(name, p1) =>
      match Number(data, p1, 4)
      case Bad(e) => Bad(e)
      case Got(nd, p2) =>
        if nd > 8 then Bad(Corrupt)
        else
          match ReadDims(data, p2, nd)
          case Bad(e) => Bad(e)
          case Got(dims, p3) =>
            match Number(data, p3, 4)
            case Bad(e) => Bad(e)
            case Got(t, p4) =>
              match Number(data, p4, 8) case Bad(e) => Bad(e) case Got(off, at) => Got(Info(name, dims, t, off), at)
  }

  function ReadInfos(data: Bytes, pos: nat, n: nat): (r: P<seq<Info>>)
    requires pos <= |data|
    ensures r.Got? ==> pos <= r.at <= |data| && |r.v| == n
    decreases n
  {
    if n == 0 then Got([], pos)
    else
      match ReadInfo(data, pos)
      case Bad(e) => Bad(e)
      case Got(i, at) =>
        match ReadInfos(data, at, n - 1) case Bad(e) => Bad(e) case Got(is_, end) => Got([i] + is_, end)
  }

  datatype Header = Header(kv: map<Bytes, Value>, infos: seq<Info>)

  /** Magic, version, the two counts, the pairs and the tensor infos. */
  function ReadHeader(data: Bytes): (r: P<Header>)
    ensures r.Got? ==> r.at <= |data|
  {
    match Take(data, 0, 4)
    case Bad(e) => Bad(e)
    case Got(magic, p1) =>
      if magic != Ascii("GGUF") then Bad(NotGguf)
      else
        match Number(data, p1, 4)
        case Bad(e) => Bad(e)
        case Got(version, p2) =>
          if version < 2 then Bad(OldVersion)
          else
            match Number(data, p2, 8)
            case Bad(e) => Bad(e)
            case Got(nT, p3) =>
              match Number(data, p3, 8)
              case Bad(e) => Bad(e)
              case Got(nKv, p4) =>
                if nT > MAX_COUNT || nKv > MAX_COUNT then Bad(Corrupt)
                else
                  match ReadAll(data, p4, nKv)
                  case Bad(e) => Bad(e)
                  case Got(ps, p5) =>
                    match ReadInfos(data, p5, nT)
                    case Bad(e) => Bad(e)
                    case Got(infos, at) => Got(Header(Keep(ps, map[]), infos), at)
  }
}
