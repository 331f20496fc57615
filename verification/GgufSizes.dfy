/** console/fit.py's gguf_header after the parse: the data start, every tensor's bytes as the gap to
    the next one, and the bytes per kind of matrix. */
module GgufSizes {
  import opened Gguf

  // ---- where the data starts -----------------------------------------------------------------------

  function Signed(raw: Bytes): int
  {
    if raw != [] && raw[|raw| - 1] >= 128 then Le(raw) - Pow256(|raw|) else Le(raw)
  }

  function Pow256(n: nat): nat { if n == 0 then 1 else 256 * Pow256(n - 1) }

  /** The alignment key when it is an integer or, as in Python, a boolean; 32 otherwise. */
  function Alignment(kv: map<Bytes, Value>): int
  {
    var key := Ascii("general.alignment");
    if key !in kv then 32
    else
      match kv[key]
      case Scalar(t, raw) =>
        if t in [0, 2, 4, 10] then Le(raw)
        else if t in [1, 3, 5, 11] then Signed(raw)
        else if t == 7 then (if raw == [0] then 0 else 1)
        else 32
      case _ => 32
  }

  /** Python's floor division. */
  function FloorDiv(a: int, b: int): int
    requires b != 0
  {
    if b > 0 then a / b else (-a) / (-b)
  }

  function DataStart(pos: nat, align: int): int
    requires align != 0
  {
    FloorDiv(pos + align - 1, align) * align
  }

  /** A positive alignment rounds up to its next multiple. */
  lemma DataStartRoundsUp(pos: nat, align: int)
    requires align > 0
    ensures pos <= DataStart(pos, align) < pos + align
  {
    var x := pos + align - 1;
    assert x == x / align * align + x % align;
  }

  // ---- tensor sizes ------------------------------------------------------------------------------------

  /** Before the first info with a larger offset: equal offsets keep their order. */
  function Insert(x: Info, s: seq<Info>): (r: seq<Info>)
    ensures multiset(r) == multiset(s) + multiset{x}
  {
    if s == [] || x.off <= s[0].off then [x] + s
    else
      assert s == [s[0]] + s[1..];
      [s[0]] + Insert(x, s[1..])
  }

  /** infos.sort by offset. */
  function ByOffset(s: seq<Info>): (r: seq<Info>)
    ensures multiset(r) == multiset(s)
  {
    if s == [] then []
    else
      assert s == [s[0]] + s[1..];
      Insert(s[0], ByOffset(s[1..]))
  }

  predicate Ascending(s: seq<Info>) { forall i, j :: 0 <= i < j < |s| ==> s[i].off <= s[j].off }

  lemma {:induction false} InsertKeepsOrder(x: Info, s: seq<Info>)
    requires Ascending(s)
    ensures Ascending(Insert(x, s))
    ensures forall i :: 0 <= i < |Insert(x, s)| ==>
              (Insert(x, s)[i].off >= x.off || (s != [] && Insert(x, s)[i].off >= s[0].off))
  {
    if s != [] && x.off > s[0].off { InsertKeepsOrder(x, s[1..]); }
  }

  lemma {:induction false} ByOffsetAscends(s: seq<Info>)
    ensures Ascending(ByOffset(s))
  {
    if s != [] {
      ByOffsetAscends(s[1..]);
      InsertKeepsOrder(s[0], ByOffset(s[1..]));
    }
  }

  /** Bytes of tensor i: the gap to the next offset, the last one's to the end of the file. */
  function SizeOf(infos: seq<Info>, i: nat, room: int): int
    requires i < |infos|
  {
    (if i + 1 < |infos| then infos[i + 1].off else room) - infos[i].off
  }

  function SizesUpto(infos: seq<Info>, n: nat, room: int): int
    requires n <= |infos|
  {
    if n == 0 then 0 else SizesUpto(infos, n - 1, room) + SizeOf(infos, n - 1, room)
  }

  /** The sizes telescope to what the file holds after the first tensor's offset. */
  lemma {:induction false} SizesTelescope(infos: seq<Info>, n: nat, room: int)
    requires infos != [] && n <= |infos|
    ensures SizesUpto(infos, n, room) == (if n < |infos| then infos[n].off else room) - infos[0].off
  {
    if n > 0 { SizesTelescope(infos, n - 1, room); }
  }

  /** Sorted, and with the last offset inside the file, no tensor has a negative size. */
  lemma SizesNonNegative(infos: seq<Info>, room: int, i: nat)
    requires Ascending(infos) && i < |infos| && infos[|infos| - 1].off <= room
    ensures SizeOf(infos, i, room) >= 0
  {
  }

  // ---- bytes per kind of matrix ------------------------------------------------------------------------

  datatype Kind = Kind(cls: string, t: nat, nd: nat, align1: nat, align0: nat)

  /** The largest of sizes that divides n, else 1. */
  function AlignOf(n: nat, sizes: seq<nat>): nat
    requires forall i :: 0 <= i < |sizes| ==> sizes[i] > 0
  {
    if sizes == [] then 1 else if n % sizes[0] == 0 then sizes[0] else AlignOf(n, sizes[1..])
  }

  predicate IsMatrix(i: Info) { |i.dims| == 2 || |i.dims| == 3 }

  function KindOf(i: Info, cls: Bytes -> string): Kind
    requires IsMatrix(i)
  {
    Kind(cls(i.name), i.t, |i.dims|, AlignOf(i.dims[1], [32, 8]), AlignOf(i.dims[0], [256, 32, 16]))
  }

  /** A dict's entries, in the order their keys came. */
  type Table = seq<(Kind, int)>

  /** mm[key] = mm.get(key, 0) + v. */
  function AddTo(mm: Table, key: Kind, v: int): Table
  {
    if mm == [] then [(key, v)]
    else if mm[0].0 == key then [(key, mm[0].1 + v)] + mm[1..]
    else [mm[0]] + AddTo(mm[1..], key, v)
  }

  function Total(mm: Table): int { if mm == [] then 0 else mm[0].1 + Total(mm[1..]) }

  function Entry(mm: Table, key: Kind): int
  {
    if mm == [] then 0 else if mm[0].0 == key then mm[0].1 else Entry(mm[1..], key)
  }

  lemma {:induction false} AddToAdds(mm: Table, key: Kind, v: int, other: Kind)
    ensures Total(AddTo(mm, key, v)) == Total(mm) + v
    ensures Entry(AddTo(mm, key, v), other) == Entry(mm, other) + if other == key then v else 0
  {
    if mm != [] && mm[0].0 != key { AddToAdds(mm[1..], key, v, other); }
  }

  /** Bytes of the matrices among the first n tensors, and of those of one kind. */
  function MatrixBytes(infos: seq<Info>, n: nat, room: int): int
    requires n <= |infos|
  {
    if n == 0 then 0
    else MatrixBytes(infos, n - 1, room) + if IsMatrix(infos[n - 1]) then SizeOf(infos, n - 1, room) else 0
  }

  function KindBytes(infos: seq<Info>, n: nat, room: int, cls: Bytes -> string, key: Kind): int
    requires n <= |infos|
  {
    if n == 0 then 0
    else KindBytes(infos, n - 1, room, cls, key)
         + if IsMatrix(infos[n - 1]) && KindOf(infos[n - 1], cls) == key then SizeOf(infos, n - 1, room) else 0
  }

  /** The tensors and the table are those of the first n infos with room bytes of data. */
  ghost predicate SizedTo(tensors: seq<(Bytes, int)>, mm: Table, infos: seq<Info>, n: nat, room: int,
                          cls: Bytes -> string)
  {
    |tensors| == n <= |infos|
    && (forall i :: 0 <= i < n ==> tensors[i] == (infos[i].name, SizeOf(infos, i, room)))
    && Total(mm) == MatrixBytes(infos, n, room)
    && forall key :: Entry(mm, key) == KindBytes(infos, n, room, cls, key)
  }

  ghost predicate Sized(tensors: seq<(Bytes, int)>, mm: Table, infos: seq<Info>, room: int, cls: Bytes -> string)
  {
    SizedTo(tensors, mm, infos, |infos|, room, cls)
  }

  lemma OneSized(tensors: seq<(Bytes, int)>, mm: Table, infos: seq<Info>, n: nat, room: int, cls: Bytes -> string)
    requires SizedTo(tensors, mm, infos, n, room, cls) && n < |infos|
    ensures var size := SizeOf(infos, n, room);
            SizedTo(tensors + [(infos[n].name, size)],
                    if IsMatrix(infos[n]) then AddTo(mm, KindOf(infos[n], cls), size) else mm, infos, n + 1, room, cls)
  {
    if IsMatrix(infos[n]) {
      var size, key := SizeOf(infos, n, room), KindOf(infos[n], cls);
      AddToAdds(mm, key, size, key);
      forall other ensures Entry(AddTo(mm, key, size), other) == Entry(mm, other) + if other == key then size else 0 {
        AddToAdds(mm, key, size, other);
      }
    }
  }

  /** The last loop of gguf_header. */
  method Sizes(infos: seq<Info>, room: int, cls: Bytes -> string) returns (tensors: seq<(Bytes, int)>, mm: Table)
    ensures Sized(tensors, mm, infos, room, cls)
  {
    tensors, mm := [], [];
    for i := 0 to |infos|
      invariant SizedTo(tensors, mm, infos, i, room, cls)
    {
      OneSized(tensors, mm, infos, i, room, cls);
      var size := (if i + 1 < |infos| then infos[i + 1].off else room) - infos[i].off;
      tensors := tensors + [(infos[i].name, size)];
      if IsMatrix(infos[i]) {
        mm := AddTo(mm, KindOf(infos[i], cls), size);
      }
    }
  }
}
