/** The sort keys of hack/pinver.py: Python tuples of numbers, strings and dpkg strings, compared
    as Python compares them, and the laws of that order. */
module Keys {
  import DpkgOrder

  datatype Key = Num(n: int) | Str(s: string) | Deb(d: string) | Tup(ks: seq<Key>)

  function Rank(k: Key): int { match k case Num(_) => 0 case Str(_) => 1 case Deb(_) => 2 case Tup(_) => 3 }

  /** Strings by code points, a prefix first. */
  function CmpStr(x: string, y: string): (r: int)
    ensures -1 <= r <= 1
  {
    if x == "" || y == "" then DpkgOrder.Sign(|x| - |y|)
    else if x[0] != y[0] then DpkgOrder.Sign(x[0] as int - y[0] as int)
    else CmpStr(x[1..], y[1..])
  }

  /** (a > b) - (a < b). Keys of different types raise TypeError in Python; they are ordered by
      type here, and Typed says that no comparison of one scheme's keys gets that far. */
  function Cmp(a: Key, b: Key): (r: int)
    ensures -1 <= r <= 1
    decreases a, 1
  {
    match (a, b)
    case (Num(x), Num(y)) => DpkgOrder.Sign(x - y)
    case (Str(x), Str(y)) => CmpStr(x, y)
    case (Deb(x), Deb(y)) => DpkgOrder.Compare(x, y)
    case (Tup(x), Tup(y)) => CmpAll(x, y)
    case _ => DpkgOrder.Sign(Rank(a) - Rank(b))
  }

  /** Tuples: the first unequal pair decides, then the length. */
  function CmpAll(x: seq<Key>, y: seq<Key>): (r: int)
    ensures -1 <= r <= 1
    decreases x, 0
  {
    if x == [] || y == [] then DpkgOrder.Sign(|x| - |y|)
    else if Cmp(x[0], y[0]) != 0 then Cmp(x[0], y[0])
    else CmpAll(x[1..], y[1..])
  }

  lemma CmpAllCons(a: Key, x: seq<Key>, b: Key, y: seq<Key>)
    ensures CmpAll([a] + x, [b] + y) == if Cmp(a, b) != 0 then Cmp(a, b) else CmpAll(x, y)
  {
    assert ([a] + x)[1..] == x && ([b] + y)[1..] == y;
  }

  /** Comparing a and b never meets two types. */
  predicate Typed(a: Key, b: Key)
    decreases a, 1
  {
    Rank(a) == Rank(b) && (a.Tup? ==> TypedAll(a.ks, b.ks))
  }

  predicate TypedAll(x: seq<Key>, y: seq<Key>)
    decreases x, 0
  {
    x == [] || y == [] || (Typed(x[0], y[0]) && (Cmp(x[0], y[0]) == 0 ==> TypedAll(x[1..], y[1..])))
  }

  // ---- a total preorder ---------------------------------------------------------------------------

  lemma {:induction false} CmpStrFlip(x: string, y: string)
    ensures CmpStr(y, x) == -CmpStr(x, y)
  {
    if x != "" && y != "" { CmpStrFlip(x[1..], y[1..]); }
  }

  lemma {:induction false} CmpStrTrans(x: string, y: string, z: string)
    requires CmpStr(x, y) <= 0 && CmpStr(y, z) <= 0
    ensures CmpStr(x, z) <= 0
    ensures CmpStr(x, z) == 0 <==> CmpStr(x, y) == 0 && CmpStr(y, z) == 0
  {
    if x != "" && y != "" && z != "" && x[0] == y[0] == z[0] { CmpStrTrans(x[1..], y[1..], z[1..]); }
  }

  lemma {:induction false} CmpFlip(a: Key, b: Key)
    ensures Cmp(b, a) == -Cmp(a, b)
    decreases a, 1
  {
    match (a, b) {
      case (Str(x), Str(y)) => CmpStrFlip(x, y);
      case (Deb(x), Deb(y)) => DpkgOrder.CompareFlip(x, y);
      case (Tup(x), Tup(y)) => CmpAllFlip(x, y);
      case _ =>
    }
  }

  lemma {:induction false} CmpAllFlip(x: seq<Key>, y: seq<Key>)
    ensures CmpAll(y, x) == -CmpAll(x, y)
    decreases x, 0
  {
    if x != [] && y != [] {
      CmpFlip(x[0], y[0]);
      CmpAllFlip(x[1..], y[1..]);
    }
  }

  /** Every key equals itself. */
  lemma CmpRefl(a: Key)
    ensures Cmp(a, a) == 0
  {
    CmpFlip(a, a);
  }

  /** Transitive, strictly where one step is strict. */
  lemma {:induction false} CmpTrans(a: Key, b: Key, c: Key)
    requires Cmp(a, b) <= 0 && Cmp(b, c) <= 0
    ensures Cmp(a, c) <= 0
    ensures Cmp(a, c) == 0 <==> Cmp(a, b) == 0 && Cmp(b, c) == 0
    decreases a, 1
  {
    match (a, b, c) {
      case (Str(x), Str(y), Str(z)) => CmpStrTrans(x, y, z);
      case (Deb(x), Deb(y), Deb(z)) => DpkgOrder.CompareTrans(x, y, z);
      case (Tup(x), Tup(y), Tup(z)) => CmpAllTrans(x, y, z);
      case _ =>
    }
  }

  lemma {:induction false} CmpAllTrans(x: seq<Key>, y: seq<Key>, z: seq<Key>)
    requires CmpAll(x, y) <= 0 && CmpAll(y, z) <= 0
    ensures CmpAll(x, z) <= 0
    ensures CmpAll(x, z) == 0 <==> CmpAll(x, y) == 0 && CmpAll(y, z) == 0
    decreases x, 0
  {
    if x != [] && y != [] && z != [] {
      CmpTrans(x[0], y[0], z[0]);
      if Cmp(x[0], z[0]) == 0 { CmpAllTrans(x[1..], y[1..], z[1..]); }
    }
  }

  // ---- numeric tuples -----------------------------------------------------------------------------

  function Nums(ns: seq<nat>): (ks: seq<Key>)
    ensures |ks| == |ns|
    ensures forall i :: 0 <= i < |ns| ==> ks[i] == Num(ns[i])
  {
    seq(|ns|, i requires 0 <= i < |ns| => Num(ns[i]))
  }

  /** _pad: zeros up to length n; a longer tuple stays as it is. */
  function Pad(ns: seq<nat>, n: nat): (r: seq<nat>)
    ensures |r| == if |ns| >= n then |ns| else n
    ensures forall i :: 0 <= i < |r| ==> r[i] == if i < |ns| then ns[i] else 0
  {
    if |ns| >= n then ns else ns + seq(n - |ns|, _ => 0)
  }

  /** The value at i of a tuple padded with zeros for ever. */
  function At(ns: seq<nat>, i: nat): nat { if i < |ns| then ns[i] else 0 }

  /** Numeric tuples compared with zeros for ever after. */
  function CmpZeros(x: seq<nat>, y: seq<nat>): (r: int)
    ensures -1 <= r <= 1
    decreases |x| + |y|
  {
    if x == [] && y == [] then 0
    else if At(x, 0) != At(y, 0) then DpkgOrder.Sign(At(x, 0) - At(y, 0))
    else CmpZeros(if x == [] then [] else x[1..], if y == [] then [] else y[1..])
  }

  /** The first two numbers never go down. */
  predicate HeadLe(x: seq<nat>, y: seq<nat>)
  {
    At(x, 0) < At(y, 0) || (At(x, 0) == At(y, 0) && At(x, 1) <= At(y, 1))
  }

  /** Tuples of one length compare as if padded with zeros. */
  lemma {:induction false} SameLength(x: seq<nat>, y: seq<nat>)
    requires |x| == |y|
    ensures CmpAll(Nums(x), Nums(y)) == CmpZeros(x, y)
  {
    if x != [] {
      assert Nums(x)[1..] == Nums(x[1..]) && Nums(y)[1..] == Nums(y[1..]);
      SameLength(x[1..], y[1..]);
    }
  }

  /** A tuple without trailing zeros, or of one number. */
  predicate Trimmed(x: seq<nat>) { x != [] && (|x| == 1 || x[|x| - 1] != 0) }

  lemma {:induction false} NothingButZeros(x: seq<nat>)
    requires x != [] && x[|x| - 1] != 0
    ensures CmpZeros(x, []) == 1 && CmpZeros([], x) == -1
  {
    if x[0] == 0 { NothingButZeros(x[1..]); }
  }

  /** Tuples without trailing zeros compare the same with and without padding. */
  lemma {:induction false} TrimmedOrder(x: seq<nat>, y: seq<nat>)
    requires Trimmed(x) && Trimmed(y)
    ensures CmpAll(Nums(x), Nums(y)) == CmpZeros(x, y)
  {
    if x[0] == y[0] {
      assert Nums(x)[1..] == Nums(x[1..]) && Nums(y)[1..] == Nums(y[1..]);
      if |x| > 1 && |y| > 1 {
        TrimmedOrder(x[1..], y[1..]);
      } else if |x| > 1 {
        NothingButZeros(x[1..]);
      } else if |y| > 1 {
        NothingButZeros(y[1..]);
      }
    }
  }

  /** Zeros at the end make no difference to the padded order. */
  lemma {:induction false} ZerosAtEnd(x: seq<nat>, y: seq<nat>, x': seq<nat>, y': seq<nat>)
    requires forall i: nat :: At(x, i) == At(x', i)
    requires forall i: nat :: At(y, i) == At(y', i)
    ensures CmpZeros(x, y) == CmpZeros(x', y')
    decreases |x| + |y| + |x'| + |y'|
  {
    if x != [] || y != [] || x' != [] || y' != [] {
      var d := (z: seq<nat>) => if z == [] then [] else z[1..];
      assert forall i: nat :: At(d(x), i) == At(x, i + 1) && At(d(x'), i) == At(x', i + 1);
      assert forall i: nat :: At(d(y), i) == At(y, i + 1) && At(d(y'), i) == At(y', i + 1);
      ZerosAtEnd(d(x), d(y), d(x'), d(y'));
      assert At(x, 0) == At(x', 0) && At(y, 0) == At(y', 0);
      CmpZerosUnfold(x, y);
      CmpZerosUnfold(x', y');
    }
  }

  lemma CmpZerosUnfold(x: seq<nat>, y: seq<nat>)
    ensures CmpZeros(x, y) ==
            if At(x, 0) != At(y, 0) then DpkgOrder.Sign(At(x, 0) - At(y, 0))
            else CmpZeros(if x == [] then [] else x[1..], if y == [] then [] else y[1..])
  {
  }
}
