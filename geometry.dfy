/**
 * Vertex data as the renderer prepares it for upload: flattening fixed-width
 * attribute tuples into one float array, and narrowing index data to 16 bits.
 * Floats are opaque: the renderer only copies them, so an f32 is kept as its
 * bit pattern and nothing computes on it.
 */
module Geometry {

  /** An f32, identified by its 32-bit pattern. */
  datatype Float = F32(bits: bv32)

  newtype u16 = x: int | 0 <= x < 0x1_0000
  newtype u32 = x: int | 0 <= x < 0x1_0000_0000

  /** `[f32; 3]` and `[f32; 2]`: the element types of Float32x3 and Float32x2 attributes. */
  type Vec3 = v: seq<Float> | |v| == 3 witness [F32(0), F32(0), F32(0)]
  type Vec2 = v: seq<Float> | |v| == 2 witness [F32(0), F32(0)]

  /** Vertex attribute storage of a mesh; Other stands for every remaining format. */
  datatype VertexAttributeValues =
    | Float32x2(pairs: seq<Vec2>)
    | Float32x3(triples: seq<Vec3>)
    | Other

  /** Index storage of a mesh: 16-bit or 32-bit. */
  datatype Indices = U16(shorts: seq<u16>) | U32(longs: seq<u32>)

  /** Every tuple in `vs` has exactly `k` components. */
  ghost predicate Uniform<T>(vs: seq<seq<T>>, k: nat)
  {
    forall i :: 0 <= i < |vs| ==> |vs[i]| == k
  }

  /** `iter().map(|t| t.iter()).flatten().collect()`: the tuples laid end to end. */
  function Flatten<T>(vs: seq<seq<T>>): seq<T>
  {
    if vs == [] then [] else vs[0] + Flatten(vs[1..])
  }

  lemma {:induction false} FlattenLength<T>(vs: seq<seq<T>>, k: nat)
    requires Uniform(vs, k)
    ensures |Flatten(vs)| == k * |vs|
  {
    if vs != [] {
      FlattenLength(vs[1..], k);
    }
  }

  /** Where component j of tuple i sits in a flat array of k-tuples. */
  function Slot(k: nat, i: nat, j: nat): nat
  {
    k * i + j
  }

  /** Component j of tuple i lands at position k*i + j of the flat sequence. */
  lemma {:induction false} FlattenAt<T>(vs: seq<seq<T>>, k: nat, i: nat, j: nat)
    requires Uniform(vs, k)
    requires i < |vs| && j < k
    ensures |Flatten(vs)| == k * |vs|
    ensures Slot(k, i, j) < |Flatten(vs)| && Flatten(vs)[Slot(k, i, j)] == vs[i][j]
  {
    FlattenLength(vs, k);
    if i > 0 {
      FlattenAt(vs[1..], k, i - 1, j);
      assert Slot(k, i, j) == k + Slot(k, i - 1, j);
    }
  }

  /** Cuts a flat sequence back into tuples of `k`: the inverse of Flatten. */
  function Unflatten<T>(k: nat, r: seq<T>): (vs: seq<seq<T>>)
    requires k > 0
    decreases |r|
  {
    if |r| <= k then (if r == [] then [] else [r]) else [r[..k]] + Unflatten(k, r[k..])
  }

  lemma {:induction false} UnflattenFlatten<T>(vs: seq<seq<T>>, k: nat)
    requires k > 0 && Uniform(vs, k)
    ensures Unflatten(k, Flatten(vs)) == vs
  {
    if vs != [] {
      var rest := Flatten(vs[1..]);
      assert Flatten(vs) == vs[0] + rest;
      FlattenLength(vs[1..], k);
      if vs[1..] == [] {
        assert rest == [];
        assert Flatten(vs) == vs[0];
      } else {
        assert |rest| >= k;
        assert (vs[0] + rest)[..k] == vs[0];
        assert (vs[0] + rest)[k..] == rest;
        UnflattenFlatten(vs[1..], k);
        assert [vs[0]] + vs[1..] == vs;
      }
    }
  }

  /** The float array uploaded to the position buffer. */
  function FlattenPositions(ps: seq<Vec3>): seq<Float>
  {
    Flatten(ps)
  }

  /** The float array uploaded to the UV buffer. */
  function FlattenUvs(uvs: seq<Vec2>): seq<Float>
  {
    Flatten(uvs)
  }

  /** Three floats per vertex, component j of vertex i at 3i + j, and nothing lost. */
  lemma FlattenPositionsSpec(ps: seq<Vec3>)
    ensures var r := FlattenPositions(ps);
      && |r| == 3 * |ps|
      && (forall i, j :: 0 <= i < |ps| && 0 <= j < 3 ==> r[3 * i + j] == ps[i][j])
      && Unflatten(3, r) == ps
  {
    FlattenAll(ps, 3);
    UnflattenFlatten(ps, 3);
  }

  /** Two floats per texture coordinate, component j of pair i at 2i + j, and nothing lost. */
  lemma FlattenUvsSpec(uvs: seq<Vec2>)
    ensures var r := FlattenUvs(uvs);
      && |r| == 2 * |uvs|
      && (forall i, j :: 0 <= i < |uvs| && 0 <= j < 2 ==> r[2 * i + j] == uvs[i][j])
      && Unflatten(2, r) == uvs
  {
    FlattenAll(uvs, 2);
    UnflattenFlatten(uvs, 2);
  }

  lemma {:induction false} FlattenAll<T>(vs: seq<seq<T>>, k: nat)
    requires Uniform(vs, k)
    ensures |Flatten(vs)| == k * |vs|
    ensures forall i, j :: 0 <= i < |vs| && 0 <= j < k ==>
              Slot(k, i, j) < |Flatten(vs)| && Flatten(vs)[Slot(k, i, j)] == vs[i][j]
  {
    FlattenLength(vs, k);
    forall i: nat, j: nat | i < |vs| && j < k
      ensures Slot(k, i, j) < |Flatten(vs)| && Flatten(vs)[Slot(k, i, j)] == vs[i][j]
    {
      FlattenAt(vs, k, i, j);
    }
  }

  /** Rust's `x as u16` on a u32: the low half-word, what is left once a whole number
      of 65536s (the high half-word) is taken away. */
  function Truncate(x: u32): (r: u16)
    ensures exists hi: u16 :: x as int == HalfWords(hi, r)
  {
    var hi, lo := (x as int / 0x1_0000) as u16, (x as int % 0x1_0000) as u16;
    assert x as int == HalfWords(hi, lo);
    lo
  }

  /** The 32-bit value whose high half-word is `hi` and low half-word is `lo`. */
  function HalfWords(hi: u16, lo: u16): int
  {
    hi as int * 0x1_0000 + lo as int
  }

  /** The half-word split makes the truncated value the remainder mod 65536. */
  lemma TruncateIsMod(x: u32)
    ensures Truncate(x) as int == x as int % 0x1_0000
  {
    var hi: u16 :| x as int == HalfWords(hi, Truncate(x));
  }

  /** `xs.iter().map(|long| *long as u16).collect()`: one u16 per index. */
  function NarrowU32(xs: seq<u32>): (r: seq<u16>)
    ensures |r| == |xs|
  {
    if xs == [] then [] else [Truncate(xs[0])] + NarrowU32(xs[1..])
  }

  lemma {:induction false} NarrowU32At(xs: seq<u32>, i: nat)
    requires i < |xs|
    ensures NarrowU32(xs)[i] as int == xs[i] as int % 0x1_0000
  {
    if i > 0 {
      NarrowU32At(xs[1..], i - 1);
    } else {
      TruncateIsMod(xs[0]);
    }
  }

  lemma {:induction false} NarrowU32All(xs: seq<u32>)
    ensures forall i :: 0 <= i < |xs| ==> NarrowU32(xs)[i] as int == xs[i] as int % 0x1_0000
  {
    forall i | 0 <= i < |xs|
      ensures NarrowU32(xs)[i] as int == xs[i] as int % 0x1_0000
    {
      NarrowU32At(xs, i);
    }
  }

  /** The u16 array uploaded to the index buffer: U16 data as is, U32 data truncated. */
  function IndexData(ix: Indices): (r: seq<u16>)
    ensures |r| == if ix.U16? then |ix.shorts| else |ix.longs|
  {
    match ix
    case U16(xs) => xs
    case U32(xs) => NarrowU32(xs)
  }

  /** U16 indices pass through; U32 indices keep their count and become value mod 65536. */
  lemma IndexDataSpec(ix: Indices)
    ensures ix.U16? ==> IndexData(ix) == ix.shorts
    ensures ix.U32? ==> |IndexData(ix)| == |ix.longs|
    ensures ix.U32? ==> forall i :: 0 <= i < |ix.longs| ==>
              IndexData(ix)[i] as int == ix.longs[i] as int % 0x1_0000
  {
    if ix.U32? {
      NarrowU32All(ix.longs);
    }
  }

  /** Zero-extension of 16-bit indices to 32 bits. */
  function Widen(xs: seq<u16>): seq<u32>
  {
    seq(|xs|, i requires 0 <= i < |xs| => xs[i] as int as u32)
  }

  /** Widening loses nothing: narrowing gives the 16-bit indices back. */
  lemma NarrowWiden(xs: seq<u16>)
    ensures NarrowU32(Widen(xs)) == xs
  {
    var w := Widen(xs);
    NarrowU32All(w);
    forall i | 0 <= i < |xs| ensures NarrowU32(w)[i] == xs[i] {
      assert w[i] as int == xs[i] as int;
    }
  }

  /** Narrowing loses nothing exactly when every index is below 65536. */
  lemma {:induction false} NarrowLossless(xs: seq<u32>)
    ensures Widen(NarrowU32(xs)) == xs <==> forall i :: 0 <= i < |xs| ==> xs[i] < 0x1_0000
  {
    NarrowU32All(xs);
    var w := Widen(NarrowU32(xs));
    assert forall i :: 0 <= i < |xs| ==> w[i] as int == NarrowU32(xs)[i] as int;
    if forall i :: 0 <= i < |xs| ==> xs[i] < 0x1_0000 {
      forall i | 0 <= i < |xs| ensures w[i] == xs[i] {
        assert w[i] as int == xs[i] as int % 0x1_0000;
      }
      assert w == xs;
    } else {
      var i :| 0 <= i < |xs| && xs[i] >= 0x1_0000;
      assert w[i] as int == xs[i] as int % 0x1_0000 < 0x1_0000;
    }
  }

  /** The truncation boundary: index 65536 becomes 0 and so refers to the first vertex. */
  lemma NarrowWraps()
    ensures IndexData(U32([0xFFFF, 0x1_0000, 0x1_0001])) == [0xFFFF, 0, 1]
  {
  }

  /** Rust's `n as i32` on a usize: the i32 congruent to n modulo 2^32. */
  function AsI32(n: nat): (r: int)
    ensures -0x8000_0000 <= r < 0x8000_0000
    ensures (r - n) % 0x1_0000_0000 == 0
    ensures n < 0x8000_0000 ==> r == n
  {
    var w := n % 0x1_0000_0000;
    if w < 0x8000_0000 then w else w - 0x1_0000_0000
  }
}
