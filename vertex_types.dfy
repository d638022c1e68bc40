/** The closed table of vertex-attribute kinds: the byte size of each kind,
    the stride of a list of kinds, and which kinds an affine transform moves. */
module VertexTypes {

  datatype VertexAttribute =
    | Position | Normal | Color | Uv | Tangent | Bitangent
    | Float | Vec2 | Vec3 | Vec4
    | PaddingFloat | PaddingVec2 | PaddingVec3 | PaddingVec4

  /** `sizeof(float)` */
  const FLOAT_SIZE: nat := 4

  /** Byte size of one element of the given kind (`GetVertexTypeSize`). */
  function TypeSize(kind: VertexAttribute): (bytes: nat)
    ensures bytes % FLOAT_SIZE == 0
    ensures FLOAT_SIZE <= bytes <= 4 * FLOAT_SIZE
  {
    match kind
    case PaddingFloat | Float => FLOAT_SIZE
    case Uv | PaddingVec2 | Vec2 => 2 * FLOAT_SIZE
    case Color | PaddingVec4 | Vec4 => 4 * FLOAT_SIZE
    case _ => 3 * FLOAT_SIZE
  }

  /** Number of floats in one element of the given kind. */
  function Arity(kind: VertexAttribute): (floats: nat)
    ensures 1 <= floats <= 4
    ensures floats * FLOAT_SIZE == TypeSize(kind)
  {
    TypeSize(kind) / FLOAT_SIZE
  }

  /** Kinds that `WriteVertexAttribute` passes through the transform (`IsAffectedByTransform`). */
  predicate IsAffectedByTransform(kind: VertexAttribute)
  {
    match kind
    case Position | Tangent | Bitangent => true
    case _ => false
  }

  /** The size table, grouped by the number of floats a kind takes. */
  lemma SizeTable(kind: VertexAttribute)
    ensures Arity(kind) == 1 <==> kind in {Float, PaddingFloat}
    ensures Arity(kind) == 2 <==> kind in {Uv, Vec2, PaddingVec2}
    ensures Arity(kind) == 4 <==> kind in {Color, Vec4, PaddingVec4}
    ensures Arity(kind) == 3 <==> kind in {Position, Normal, Tangent, Bitangent, Vec3, PaddingVec3}
  {
  }

  /** Exactly position, tangent and bitangent are moved by a transform (normal is
      deliberately not), and each of them is a three-float vector, which is what
      the size assertion in `WriteVertexAttribute` needs. */
  lemma TransformAffectedKinds(kind: VertexAttribute)
    ensures IsAffectedByTransform(kind) <==> kind in {Position, Tangent, Bitangent}
    ensures IsAffectedByTransform(kind) ==> TypeSize(kind) == 3 * FLOAT_SIZE && TypeSize(kind) > 2 * FLOAT_SIZE
  {
  }

  /** The stride in bytes of an interleaved vertex whose fields are `kinds`. */
  function Stride(kinds: seq<VertexAttribute>): nat
  {
    if kinds == [] then 0 else Stride(kinds[..|kinds| - 1]) + TypeSize(kinds[|kinds| - 1])
  }

  /** Number of floats in one interleaved vertex. */
  function StrideFloats(kinds: seq<VertexAttribute>): (floats: nat)
    ensures floats * FLOAT_SIZE == Stride(kinds)
  {
    StrideFloatsOf(kinds);
    Stride(kinds) / FLOAT_SIZE
  }

  lemma {:induction false} StrideFloatsOf(kinds: seq<VertexAttribute>)
    ensures Stride(kinds) % FLOAT_SIZE == 0
    ensures Stride(kinds) >= FLOAT_SIZE * |kinds|
  {
    if kinds != [] {
      StrideFloatsOf(kinds[..|kinds| - 1]);
    }
  }

  /** `GetStride`: accumulates the sizes of the listed kinds. */
  method GetStride(kinds: seq<VertexAttribute>) returns (stride: nat)
    ensures stride == Stride(kinds)
  {
    stride := 0;
    for i := 0 to |kinds|
      invariant stride == Stride(kinds[..i])
    {
      assert kinds[..i + 1][..i] == kinds[..i];
      stride := stride + TypeSize(kinds[i]);
    }
    assert kinds[..|kinds|] == kinds;
  }

  /** The stride of a concatenation is the sum of the strides. */
  lemma {:induction false} StrideAppend(a: seq<VertexAttribute>, b: seq<VertexAttribute>)
    ensures Stride(a + b) == Stride(a) + Stride(b)
  {
    if b == [] {
      assert a + b == a;
    } else {
      var b' := b[..|b| - 1];
      assert (a + b)[..|a + b| - 1] == a + b';
      StrideAppend(a, b');
    }
  }

  lemma StrideSingle(k: VertexAttribute)
    ensures Stride([k]) == TypeSize(k)
  {
    assert [k][..0] == [];
  }

  /** How many of `kinds` take `size` bytes. */
  function SizeCount(kinds: seq<VertexAttribute>, size: nat): nat
  {
    if kinds == [] then 0
    else SizeCount(kinds[..|kinds| - 1], size) + (if TypeSize(kinds[|kinds| - 1]) == size then 1 else 0)
  }

  /** The stride is four bytes per one-float kind, eight per two-float kind, and so on. */
  lemma {:induction false} StrideBySize(kinds: seq<VertexAttribute>)
    ensures Stride(kinds) == 4 * SizeCount(kinds, 4) + 8 * SizeCount(kinds, 8)
                             + 12 * SizeCount(kinds, 12) + 16 * SizeCount(kinds, 16)
  {
    if kinds != [] {
      StrideBySize(kinds[..|kinds| - 1]);
    }
  }

  /** The 4-byte kinds of a list, counted from its multiset. */
  lemma {:induction false} FourByteKinds(kinds: seq<VertexAttribute>)
    ensures var m := multiset(kinds); SizeCount(kinds, 4) == m[Float] + m[PaddingFloat]
  {
    if kinds != [] {
      var init := kinds[..|kinds| - 1];
      assert kinds == init + [kinds[|kinds| - 1]];
      FourByteKinds(init);
    }
  }

  /** The 8-byte kinds of a list, counted from its multiset. */
  lemma {:induction false} EightByteKinds(kinds: seq<VertexAttribute>)
    ensures var m := multiset(kinds); SizeCount(kinds, 8) == m[Uv] + m[Vec2] + m[PaddingVec2]
  {
    if kinds != [] {
      var init := kinds[..|kinds| - 1];
      assert kinds == init + [kinds[|kinds| - 1]];
      EightByteKinds(init);
    }
  }

  /** The 12-byte kinds of a list, counted from its multiset. */
  lemma {:induction false} TwelveByteKinds(kinds: seq<VertexAttribute>)
    ensures var m := multiset(kinds); SizeCount(kinds, 12) == m[Position] + m[Normal] + m[Tangent] + m[Bitangent] + m[Vec3] + m[PaddingVec3]
  {
    if kinds != [] {
      var init := kinds[..|kinds| - 1];
      assert kinds == init + [kinds[|kinds| - 1]];
      TwelveByteKinds(init);
    }
  }

  /** The 16-byte kinds of a list, counted from its multiset. */
  lemma {:induction false} SixteenByteKinds(kinds: seq<VertexAttribute>)
    ensures var m := multiset(kinds); SizeCount(kinds, 16) == m[Color] + m[Vec4] + m[PaddingVec4]
  {
    if kinds != [] {
      var init := kinds[..|kinds| - 1];
      assert kinds == init + [kinds[|kinds| - 1]];
      SixteenByteKinds(init);
    }
  }

  /** The stride does not depend on the order of the kinds: lists with the same
      multiset of kinds have the same stride. */
  lemma StridePermutation(a: seq<VertexAttribute>, b: seq<VertexAttribute>)
    requires multiset(a) == multiset(b)
    ensures Stride(a) == Stride(b)
  {
    StrideBySize(a);
    StrideBySize(b);
    FourByteKinds(a);
    FourByteKinds(b);
    EightByteKinds(a);
    EightByteKinds(b);
    TwelveByteKinds(a);
    TwelveByteKinds(b);
    SixteenByteKinds(a);
    SixteenByteKinds(b);
  }
}
