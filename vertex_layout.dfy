/** The Vulkan vertex-input records the two vertex layouts fill in, as plain
    values. A value-initialised record is all zeros: `Undefined` format, location,
    binding and offset 0, per-vertex rate. */
module VulkanRecords {
  import opened Common

  /** `VK_FORMAT_UNDEFINED` and the four 32-bit float vector formats. */
  datatype Format = Undefined | R32 | R32G32 | R32G32B32 | R32G32B32A32

  /** `VK_VERTEX_INPUT_RATE_VERTEX` (0) and `VK_VERTEX_INPUT_RATE_INSTANCE`. */
  datatype InputRate = PerVertex | PerInstance

  /** `VkVertexInputAttributeDescription` */
  datatype AttributeDescription = AttributeDescription(location: nat, binding: nat, format: Format, offset: u32)

  /** `VkVertexInputBindingDescription` */
  datatype BindingDescription = BindingDescription(binding: nat, stride: u32, inputRate: InputRate)

  /** The arrays `VkPipelineVertexInputStateCreateInfo` points at; each count is
      the length of its array. */
  datatype InputState = InputState(attributes: seq<AttributeDescription>, bindings: seq<BindingDescription>)

  const DEFAULT_ATTRIBUTE := AttributeDescription(0, 0, Undefined, 0)
  const DEFAULT_BINDING := BindingDescription(0, 0, PerVertex)

  /** Number of 32-bit float components of a format. */
  function Components(format: Format): nat
  {
    match format
    case Undefined => 0
    case R32 => 1
    case R32G32 => 2
    case R32G32B32 => 3
    case R32G32B32A32 => 4
  }

  /** `std::vector::resize`: cut to `n` entries, or grow with value-initialised ones. */
  function Resize(s: seq<AttributeDescription>, n: nat): (r: seq<AttributeDescription>)
    ensures |r| == n
    ensures forall k :: 0 <= k < n ==> r[k] == if k < |s| then s[k] else DEFAULT_ATTRIBUTE
  {
    if n <= |s| then s[..n] else s + seq(n - |s|, _ => DEFAULT_ATTRIBUTE)
  }
}

/** The vertex layout of the wrapper library: the stride and the attribute
    descriptions derive from the shared size table of `VertexTypes`. */
module WrapperVertexLayout {
  import opened Common
  import opened VertexTypes
  import opened VulkanRecords

  /** The float format with as many components as the kind has floats. */
  function FormatOf(kind: VertexAttribute): (format: Format)
    ensures Components(format) * FLOAT_SIZE == TypeSize(kind)
  {
    match Arity(kind)
    case 1 => R32
    case 2 => R32G32
    case 3 => R32G32B32
    case 4 => R32G32B32A32
  }

  /** What `CreateVertexDescription` writes for entry `i` of a layout. */
  function Described(layout: seq<VertexAttribute>, i: nat): AttributeDescription
    requires i < |layout|
  {
    AttributeDescription(i, 0, FormatOf(layout[i]), Wrap32(Stride(layout[..i])))
  }

  class VertexLayout {
    var layout: seq<VertexAttribute>
    var stride: u32
    var attributeDescriptions: seq<AttributeDescription>
    var bindingDescriptions: seq<BindingDescription>

    /** One binding-description slot, and the attribute descriptions either not
        yet built or built from the layout. */
    ghost predicate Valid()
      reads this
    {
      && |bindingDescriptions| == 1
      && (attributeDescriptions == [] ||
          (|attributeDescriptions| == |layout| &&
           forall i :: 0 <= i < |layout| ==> attributeDescriptions[i] == Described(layout, i)))
    }

    /** Keeps the layout and adds the sizes of its kinds into the 32-bit stride. */
    constructor (layout: seq<VertexAttribute>)
      ensures Valid()
      ensures this.layout == layout && stride == Wrap32(Stride(layout))
      ensures attributeDescriptions == [] && bindingDescriptions == [DEFAULT_BINDING]
    {
      this.layout := layout;
      stride := 0;
      attributeDescriptions := [];
      bindingDescriptions := [DEFAULT_BINDING];
      new;
      for i := 0 to |layout|
        invariant this.layout == layout && attributeDescriptions == [] && bindingDescriptions == [DEFAULT_BINDING]
        invariant stride == Wrap32(Stride(layout[..i]))
      {
        assert layout[..i + 1][..i] == layout[..i];
        WrapAddAssoc(Stride(layout[..i]), 0, TypeSize(layout[i]));
        stride := Wrap32(stride + TypeSize(layout[i]));
      }
      assert layout[..|layout|] == layout;
    }

    function GetStride(): (s: u32)
      reads this
      ensures s == stride
    {
      stride
    }

    function GetLayout(): (l: seq<VertexAttribute>)
      reads this
      ensures l == layout
    {
      layout
    }

    /** Sets the one binding (0, the stride, per vertex) and, for every entry of
        the layout, location `i`, binding 0, the format whose width is the entry's
        size, and the running offset; returns both arrays. */
    method CreateVertexDescription() returns (state: InputState)
      requires Valid()
      modifies this
      ensures Valid() && layout == old(layout) && stride == old(stride)
      ensures bindingDescriptions == [BindingDescription(0, stride, PerVertex)]
      ensures |attributeDescriptions| == |layout|
      ensures forall i :: 0 <= i < |layout| ==> attributeDescriptions[i] == Described(layout, i)
      ensures state == InputState(attributeDescriptions, bindingDescriptions)
    {
      bindingDescriptions := bindingDescriptions[0 := BindingDescription(0, stride, PerVertex)];
      var offset: u32 := 0;
      attributeDescriptions := Resize(attributeDescriptions, |layout|);
      for i := 0 to |layout|
        invariant layout == old(layout) && stride == old(stride)
        invariant bindingDescriptions == [BindingDescription(0, stride, PerVertex)]
        invariant |attributeDescriptions| == |layout|
        invariant forall k :: 0 <= k < i ==> attributeDescriptions[k] == Described(layout, k)
        invariant offset == Wrap32(Stride(layout[..i]))
      {
        var typeSize := TypeSize(layout[i]);
        var format;
        if typeSize == 1 * FLOAT_SIZE {
          format := R32;
        } else if typeSize == 2 * FLOAT_SIZE {
          format := R32G32;
        } else if typeSize == 3 * FLOAT_SIZE {
          format := R32G32B32;
        } else if typeSize == 4 * FLOAT_SIZE {
          format := R32G32B32A32;
        } else {
          assert false;
        }
        assert format == FormatOf(layout[i]);
        attributeDescriptions := attributeDescriptions[i := AttributeDescription(i, 0, format, offset)];
        assert layout[..i + 1][..i] == layout[..i];
        WrapAddAssoc(Stride(layout[..i]), 0, typeSize);
        offset := Wrap32(offset + typeSize);
      }
      state := InputState(attributeDescriptions, bindingDescriptions);
    }
  }

  /** Each format carries exactly the floats of its kind. */
  lemma FormatMatchesSize(kind: VertexAttribute)
    ensures Components(FormatOf(kind)) == Arity(kind)
    ensures kind in {Float, PaddingFloat} ==> FormatOf(kind) == R32
    ensures kind in {Uv, Vec2, PaddingVec2} ==> FormatOf(kind) == R32G32
    ensures kind in {Color, Vec4, PaddingVec4} ==> FormatOf(kind) == R32G32B32A32
    ensures kind in {Position, Normal, Tangent, Bitangent, Vec3, PaddingVec3} ==> FormatOf(kind) == R32G32B32
  {
  }

  /** The prefix of a layout takes no more bytes than the layout, and entry `i`
      ends where the prefix through it ends. */
  lemma PrefixStride(layout: seq<VertexAttribute>, i: nat)
    requires i < |layout|
    ensures Stride(layout[..i + 1]) == Stride(layout[..i]) + TypeSize(layout[i])
    ensures Stride(layout[..i + 1]) <= Stride(layout)
  {
    assert layout[..i + 1][..i] == layout[..i];
    StrideAppend(layout[..i + 1], layout[i + 1..]);
    assert layout[..i + 1] + layout[i + 1..] == layout;
  }

  /** When the stride fits in 32 bits, every attribute lies inside the vertex,
      after every earlier attribute: the offsets are the byte prefix sums. */
  lemma {:induction false} AttributesFit(layout: seq<VertexAttribute>, i: nat, j: nat)
    requires Stride(layout) < U32_LIMIT && j < i < |layout|
    ensures Described(layout, j).offset + TypeSize(layout[j]) <= Described(layout, i).offset
    ensures Described(layout, i).offset + TypeSize(layout[i]) <= Wrap32(Stride(layout))
  {
    PrefixStride(layout, i);
    PrefixStride(layout, j);
    PrefixStride(layout[..i], j);
    assert layout[..i][..j + 1] == layout[..j + 1];
    assert layout[..i][j] == layout[j];
  }

  /** The last attribute ends exactly at the stride: the descriptions cover the
      vertex without a gap at its end. */
  lemma LastAttributeEndsAtStride(layout: seq<VertexAttribute>)
    requires Stride(layout) < U32_LIMIT && layout != []
    ensures Described(layout, |layout| - 1).offset + TypeSize(layout[|layout| - 1]) == Wrap32(Stride(layout))
  {
    PrefixStride(layout, |layout| - 1);
    assert layout[..|layout|] == layout;
  }
}

/** The vertex layout of the engine library, with its own kind list and its own
    size table. */
module EngineVertexLayout {
  import opened Common
  import opened VulkanRecords
  import VertexTypes

  /** `VertexLayout::Types` */
  datatype Kind = Position | Normal | Color | Uv | Tangent | Bitangent | PaddingFloat | PaddingVec4

  predicate IsPadding(kind: Kind)
  {
    kind == PaddingFloat || kind == PaddingVec4
  }

  /** The engine's byte size of a kind: 8 for UV, 4 and 16 for the paddings, and
      12 for every other kind, colour included. */
  function KindSize(kind: Kind): (bytes: nat)
    ensures bytes in {4, 8, 12, 16}
  {
    match kind
    case Uv => 8
    case PaddingFloat => 4
    case PaddingVec4 => 16
    case _ => 12
  }

  function Stride(kinds: seq<Kind>): nat
  {
    if kinds == [] then 0 else Stride(kinds[..|kinds| - 1]) + KindSize(kinds[|kinds| - 1])
  }

  /** What `CreateVertexDescription` leaves in entry `i`: a described kind gets
      location `i`, binding 0, two floats for UV and three otherwise, and the
      running offset; a padding entry stays value-initialised. */
  function Described(layout: seq<Kind>, i: nat): AttributeDescription
    requires i < |layout|
  {
    if IsPadding(layout[i]) then DEFAULT_ATTRIBUTE
    else AttributeDescription(i, 0, if layout[i] == Uv then R32G32 else R32G32B32, Wrap32(Stride(layout[..i])))
  }

  class VertexLayout {
    var layout: seq<Kind>
    var stride: u32
    var attributeDescriptions: seq<AttributeDescription>
    var bindingDescriptions: seq<BindingDescription>

    ghost predicate Valid()
      reads this
    {
      && |bindingDescriptions| == 1
      && (attributeDescriptions == [] ||
          (|attributeDescriptions| == |layout| &&
           forall i :: 0 <= i < |layout| ==> attributeDescriptions[i] == Described(layout, i)))
    }

    /** Keeps the layout and adds each kind's size, by the engine's table, into
        the 32-bit stride. */
    constructor (layout: seq<Kind>)
      ensures Valid()
      ensures this.layout == layout && stride == Wrap32(Stride(layout))
      ensures attributeDescriptions == [] && bindingDescriptions == [DEFAULT_BINDING]
    {
      this.layout := layout;
      stride := 0;
      attributeDescriptions := [];
      bindingDescriptions := [DEFAULT_BINDING];
      new;
      for i := 0 to |layout|
        invariant this.layout == layout && attributeDescriptions == [] && bindingDescriptions == [DEFAULT_BINDING]
        invariant stride == Wrap32(Stride(layout[..i]))
      {
        assert layout[..i + 1][..i] == layout[..i];
        WrapAddAssoc(Stride(layout[..i]), 0, KindSize(layout[i]));
        match layout[i]
        case Uv =>
          stride := Wrap32(stride + 2 * 4);
        case PaddingFloat =>
          stride := Wrap32(stride + 4);
        case PaddingVec4 =>
          stride := Wrap32(stride + 4 * 4);
        case _ =>
          stride := Wrap32(stride + 3 * 4);
      }
      assert layout[..|layout|] == layout;
    }

    function GetStride(): (s: u32)
      reads this
      ensures s == stride
    {
      stride
    }

    /** `GetLayout`: the layout exactly as constructed. */
    function GetLayout(): (l: seq<Kind>)
      reads this
      ensures l == layout
    {
      layout
    }

    /** Sets the binding (0, the stride, per vertex) and describes every
        non-padding entry at the running offset; a padding entry only advances
        the offset. Returns the two arrays. */
    method CreateVertexDescription() returns (state: InputState)
      requires Valid()
      modifies this
      ensures Valid() && layout == old(layout) && stride == old(stride)
      ensures bindingDescriptions == [BindingDescription(0, stride, PerVertex)]
      ensures |attributeDescriptions| == |layout|
      ensures forall i :: 0 <= i < |layout| ==> attributeDescriptions[i] == Described(layout, i)
      ensures state == InputState(attributeDescriptions, bindingDescriptions)
    {
      bindingDescriptions := bindingDescriptions[0 := BindingDescription(0, stride, PerVertex)];
      var offset: u32 := 0;
      attributeDescriptions := Resize(attributeDescriptions, |layout|);
      for i := 0 to |layout|
        invariant layout == old(layout) && stride == old(stride)
        invariant bindingDescriptions == [BindingDescription(0, stride, PerVertex)]
        invariant |attributeDescriptions| == |layout|
        invariant forall k :: 0 <= k < i ==> attributeDescriptions[k] == Described(layout, k)
        invariant forall k :: i <= k < |layout| && IsPadding(layout[k]) ==> attributeDescriptions[k] == DEFAULT_ATTRIBUTE
        invariant offset == Wrap32(Stride(layout[..i]))
      {
        assert layout[..i + 1][..i] == layout[..i];
        WrapAddAssoc(Stride(layout[..i]), 0, KindSize(layout[i]));
        match layout[i]
        case Uv =>
          attributeDescriptions := attributeDescriptions[i := AttributeDescription(i, 0, R32G32, offset)];
          offset := Wrap32(offset + 2 * 4);
        case PaddingFloat =>
          offset := Wrap32(offset + 4);
        case PaddingVec4 =>
          offset := Wrap32(offset + 4 * 4);
        case _ =>
          attributeDescriptions := attributeDescriptions[i := AttributeDescription(i, 0, R32G32B32, offset)];
          offset := Wrap32(offset + 3 * 4);
      }
      state := InputState(attributeDescriptions, bindingDescriptions);
    }
  }

  /** The stride counts every kind at 12 bytes, less 4 per UV and 8 per float
      padding, plus 4 per vec4 padding: it depends only on how often each kind
      occurs. */
  lemma {:induction false} StrideByKinds(kinds: seq<Kind>)
    ensures var m := multiset(kinds);
      Stride(kinds) + 4 * m[Uv] + 8 * m[PaddingFloat] == 12 * |kinds| + 4 * m[PaddingVec4]
  {
    if kinds != [] {
      var init := kinds[..|kinds| - 1];
      assert kinds == init + [kinds[|kinds| - 1]];
      StrideByKinds(init);
    }
  }

  /** The stride does not depend on the order of the layout. */
  lemma StridePermutation(a: seq<Kind>, b: seq<Kind>)
    requires multiset(a) == multiset(b)
    ensures Stride(a) == Stride(b)
  {
    StrideByKinds(a);
    StrideByKinds(b);
    assert |a| == |multiset(a)| == |multiset(b)| == |b|;
  }

  /** Colour takes 12 bytes here, where the shared size table gives it 16, and
      its description is a three-float format. */
  lemma ColorIsThreeFloats(layout: seq<Kind>, i: nat)
    requires i < |layout| && layout[i] == Color
    ensures KindSize(Color) == 12 && VertexTypes.TypeSize(VertexTypes.Color) == 16
    ensures Described(layout, i).format == R32G32B32 && Components(Described(layout, i).format) * 4 == KindSize(Color)
  {
  }

  /** The prefix of a layout takes no more bytes than the layout. */
  lemma {:induction false} PrefixStride(layout: seq<Kind>, i: nat)
    requires i < |layout|
    ensures Stride(layout[..i + 1]) == Stride(layout[..i]) + KindSize(layout[i])
    ensures Stride(layout[..i + 1]) <= Stride(layout)
    decreases |layout|
  {
    assert layout[..i + 1][..i] == layout[..i];
    if i + 1 < |layout| {
      var init := layout[..|layout| - 1];
      assert init[..i + 1] == layout[..i + 1] && init[i] == layout[i];
      PrefixStride(init, i);
    } else {
      assert layout[..i + 1] == layout;
    }
  }

  /** When the stride fits in 32 bits, a described entry's format has as many
      floats as the entry's size, and the entry lies inside the vertex, after
      every earlier entry, padding included: the running offset ends at the
      stride the constructor computed. */
  lemma {:induction false} DescriptionsFit(layout: seq<Kind>, i: nat, j: nat)
    requires Stride(layout) < U32_LIMIT && j < i < |layout|
    ensures !IsPadding(layout[i]) ==> Components(Described(layout, i).format) * 4 == KindSize(layout[i])
    ensures Wrap32(Stride(layout[..j])) + KindSize(layout[j]) <= Wrap32(Stride(layout[..i]))
    ensures Wrap32(Stride(layout[..i])) + KindSize(layout[i]) <= Wrap32(Stride(layout))
  {
    PrefixStride(layout, i);
    PrefixStride(layout[..i], j);
    assert layout[..i][..j + 1] == layout[..j + 1];
    assert layout[..i][..j] == layout[..j];
    assert layout[..i][j] == layout[j];
  }
}
