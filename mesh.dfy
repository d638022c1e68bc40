/** The vertex composer `Mesh`: independently sized per-kind float arrays, a
    list of kinds that may be padded with their last element, and one index
    list. `CreateVerticesAt` / `GetIndicesAt` write into caller memory and
    return the next write position, which is what batching many meshes into
    one buffer relies on. */
module MeshModel {
  import opened Common
  import opened VertexTypes
  import opened Linear

  /** `m_VertexAttributes`: the flat float array stored for each kind. */
  type Attributes = map<VertexAttribute, seq<real>>

  /** `GetVertexAttributeCount`: the number of whole elements stored for `kind`,
      0 when there is no array for it. */
  function Count(attrs: Attributes, kind: VertexAttribute): nat
  {
    if kind in attrs then |attrs[kind]| / Arity(kind) else 0
  }

  /** The count is the number of whole elements: the stored floats hold `n`
      elements and fewer than `n + 1`. */
  lemma CountBounds(attrs: Attributes, kind: VertexAttribute)
    ensures kind in attrs ==>
      Times(Count(attrs, kind), Arity(kind)) <= |attrs[kind]| < Times(Count(attrs, kind), Arity(kind)) + Arity(kind)
    ensures kind !in attrs ==> Count(attrs, kind) == 0
  {
    if kind in attrs {
      var a, len := Arity(kind), |attrs[kind]|;
      assert len == (len / a) * a + len % a;
      TimesIsMul(len / a, a);
    }
  }

  /** Element `i` of `kind`: its `Arity(kind)` floats, starting at float `i * Arity(kind)`. */
  function Element(attrs: Attributes, kind: VertexAttribute, i: nat): (e: seq<real>)
    requires i < Count(attrs, kind)
    ensures |e| == Arity(kind)
  {
    CountBounds(attrs, kind);
    TimesMonotone(i + 1, Count(attrs, kind), Arity(kind));
    attrs[kind][Times(i, Arity(kind)) .. Times(i, Arity(kind)) + Arity(kind)]
  }

  /** Concatenation of equally sized elements, as `AddVertexAttribute` copies a
      vector of vectors into one float array. */
  function Flatten<T>(data: seq<seq<T>>): seq<T>
  {
    if data == [] then [] else Flatten(data[..|data| - 1]) + data[|data| - 1]
  }

  /** Every element has `a` floats. */
  predicate Uniform<T>(data: seq<seq<T>>, a: nat)
  {
    forall k :: 0 <= k < |data| ==> |data[k]| == a
  }

  lemma {:induction false} FlattenLength<T>(data: seq<seq<T>>, a: nat)
    requires Uniform(data, a)
    ensures |Flatten(data)| == Times(|data|, a)
  {
    if data != [] {
      var n := |data|;
      assert Uniform(data[..n - 1], a);
      FlattenLength(data[..n - 1], a);
    }
  }

  /** Element `i` of a flattened array is the `i`-th element that was added. */
  lemma {:induction false} FlattenElement<T>(data: seq<seq<T>>, a: nat, i: nat)
    requires Uniform(data, a)
    requires i < |data|
    ensures |Flatten(data)| == Times(|data|, a) && Times(i, a) + a <= Times(|data|, a)
    ensures Flatten(data)[Times(i, a) .. Times(i, a) + a] == data[i]
  {
    FlattenLength(data, a);
    TimesMonotone(i + 1, |data|, a);
    var n := |data|;
    var init := data[..n - 1];
    assert Uniform(init, a);
    FlattenLength(init, a);
    var f := Flatten(init);
    assert Flatten(data) == f + data[n - 1];
    if i < n - 1 {
      FlattenElement(init, a, i);
      TimesMonotone(i + 1, n - 1, a);
      assert Flatten(data)[Times(i, a) .. Times(i, a) + a] == f[Times(i, a) .. Times(i, a) + a];
    } else {
      assert Times(i, a) == |f|;
    }
  }

  lemma FlattenAt<T>(data: seq<seq<T>>, a: nat, i: nat, r: nat)
    requires Uniform(data, a)
    requires i < |data| && r < a
    ensures Slot(0, a, i, r) < |Flatten(data)|
    ensures Flatten(data)[Slot(0, a, i, r)] == data[i][r]
  {
    FlattenElement(data, a, i);
    assert Flatten(data)[Times(i, a) .. Times(i, a) + a][r] == Flatten(data)[Slot(0, a, i, r)];
  }

  /** Storing added elements and reading them back is the identity: the count is
      the number of elements and each element reads back unchanged. */
  lemma FlattenRoundTrip(attrs: Attributes, data: seq<seq<real>>, kind: VertexAttribute, i: nat)
    requires Uniform(data, Arity(kind))
    requires kind in attrs && attrs[kind] == Flatten(data)
    requires i < |data|
    ensures Count(attrs, kind) == |data|
    ensures Element(attrs, kind, i) == data[i]
  {
    var a := Arity(kind);
    FlattenElement(data, a, i);
    TimesIsMul(|data|, a);
    ExactQuotient(|attrs[kind]|, a, |data|);
    assert Count(attrs, kind) == |data|;
  }

  /** No kind appears twice. */
  predicate NoDuplicates(s: seq<VertexAttribute>)
  {
    forall i, j :: 0 <= i < j < |s| ==> s[i] != s[j]
  }

  /** `s` with every occurrence of `x` erased, order kept (the erase-remove idiom). */
  function RemoveAll(s: seq<VertexAttribute>, x: VertexAttribute): (r: seq<VertexAttribute>)
    ensures x !in r
    ensures forall y :: y != x ==> (y in r <==> y in s)
    ensures NoDuplicates(s) ==> NoDuplicates(r)
    ensures |r| <= |s|
  {
    if s == [] then []
    else if s[0] == x then RemoveAll(s[1..], x)
    else
      var tail := RemoveAll(s[1..], x);
      assert forall k :: 0 <= k < |tail| ==> tail[k] in s[1..];
      [s[0]] + tail
  }

  /** A list of requested kinds the composer can lay out: it is non-empty, no kind
      has more elements than the first one (the vertex count), and a kind with fewer
      is fill-enabled and has at least one element to repeat. */
  predicate Composable(attrs: Attributes, fill: seq<VertexAttribute>, kinds: seq<VertexAttribute>)
  {
    && |kinds| > 0
    && forall t :: 0 <= t < |kinds| ==>
         && Count(attrs, kinds[t]) <= Count(attrs, kinds[0])
         && (Count(attrs, kinds[t]) < Count(attrs, kinds[0]) ==> kinds[t] in fill && Count(attrs, kinds[t]) > 0)
  }

  /** Every kind in the list has an element to write. */
  predicate AllPresent(attrs: Attributes, kinds: seq<VertexAttribute>)
  {
    forall t :: 0 <= t < |kinds| ==> Count(attrs, kinds[t]) > 0
  }

  lemma ComposablePresent(attrs: Attributes, fill: seq<VertexAttribute>, kinds: seq<VertexAttribute>, t: nat)
    requires Composable(attrs, fill, kinds) && Count(attrs, kinds[0]) > 0 && t <= |kinds|
    ensures AllPresent(attrs, kinds[..t]) && AllPresent(attrs, kinds)
  {
  }

  /** The element written for vertex `i` of a kind with `count` elements: vertex `i`
      itself when it exists, otherwise the last element. */
  function Clamp(i: nat, count: nat): (j: nat)
    requires count > 0
    ensures j < count
    ensures i < count ==> j == i
    ensures i >= count ==> j == count - 1
  {
    if i < count then i else count - 1
  }

  /** What `WriteVertexAttribute` leaves in memory for element `e` of `kind`: the
      transformed point for a transform-affected kind when the transform is not the
      identity, otherwise the element verbatim. */
  function Written(kind: VertexAttribute, e: seq<real>, xf: Mat4): (w: seq<real>)
    requires |e| == Arity(kind)
    ensures |w| == |e|
    ensures !IsAffectedByTransform(kind) || xf == Identity ==> w == e
  {
    if IsAffectedByTransform(kind) && xf != Identity then
      TransformAffectedKinds(kind);
      TransformPoint(xf, e)
    else
      e
  }

  /** The floats of `kind` in vertex `i` of an emission. */
  function Field(attrs: Attributes, kind: VertexAttribute, i: nat, xf: Mat4): (f: seq<real>)
    requires Count(attrs, kind) > 0
    ensures |f| == Arity(kind)
  {
    Written(kind, Element(attrs, kind, Clamp(i, Count(attrs, kind))), xf)
  }

  /** The interleaved floats of vertex `i`: the fields of `kinds`, in order. */
  function VertexFields(attrs: Attributes, kinds: seq<VertexAttribute>, i: nat, xf: Mat4): (v: seq<real>)
    requires AllPresent(attrs, kinds)
    ensures |v| == StrideFloats(kinds)
  {
    if kinds == [] then []
    else
      var init := kinds[..|kinds| - 1];
      VertexFields(attrs, init, i, xf) + Field(attrs, kinds[|kinds| - 1], i, xf)
  }

  /** The interleaved floats of each of the first `m` vertices. */
  function Vertices(attrs: Attributes, kinds: seq<VertexAttribute>, xf: Mat4, m: nat): (vs: seq<seq<real>>)
    requires AllPresent(attrs, kinds)
    ensures |vs| == m && Uniform(vs, StrideFloats(kinds))
  {
    seq(m, i requires 0 <= i < m => VertexFields(attrs, kinds, i, xf))
  }

  /** The whole interleaved buffer an emission of `kinds` produces: the vertices,
      one after the other. */
  function Composed(attrs: Attributes, fill: seq<VertexAttribute>, kinds: seq<VertexAttribute>, xf: Mat4): (r: seq<real>)
    requires Composable(attrs, fill, kinds)
    ensures |r| == Times(Count(attrs, kinds[0]), StrideFloats(kinds))
  {
    var vertexCount := Count(attrs, kinds[0]);
    if vertexCount == 0 then []
    else
      ComposablePresent(attrs, fill, kinds, 0);
      var vs := Vertices(attrs, kinds, xf, vertexCount);
      FlattenLength(vs, StrideFloats(kinds));
      Flatten(vs)
  }

  /** Float offset of the `t`-th requested kind inside a vertex. */
  function Offset(kinds: seq<VertexAttribute>, t: nat): nat
    requires t <= |kinds|
  {
    StrideFloats(kinds[..t])
  }

  lemma OffsetStep(kinds: seq<VertexAttribute>, t: nat)
    requires t < |kinds|
    ensures kinds[..t + 1][..t] == kinds[..t]
    ensures Offset(kinds, t + 1) == Offset(kinds, t) + Arity(kinds[t])
  {
    assert kinds[..t + 1][..t] == kinds[..t];
  }

  /** The field of the `t`-th kind ends within the vertex. */
  lemma OffsetFits(kinds: seq<VertexAttribute>, t: nat)
    requires t < |kinds|
    ensures Offset(kinds, t) + Arity(kinds[t]) == Offset(kinds, t + 1) <= StrideFloats(kinds)
  {
    OffsetStep(kinds, t);
    StrideAppend(kinds[..t + 1], kinds[t + 1..]);
    assert kinds[..t + 1] + kinds[t + 1..] == kinds;
  }

  /** The last kind's field closes a vertex; the others form the vertex of the
      shorter request. */
  lemma VertexFieldsSplit(attrs: Attributes, kinds: seq<VertexAttribute>, i: nat, xf: Mat4)
    requires AllPresent(attrs, kinds) && kinds != []
    ensures AllPresent(attrs, kinds[..|kinds| - 1])
    ensures VertexFields(attrs, kinds, i, xf)
         == VertexFields(attrs, kinds[..|kinds| - 1], i, xf) + Field(attrs, kinds[|kinds| - 1], i, xf)
  {
    var init := kinds[..|kinds| - 1];
    forall k | 0 <= k < |init| ensures Count(attrs, init[k]) > 0 {
      assert init[k] == kinds[k];
    }
  }

  /** Field `t` of a vertex sits at offset `Offset(kinds, t)`. */
  lemma {:induction false} VertexFieldsAt(attrs: Attributes, kinds: seq<VertexAttribute>, i: nat, xf: Mat4, t: nat, j: nat)
    requires AllPresent(attrs, kinds)
    requires t < |kinds| && j < Arity(kinds[t])
    ensures Offset(kinds, t) + j < StrideFloats(kinds)
    ensures VertexFields(attrs, kinds, i, xf)[Offset(kinds, t) + j] == Field(attrs, kinds[t], i, xf)[j]
    decreases |kinds|
  {
    var n := |kinds|;
    var init := kinds[..n - 1];
    VertexFieldsSplit(attrs, kinds, i, xf);
    var vi := VertexFields(attrs, init, i, xf);
    var f := Field(attrs, kinds[n - 1], i, xf);
    if t == n - 1 {
      assert kinds[..t] == init;
      ConcatRight(vi, f, j);
    } else {
      assert init[..t] == kinds[..t] && init[t] == kinds[t];
      VertexFieldsAt(attrs, init, i, xf, t, j);
      ConcatLeft(vi, f, Offset(init, t) + j);
    }
  }

  lemma ConcatLeft<T>(a: seq<T>, b: seq<T>, k: nat)
    requires k < |a|
    ensures (a + b)[k] == a[k]
  {
  }

  lemma ConcatRight<T>(a: seq<T>, b: seq<T>, k: nat)
    requires k < |b|
    ensures (a + b)[|a| + k] == b[k]
  {
  }

  /** Float `r` of vertex `i` sits at `i * stride + r` of the composed buffer. */
  lemma ComposedVertex(attrs: Attributes, fill: seq<VertexAttribute>, kinds: seq<VertexAttribute>, xf: Mat4, i: nat, r: nat)
    requires Composable(attrs, fill, kinds)
    requires i < Count(attrs, kinds[0]) && r < StrideFloats(kinds)
    ensures AllPresent(attrs, kinds)
    ensures Slot(0, StrideFloats(kinds), i, r) < |Composed(attrs, fill, kinds, xf)|
    ensures Composed(attrs, fill, kinds, xf)[Slot(0, StrideFloats(kinds), i, r)] == VertexFields(attrs, kinds, i, xf)[r]
  {
    ComposablePresent(attrs, fill, kinds, 0);
    var s := StrideFloats(kinds);
    var vs := Vertices(attrs, kinds, xf, Count(attrs, kinds[0]));
    FlattenAt(vs, s, i, r);
    assert Composed(attrs, fill, kinds, xf) == Flatten(vs);
  }

  /** The layout of an emission: float `i*S + Offset(t) + j` of the buffer (with
      `S` floats per vertex, `Slot(0, S, i, Offset(t) + j)`) is
      component `j` of element `min(i, count - 1)` of the `t`-th kind, transformed
      only when that kind is transform-affected and the transform is not the identity. */
  lemma ComposedAt(attrs: Attributes, fill: seq<VertexAttribute>, kinds: seq<VertexAttribute>, xf: Mat4, i: nat, t: nat, j: nat)
    requires Composable(attrs, fill, kinds)
    requires i < Count(attrs, kinds[0]) && t < |kinds| && j < Arity(kinds[t])
    ensures Count(attrs, kinds[t]) > 0
    ensures Slot(0, StrideFloats(kinds), i, Offset(kinds, t) + j) < |Composed(attrs, fill, kinds, xf)|
    ensures Composed(attrs, fill, kinds, xf)[Slot(0, StrideFloats(kinds), i, Offset(kinds, t) + j)]
         == Written(kinds[t], Element(attrs, kinds[t], Clamp(i, Count(attrs, kinds[t]))), xf)[j]
  {
    ComposablePresent(attrs, fill, kinds, 0);
    VertexFieldsAt(attrs, kinds, i, xf, t, j);
    ComposedVertex(attrs, fill, kinds, xf, i, Offset(kinds, t) + j);
  }

  /** Kinds that no transform affects are copied verbatim whatever the transform. */
  lemma UnaffectedVerbatim(attrs: Attributes, fill: seq<VertexAttribute>, kinds: seq<VertexAttribute>, xf: Mat4, i: nat, t: nat, j: nat)
    requires Composable(attrs, fill, kinds)
    requires i < Count(attrs, kinds[0]) && t < |kinds| && j < Arity(kinds[t])
    requires !IsAffectedByTransform(kinds[t])
    ensures Count(attrs, kinds[t]) > 0
    ensures Slot(0, StrideFloats(kinds), i, Offset(kinds, t) + j) < |Composed(attrs, fill, kinds, xf)|
    ensures Composed(attrs, fill, kinds, xf)[Slot(0, StrideFloats(kinds), i, Offset(kinds, t) + j)]
         == Element(attrs, kinds[t], Clamp(i, Count(attrs, kinds[t])))[j]
  {
    ComposedAt(attrs, fill, kinds, xf, i, t, j);
  }

  /** Composing with a translation moves every transform-affected field of every
      vertex by the translation. */
  lemma TranslationShifts(attrs: Attributes, fill: seq<VertexAttribute>, kinds: seq<VertexAttribute>,
                          tx: real, ty: real, tz: real, i: nat, t: nat)
    requires Composable(attrs, fill, kinds)
    requires i < Count(attrs, kinds[0]) && t < |kinds|
    requires IsAffectedByTransform(kinds[t])
    ensures Count(attrs, kinds[t]) > 0 && Arity(kinds[t]) == 3
    ensures Slot(0, StrideFloats(kinds), i, Offset(kinds, t) + 2) < |Composed(attrs, fill, kinds, Translate(tx, ty, tz))|
    ensures var e := Element(attrs, kinds[t], Clamp(i, Count(attrs, kinds[t])));
            var base := Slot(0, StrideFloats(kinds), i, Offset(kinds, t));
            var c := Composed(attrs, fill, kinds, Translate(tx, ty, tz));
            c[base] == e[0] + tx && c[base + 1] == e[1] + ty && c[base + 2] == e[2] + tz
  {
    TransformAffectedKinds(kinds[t]);
    var xf := Translate(tx, ty, tz);
    ComposedAt(attrs, fill, kinds, xf, i, t, 0);
    ComposedAt(attrs, fill, kinds, xf, i, t, 1);
    ComposedAt(attrs, fill, kinds, xf, i, t, 2);
    var e := Element(attrs, kinds[t], Clamp(i, Count(attrs, kinds[t])));
    if xf != Identity {
      TranslateMovesPoint(tx, ty, tz, e);
    }
  }

  /** A kind stored as a single element that no transform affects is broadcast:
      every vertex of the emission carries that element verbatim. */
  lemma BroadcastSingle(attrs: Attributes, fill: seq<VertexAttribute>, kinds: seq<VertexAttribute>, xf: Mat4,
                        i: nat, t: nat, e: seq<real>)
    requires Composable(attrs, fill, kinds)
    requires i < Count(attrs, kinds[0]) && t < |kinds|
    requires !IsAffectedByTransform(kinds[t])
    requires Count(attrs, kinds[t]) == 1 && Element(attrs, kinds[t], 0) == e
    ensures var c := Composed(attrs, fill, kinds, xf);
            var base := Slot(0, StrideFloats(kinds), i, Offset(kinds, t));
            base + |e| <= |c| && c[base .. base + |e|] == e
  {
    var c := Composed(attrs, fill, kinds, xf);
    var base := Slot(0, StrideFloats(kinds), i, Offset(kinds, t));
    UnaffectedVerbatim(attrs, fill, kinds, xf, i, t, |e| - 1);
    forall j | 0 <= j < |e|
      ensures c[base .. base + |e|][j] == e[j]
    {
      UnaffectedVerbatim(attrs, fill, kinds, xf, i, t, j);
    }
  }

  /** Skipping the identity transform is unobservable: transforming by it gives
      what the composer writes. */
  lemma IdentitySkipUnobservable(kind: VertexAttribute, e: seq<real>)
    requires IsAffectedByTransform(kind) && |e| == Arity(kind)
    ensures |e| == 3 && TransformPoint(Identity, e) == Written(kind, e, Identity)
  {
    TransformAffectedKinds(kind);
    IdentityFixesPoint(e);
  }

  /** Position of float `r` of vertex slot `i` in a buffer region starting at
      `pos` with `s` floats per vertex. */
  function Slot(pos: nat, s: nat, i: nat, r: nat): nat
  {
    pos + Times(i, s) + r
  }

  /** A position outside field `[off, off+a)` of slot `i` lies before or after it. */
  lemma SlotOutside(pos: nat, s: nat, i: nat, off: nat, a: nat, i': nat, r: nat)
    requires off + a <= s && r < s
    requires i != i' || r < off || off + a <= r
    ensures Slot(pos, s, i', r) < Slot(pos, s, i, off) || Slot(pos, s, i, off) + a <= Slot(pos, s, i', r)
  {
    if i < i' {
      TimesMonotone(i + 1, i', s);
    } else if i' < i {
      TimesMonotone(i' + 1, i, s);
    }
  }

  /** Every slot of a region of `count` vertices lies inside the region. */
  lemma SlotInside(pos: nat, s: nat, i: nat, r: nat, count: nat)
    requires i < count && r < s
    ensures pos <= Slot(pos, s, i, r) < Slot(pos, s, count, 0)
  {
    TimesMonotone(i + 1, count, s);
  }

  /** Position `n` of a region of `count` vertices of `s` floats is float `r` of slot `i`. */
  lemma {:induction false} SlotOf(n: nat, s: nat, count: nat) returns (i: nat, r: nat)
    requires n < Times(count, s)
    ensures i < count && r < s
    ensures n == Slot(0, s, i, r)
  {
    if n < Times(count - 1, s) {
      i, r := SlotOf(n, s, count - 1);
    } else {
      i, r := count - 1, n - Times(count - 1, s);
    }
  }

  /** Floats outside `[lo, hi)` are the same in `m` as in `m0`. */
  ghost predicate SameOutside(m: seq<real>, m0: seq<real>, lo: nat, hi: nat)
  {
    |m| == |m0| && forall n :: 0 <= n < |m| && (n < lo || hi <= n) ==> m[n] == m0[n]
  }

  lemma SameOutsideTrans(m0: seq<real>, m1: seq<real>, m2: seq<real>, lo: nat, hi: nat)
    requires SameOutside(m1, m0, lo, hi) && SameOutside(m2, m1, lo, hi)
    ensures SameOutside(m2, m0, lo, hi)
  {
  }

  /** `m` is `m0` with field `[off, off + |e|)` of slot `i` replaced by `e`; every
      other float of the first `count` slots is as in `m0`. */
  ghost predicate SlotPatched(m: seq<real>, m0: seq<real>, pos: nat, s: nat, off: nat, i: nat, e: seq<real>, count: nat)
  {
    && |m| == |m0|
    && off + |e| <= s
    && forall i', r :: 0 <= i' < count && 0 <= r < s ==>
         && Slot(pos, s, i', r) < |m|
         && m[Slot(pos, s, i', r)] == if i' == i && off <= r < off + |e| then e[r - off] else m0[Slot(pos, s, i', r)]
  }

  /** `m` is `m0` with the field of `kind` at offset `off` written for slots below
      `done`, each with the kind's field for that vertex; every other float of the
      first `count` slots is as in `m0`. */
  ghost predicate ColumnPartly(m: seq<real>, m0: seq<real>, attrs: Attributes, kind: VertexAttribute, xf: Mat4,
                               pos: nat, s: nat, off: nat, done: nat, count: nat)
  {
    && |m| == |m0|
    && off + Arity(kind) <= s
    && (done > 0 ==> Count(attrs, kind) > 0)
    && forall i, r :: 0 <= i < count && 0 <= r < s ==>
         && Slot(pos, s, i, r) < |m|
         && m[Slot(pos, s, i, r)] ==
              if i < done && off <= r < off + Arity(kind) then Field(attrs, kind, i, xf)[r - off]
              else m0[Slot(pos, s, i, r)]
  }

  lemma ColumnStep(m0: seq<real>, m1: seq<real>, m2: seq<real>, attrs: Attributes, kind: VertexAttribute, xf: Mat4,
                   pos: nat, s: nat, off: nat, i: nat, count: nat)
    requires Count(attrs, kind) > 0 && i < count
    requires ColumnPartly(m1, m0, attrs, kind, xf, pos, s, off, i, count)
    requires SlotPatched(m2, m1, pos, s, off, i, Field(attrs, kind, i, xf), count)
    ensures ColumnPartly(m2, m0, attrs, kind, xf, pos, s, off, i + 1, count)
  {
  }

  /** The first `count` vertex slots of `m` hold the interleaved fields of `kinds`. */
  ghost predicate Filled(m: seq<real>, attrs: Attributes, kinds: seq<VertexAttribute>, xf: Mat4, pos: nat, s: nat, count: nat)
  {
    && AllPresent(attrs, kinds)
    && forall i, r :: 0 <= i < count && 0 <= r < StrideFloats(kinds) ==>
         Slot(pos, s, i, r) < |m| && m[Slot(pos, s, i, r)] == VertexFields(attrs, kinds, i, xf)[r]
  }

  /** Writing the column of the next kind extends the filled prefix of fields by it. */
  lemma ExtendFilled(m0: seq<real>, m: seq<real>, attrs: Attributes, kinds: seq<VertexAttribute>, t: nat, xf: Mat4,
                     pos: nat, s: nat, count: nat)
    requires t < |kinds| && StrideFloats(kinds[..t + 1]) <= s
    requires AllPresent(attrs, kinds[..t + 1])
    requires Filled(m0, attrs, kinds[..t], xf, pos, s, count)
    requires ColumnPartly(m, m0, attrs, kinds[t], xf, pos, s, StrideFloats(kinds[..t]), count, count)
    ensures Filled(m, attrs, kinds[..t + 1], xf, pos, s, count)
  {
    var off := StrideFloats(kinds[..t]);
    OffsetStep(kinds, t);
    forall i, r | 0 <= i < count && 0 <= r < StrideFloats(kinds[..t + 1])
      ensures Slot(pos, s, i, r) < |m| && m[Slot(pos, s, i, r)] == VertexFields(attrs, kinds[..t + 1], i, xf)[r]
    {
      assert VertexFields(attrs, kinds[..t + 1], i, xf)
          == VertexFields(attrs, kinds[..t], i, xf) + Field(attrs, kinds[t], i, xf);
    }
  }

  /** A buffer whose vertex slots hold the interleaved fields of every vertex
      holds the composed emission. */
  lemma FilledIsComposed(attrs: Attributes, fill: seq<VertexAttribute>, kinds: seq<VertexAttribute>, xf: Mat4,
                         m: seq<real>, pos: nat, s: nat)
    requires Composable(attrs, fill, kinds)
    requires s == StrideFloats(kinds)
    requires pos + Times(Count(attrs, kinds[0]), s) <= |m|
    requires Filled(m, attrs, kinds, xf, pos, s, Count(attrs, kinds[0]))
    ensures m[pos .. pos + Times(Count(attrs, kinds[0]), s)] == Composed(attrs, fill, kinds, xf)
  {
    var vertexCount := Count(attrs, kinds[0]);
    var c := Composed(attrs, fill, kinds, xf);
    forall n | 0 <= n < Times(vertexCount, s)
      ensures m[pos + n] == c[n]
    {
      var i, r := SlotOf(n, s, vertexCount);
      ComposedVertex(attrs, fill, kinds, xf, i, r);
    }
  }

  /** The fill list after `SetFillVertexAttribute(kind, shouldFill)`: enabling an
      enabled kind keeps the list, enabling a new one appends it, disabling erases it. */
  function FillUpdated(fill: seq<VertexAttribute>, kind: VertexAttribute, shouldFill: bool): seq<VertexAttribute>
  {
    if shouldFill then (if kind in fill then fill else fill + [kind]) else RemoveAll(fill, kind)
  }

  /** The fill list has set semantics: afterwards `kind` is in it exactly when
      `shouldFill`, no other kind's membership changes, it stays free of
      duplicates, and setting the same flag twice is setting it once. */
  lemma FillSetSemantics(fill: seq<VertexAttribute>, kind: VertexAttribute, shouldFill: bool)
    requires NoDuplicates(fill)
    ensures var r := FillUpdated(fill, kind, shouldFill);
            && (kind in r <==> shouldFill)
            && (forall k :: k != kind ==> (k in r <==> k in fill))
            && NoDuplicates(r)
            && FillUpdated(r, kind, shouldFill) == r
  {
    var r := FillUpdated(fill, kind, shouldFill);
    if shouldFill && kind !in fill {
      assert forall i :: 0 <= i < |fill| ==> r[i] == fill[i] && r[i] != kind;
    }
    if !shouldFill {
      RemoveAllAbsent(r, kind);
    }
  }

  /** Erasing a kind that is absent changes nothing. */
  lemma {:induction false} RemoveAllAbsent(s: seq<VertexAttribute>, x: VertexAttribute)
    requires x !in s
    ensures RemoveAll(s, x) == s
  {
    if s != [] {
      assert x !in s[1..];
      RemoveAllAbsent(s[1..], x);
      assert [s[0]] + s[1..] == s;
    }
  }

  class Mesh {
    var indices: seq<u32>
    var attributes: Attributes
    var fill: seq<VertexAttribute>

    ghost predicate Valid()
      reads this
    {
      && NoDuplicates(fill)
      && forall k :: k in attributes ==> |attributes[k]| % Arity(k) == 0
    }

    constructor ()
      ensures Valid()
      ensures indices == [] && attributes == map[] && fill == []
    {
      indices := [];
      attributes := map[];
      fill := [];
    }

    /** `AddVertexAttribute(kind, data)`: stores the elements of `data`, each of the
        kind's size, as one float array for `kind`, replacing any previous one. */
    method AddVertexAttribute(kind: VertexAttribute, data: seq<seq<real>>)
      requires Valid()
      requires |data| > 0
      requires Uniform(data, Arity(kind))
      modifies this
      ensures Valid()
      ensures attributes == old(attributes)[kind := Flatten(data)]
      ensures |attributes[kind]| == |data| * Arity(kind)
      ensures GetVertexAttributeCount(kind) == |data|
      ensures indices == old(indices) && fill == old(fill)
    {
      FlattenLength(data, Arity(kind));
      TimesIsMul(|data|, Arity(kind));
      MulMod(|data|, Arity(kind));
      attributes := attributes[kind := Flatten(data)];
      FlattenRoundTrip(attributes, data, kind, 0);
    }

    /** `SetIndices`: replaces the index list. */
    method SetIndices(list: seq<u32>)
      modifies this
      ensures indices == list
      ensures attributes == old(attributes) && fill == old(fill)
    {
      indices := list;
    }

    /** `SetFillVertexAttribute`: the fill list becomes `FillUpdated(fill, kind, shouldFill)`. */
    method SetFillVertexAttribute(kind: VertexAttribute, shouldFill: bool)
      requires Valid()
      modifies this
      ensures Valid()
      ensures attributes == old(attributes) && indices == old(indices)
      ensures fill == FillUpdated(old(fill), kind, shouldFill)
    {
      FillSetSemantics(fill, kind, shouldFill);
      if shouldFill {
        if kind !in fill {
          fill := fill + [kind];
        }
      } else {
        fill := RemoveAll(fill, kind);
      }
    }

    /** `GetVertexAttributeCount` */
    function GetVertexAttributeCount(kind: VertexAttribute): (n: nat)
      reads this
      ensures n == Count(attributes, kind)
    {
      Count(attributes, kind)
    }

    /** `GetVertexCount`: the element count of the first requested kind. */
    function GetVertexCount(kinds: seq<VertexAttribute>): (n: nat)
      reads this
      requires |kinds| > 0
      ensures n == GetVertexAttributeCount(kinds[0])
    {
      GetVertexAttributeCount(kinds[0])
    }

    /** `GetIndexCount` */
    function GetIndexCount(): (n: nat)
      reads this
      ensures n == |GetIndices()|
    {
      |indices|
    }

    /** `GetIndices()`: the stored index list, as `SetIndices` left it. */
    function GetIndices(): (r: seq<u32>)
      reads this
      ensures r == indices
    {
      indices
    }

    /** `GetVertexDataSize`: bytes an emission of `kinds` takes, summed per kind. The
        sum equals the vertex count times the stride. */
    method GetVertexDataSize(kinds: seq<VertexAttribute>) returns (size: nat)
      requires |kinds| > 0
      ensures size == GetVertexCount(kinds) * Stride(kinds)
    {
      var vertexCount := GetVertexAttributeCount(kinds[0]);
      size := 0;
      for t := 0 to |kinds|
        invariant size == vertexCount * Stride(kinds[..t])
      {
        assert kinds[..t + 1][..t] == kinds[..t];
        MulAddDistrib(vertexCount, Stride(kinds[..t]), TypeSize(kinds[t]));
        size := size + vertexCount * TypeSize(kinds[t]);
      }
      assert kinds[..|kinds|] == kinds;
    }

    /** `WriteVertexAttribute`: copies element `idx` of `kind` to `mem[w..]` and, for
        a transform-affected kind and a transform other than the identity, replaces
        it by the transformed point. */
    method WriteVertexAttribute(kind: VertexAttribute, idx: nat, mem: array<real>, w: nat, xf: Mat4)
      requires idx < Count(attributes, kind)
      requires w + Arity(kind) <= mem.Length
      modifies mem
      ensures forall j :: 0 <= j < Arity(kind) ==> mem[w + j] == Written(kind, Element(attributes, kind, idx), xf)[j]
      ensures forall n :: 0 <= n < mem.Length && (n < w || w + Arity(kind) <= n) ==> mem[n] == old(mem[n])
    {
      var size := TypeSize(kind);
      var a := size / FLOAT_SIZE;
      var e := Element(attributes, kind, idx);
      forall j | 0 <= j < a {
        mem[w + j] := e[j];
      }
      if IsAffectedByTransform(kind) && xf != Identity {
        TransformAffectedKinds(kind);
        var v := Apply(xf, Linear.Vec4(mem[w], mem[w + 1], mem[w + 2], 1.0));
        mem[w], mem[w + 1], mem[w + 2] := v.x, v.y, v.z;
      }
    }

    /** One iteration of the inner loops of `CreateVertices`: element `idx` of
        `kind` goes to the kind's field of vertex slot `i`; no other float of the
        region or outside it changes. */
    method WriteSlot(kind: VertexAttribute, idx: nat, mem: array<real>, pos: nat, s: nat, off: nat, i: nat, vertexCount: nat, xf: Mat4)
      requires idx < Count(attributes, kind)
      requires off + Arity(kind) <= s && i < vertexCount
      requires Slot(pos, s, vertexCount, 0) <= mem.Length
      modifies mem
      ensures SlotPatched(mem[..], old(mem[..]), pos, s, off, i, Written(kind, Element(attributes, kind, idx), xf), vertexCount)
      ensures SameOutside(mem[..], old(mem[..]), pos, Slot(pos, s, vertexCount, 0))
    {
      var a := Arity(kind);
      var w := Slot(pos, s, i, off);
      SlotInside(pos, s, i, off + a - 1, vertexCount);
      WriteVertexAttribute(kind, idx, mem, w, xf);
      forall i', r | 0 <= i' < vertexCount && 0 <= r < s
        ensures Slot(pos, s, i', r) < Slot(pos, s, vertexCount, 0)
        ensures i' == i && off <= r < off + a ==> Slot(pos, s, i', r) == w + (r - off)
        ensures i' != i || r < off || off + a <= r ==> Slot(pos, s, i', r) < w || w + a <= Slot(pos, s, i', r)
      {
        SlotInside(pos, s, i', r, vertexCount);
        if i' != i || r < off || off + a <= r {
          SlotOutside(pos, s, i, off, a, i', r);
        }
      }
    }

    /** The two inner loops of `CreateVertices` for one kind: vertex slots below the
        kind's count get their own element, the rest get the last element. Only the
        kind's field in each slot changes. */
    method WriteAttributeColumn(kind: VertexAttribute, vertexCount: nat, mem: array<real>, pos: nat, s: nat, off: nat, xf: Mat4)
      requires Count(attributes, kind) <= vertexCount
      requires Count(attributes, kind) < vertexCount ==> kind in fill && Count(attributes, kind) > 0
      requires off + Arity(kind) <= s
      requires Slot(pos, s, vertexCount, 0) <= mem.Length
      modifies mem
      ensures ColumnPartly(mem[..], old(mem[..]), attributes, kind, xf, pos, s, off, vertexCount, vertexCount)
      ensures SameOutside(mem[..], old(mem[..]), pos, Slot(pos, s, vertexCount, 0))
    {
      var count := GetVertexAttributeCount(kind);
      forall i, r | 0 <= i < vertexCount && 0 <= r < s
        ensures Slot(pos, s, i, r) < Slot(pos, s, vertexCount, 0)
      {
        SlotInside(pos, s, i, r, vertexCount);
      }
      for i := 0 to count
        invariant ColumnPartly(mem[..], old(mem[..]), attributes, kind, xf, pos, s, off, i, vertexCount)
        invariant SameOutside(mem[..], old(mem[..]), pos, Slot(pos, s, vertexCount, 0))
      {
        ghost var before := mem[..];
        WriteSlot(kind, i, mem, pos, s, off, i, vertexCount, xf);
        ColumnStep(old(mem[..]), before, mem[..], attributes, kind, xf, pos, s, off, i, vertexCount);
        SameOutsideTrans(old(mem[..]), before, mem[..], pos, Slot(pos, s, vertexCount, 0));
      }
      for i := count to vertexCount
        invariant ColumnPartly(mem[..], old(mem[..]), attributes, kind, xf, pos, s, off, i, vertexCount)
        invariant SameOutside(mem[..], old(mem[..]), pos, Slot(pos, s, vertexCount, 0))
      {
        // The source asserts here unless the kind is fill-enabled.
        assert kind in fill;
        ghost var before := mem[..];
        WriteSlot(kind, count - 1, mem, pos, s, off, i, vertexCount, xf);
        ColumnStep(old(mem[..]), before, mem[..], attributes, kind, xf, pos, s, off, i, vertexCount);
        SameOutsideTrans(old(mem[..]), before, mem[..], pos, Slot(pos, s, vertexCount, 0));
      }
    }

    /** One pass of the kind loop of `CreateVertices`: writes the field of
        `kinds[t]`, at float `offset` of every vertex slot, after the fields of the
        kinds before it. */
    method WriteKind(kinds: seq<VertexAttribute>, t: nat, mem: array<real>, pos: nat, s: nat, offset: nat, xf: Mat4)
      requires Composable(attributes, fill, kinds) && t < |kinds|
      requires s == StrideFloats(kinds) && offset == Offset(kinds, t)
      requires Slot(pos, s, GetVertexCount(kinds), 0) <= mem.Length
      requires GetVertexCount(kinds) > 0 ==> Filled(mem[..], attributes, kinds[..t], xf, pos, s, GetVertexCount(kinds))
      modifies mem
      ensures GetVertexCount(kinds) > 0 ==> Filled(mem[..], attributes, kinds[..t + 1], xf, pos, s, GetVertexCount(kinds))
      ensures SameOutside(mem[..], old(mem[..]), pos, Slot(pos, s, GetVertexCount(kinds), 0))
    {
      var vertexCount := GetVertexCount(kinds);
      OffsetFits(kinds, t);
      WriteAttributeColumn(kinds[t], vertexCount, mem, pos, s, offset, xf);
      if vertexCount > 0 {
        ComposablePresent(attributes, fill, kinds, t + 1);
        ExtendFilled(old(mem[..]), mem[..], attributes, kinds, t, xf, pos, s, vertexCount);
      }
    }

    /** `CreateVertices(kinds, mem, transform)`: writes the interleaved vertices of
        `kinds` at `mem[pos..]`, changes nothing else, and returns the next write
        position `pos + vertexCount * stride / 4`. */
    method CreateVerticesAt(kinds: seq<VertexAttribute>, mem: array<real>, pos: nat, xf: Mat4) returns (next: nat)
      requires Composable(attributes, fill, kinds)
      requires pos + GetVertexCount(kinds) * StrideFloats(kinds) <= mem.Length
      modifies mem
      ensures next == pos + GetVertexCount(kinds) * StrideFloats(kinds)
      ensures mem[pos..next] == Composed(attributes, fill, kinds, xf)
      ensures mem[..pos] == old(mem[..pos]) && mem[next..] == old(mem[next..])
    {
      var vertexCount := GetVertexAttributeCount(kinds[0]);
      var stride := GetStride(kinds);
      var s := stride / FLOAT_SIZE;
      ghost var end := Slot(pos, s, vertexCount, 0);
      TimesIsMul(vertexCount, s);
      var offset := 0;
      for t := 0 to |kinds|
        invariant offset == Offset(kinds, t)
        invariant vertexCount > 0 ==> Filled(mem[..], attributes, kinds[..t], xf, pos, s, vertexCount)
        invariant SameOutside(mem[..], old(mem[..]), pos, end)
      {
        ghost var before := mem[..];
        WriteKind(kinds, t, mem, pos, s, offset, xf);
        SameOutsideTrans(old(mem[..]), before, mem[..], pos, end);
        OffsetStep(kinds, t);
        offset := offset + TypeSize(kinds[t]) / FLOAT_SIZE;
      }
      next := pos + vertexCount * s;
      assert kinds[..|kinds|] == kinds;
      if vertexCount > 0 {
        FilledIsComposed(attributes, fill, kinds, xf, mem[..], pos, s);
      }
      assert mem[..pos] == old(mem[..pos]);
      assert mem[next..] == old(mem[next..]);
    }

    /** `CreateVertices(kinds, transform)`: a fresh buffer of `GetVertexDataSize / 4`
        floats filled by the pointer form. */
    method CreateVertices(kinds: seq<VertexAttribute>, xf: Mat4) returns (vertices: seq<real>)
      requires Composable(attributes, fill, kinds)
      ensures |vertices| == GetVertexCount(kinds) * StrideFloats(kinds)
      ensures vertices == Composed(attributes, fill, kinds, xf)
    {
      var dataSize := GetVertexDataSize(kinds);
      var length := dataSize / FLOAT_SIZE;
      assert length == GetVertexCount(kinds) * StrideFloats(kinds) by {
        var n := GetVertexCount(kinds) * StrideFloats(kinds);
        MulAssoc(GetVertexCount(kinds), StrideFloats(kinds), FLOAT_SIZE);
        ExactQuotient(dataSize, FLOAT_SIZE, n);
      }
      var buffer := new real[length];
      var end := CreateVerticesAt(kinds, buffer, 0, xf);
      vertices := buffer[..];
    }

    /** `GetIndices(vertexOffset, mem)`: writes every stored index plus
        `vertexOffset` at `mem[pos..]`, leaves the stored indices as they are, and
        returns the next write position `pos + |indices|`. */
    method GetIndicesAt(vertexOffset: u32, mem: array<u32>, pos: nat) returns (next: nat)
      requires pos + |indices| <= mem.Length
      modifies mem
      ensures next == pos + GetIndexCount()
      ensures mem[pos..next] == Rebased(indices, vertexOffset)
      ensures mem[..pos] == old(mem[..pos]) && mem[next..] == old(mem[next..])
    {
      var offsetIndices := indices;
      for i := 0 to |offsetIndices|
        invariant |offsetIndices| == |indices|
        invariant forall k :: 0 <= k < i ==> offsetIndices[k] == Wrap32(indices[k] + vertexOffset)
        invariant forall k :: i <= k < |indices| ==> offsetIndices[k] == indices[k]
      {
        offsetIndices := offsetIndices[i := Wrap32(offsetIndices[i] + vertexOffset)];
      }
      forall k | 0 <= k < |offsetIndices| {
        mem[pos + k] := offsetIndices[k];
      }
      next := pos + |offsetIndices|;
    }
  }
}
