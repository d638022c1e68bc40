/** Fixed-width integer and arithmetic helpers shared by every module.
    The C++ code stores vertex indices as `uint32_t`; `Wrap32` is the
    modular reduction that an assignment or `+=` on such a value performs. */
module Common {

  const U32_LIMIT: nat := 0x1_0000_0000

  /** An unsigned 32-bit value. */
  type u32 = x: int | 0 <= x < 0x1_0000_0000

  /** The value a `uint32_t` holds after being assigned the mathematical value `x`. */
  function Wrap32(x: nat): (r: u32)
    ensures x < U32_LIMIT ==> r == x
  {
    x % U32_LIMIT
  }

  /** Adding twice with wrap-around is adding once with wrap-around. */
  lemma WrapAddAssoc(a: nat, b: nat, c: nat)
    ensures Wrap32(Wrap32(a + b) + c) == Wrap32(a + b + c)
  {
    var q := (a + b) / U32_LIMIT;
    assert a + b == q * U32_LIMIT + Wrap32(a + b);
    ModAddMultiple(Wrap32(a + b) + c, q);
  }

  /** Incrementing a wrapped counter wraps the incremented count. */
  lemma WrapSucc(a: nat)
    ensures Wrap32(Wrap32(a) + 1) == Wrap32(a + 1)
  {
    WrapAddAssoc(a, 0, 1);
  }

  /** `++` on a `uint32_t` counter. */
  function Inc32(c: u32): (r: u32)
    ensures r == Wrap32(c + 1)
  {
    if c + 1 == U32_LIMIT then 0 else c + 1
  }

  lemma ModAddMultiple(x: nat, q: nat)
    ensures (x + q * U32_LIMIT) % U32_LIMIT == x % U32_LIMIT
  {
    var i := 0;
    while i < q
      invariant 0 <= i <= q
      invariant (x + i * U32_LIMIT) % U32_LIMIT == x % U32_LIMIT
    {
      i := i + 1;
    }
  }

  /** A quotient and remainder determine the number they were taken from. */
  lemma QuotRemUnique(q: nat, r: nat, q': nat, r': nat, m: nat)
    requires r < m && r' < m
    requires q * m + r == q' * m + r'
    ensures q == q' && r == r'
  {
    MulMonotone(q + 1, q', m);
    MulMonotone(q' + 1, q, m);
  }

  lemma MulMonotone(a: nat, b: nat, m: nat)
    ensures a <= b ==> a * m <= b * m
    ensures (a + 1) * m == a * m + m
  {
  }

  lemma MulAssoc(a: nat, b: nat, c: nat)
    ensures a * (b * c) == (a * b) * c
  {
  }

  lemma MulAddDistrib(m: nat, a: nat, b: nat)
    ensures m * (a + b) == m * a + m * b
  {
  }

  /** `i * s` as repeated addition. Proofs about buffer positions use it so that
      they need only linear arithmetic; `TimesIsMul` connects it to `*`. */
  function Times(i: nat, s: nat): nat
  {
    if i == 0 then 0 else Times(i - 1, s) + s
  }

  lemma {:induction false} TimesIsMul(i: nat, s: nat)
    ensures Times(i, s) == i * s
  {
    if i > 0 {
      TimesIsMul(i - 1, s);
      MulMonotone(i - 1, i, s);
    }
  }

  lemma {:induction false} TimesMonotone(i: nat, j: nat, s: nat)
    requires i <= j
    ensures Times(i, s) <= Times(j, s)
    decreases j - i
  {
    if i < j {
      TimesMonotone(i, j - 1, s);
    }
  }

  /** A multiple of `a` divided by `a` gives back its factor. */
  lemma ExactQuotient(len: nat, a: nat, n: nat)
    requires a >= 1 && len == n * a
    ensures len / a == n
  {
    QuotRemUnique(len / a, len % a, n, 0, a);
  }

  lemma MulMod(n: nat, a: nat)
    requires a >= 1
    ensures (n * a) % a == 0
  {
    QuotRemUnique((n * a) / a, (n * a) % a, n, 0, a);
  }

  /** `s` with `off` added to every element, as `index += off` on a `uint32_t` does. */
  function Rebased(s: seq<u32>, off: nat): (r: seq<u32>)
    ensures |r| == |s|
    ensures forall i :: 0 <= i < |s| ==> r[i] == Wrap32(s[i] + off)
  {
    seq(|s|, i requires 0 <= i < |s| => Wrap32(s[i] + off))
  }

  /** Rebasing twice is rebasing once by the sum of the offsets. */
  lemma RebasedTwice(s: seq<u32>, a: nat, b: nat)
    ensures Rebased(Rebased(s, a), b) == Rebased(s, a + b)
  {
    forall i | 0 <= i < |s|
      ensures Rebased(Rebased(s, a), b)[i] == Rebased(s, a + b)[i]
    {
      WrapAddAssoc(s[i], a, b);
    }
  }

  /** Rebasing distributes over concatenation. */
  lemma RebasedAppend(s: seq<u32>, t: seq<u32>, off: nat)
    ensures Rebased(s + t, off) == Rebased(s, off) + Rebased(t, off)
  {
  }
}
