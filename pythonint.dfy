/** The driver keeps the 11-bit reference code `_VREF` in an unbounded
    Python integer and folds each new DAC code into it with `|=`.  Python
    integers behave as infinite two's-complement bit strings, so `|` is
    defined here on all of `int`, negative values included, together with
    the `& 0xFF` / `(>> 8) & 0b111` split into the two reference registers. */
module PythonInt {
  import opened BitFields

  /** Bit `k` of `x` in the infinite two's-complement representation.
      Dafny's `/` and `%` with divisor 2 floor, as Python's `>>` and `&` do. */
  predicate IntBit(x: int, k: nat)
    decreases k
  {
    if k == 0 then x % 2 == 1 else IntBit(x / 2, k - 1)
  }

  /** The two integers whose bit string is constant (0 and -1). */
  predicate IsSign(x: int) {
    x == 0 || x == -1
  }

  /** Python's `a | b` on unbounded integers. */
  function Or(a: int, b: int): (r: int)
    decreases Size(a) + Size(b)
  {
    if IsSign(a) && IsSign(b) then
      (if a == -1 || b == -1 then -1 else 0)
    else
      HalvingShrinks(a);
      HalvingShrinks(b);
      2 * Or(a / 2, b / 2) + (if a % 2 == 1 || b % 2 == 1 then 1 else 0)
  }

  /** Absolute value, as termination measure. */
  function Size(x: int): (s: nat) {
    if x < 0 then -x else x
  }

  lemma HalvingShrinks(x: int)
    ensures Size(x / 2) <= Size(x)
    ensures !IsSign(x) ==> Size(x / 2) < Size(x)
    ensures IsSign(x) ==> x / 2 == x
  {
  }

  /** One step of `Or`: its lowest bit is the OR of the lowest bits, and
      the rest is the OR of the rest, also when both operands are 0 or -1. */
  lemma OrStep(a: int, b: int)
    ensures Or(a, b) % 2 == (if a % 2 == 1 || b % 2 == 1 then 1 else 0)
    ensures Or(a, b) / 2 == Or(a / 2, b / 2)
  {
    HalvingShrinks(a);
    HalvingShrinks(b);
  }

  /** Python's `|` is bitwise: bit `k` of `a | b` is set exactly when bit
      `k` of `a` or of `b` is set. */
  lemma {:induction false} OrBit(a: int, b: int, k: nat)
    ensures IntBit(Or(a, b), k) <==> IntBit(a, k) || IntBit(b, k)
    decreases k
  {
    OrStep(a, b);
    if k > 0 {
      OrBit(a / 2, b / 2, k - 1);
    }
  }

  /** Two integers with the same bits are equal. */
  lemma {:induction false} BitsDetermine(x: int, y: int)
    requires forall k: nat :: IntBit(x, k) == IntBit(y, k)
    ensures x == y
    decreases Size(x) + Size(y)
  {
    assert IntBit(x, 0) == IntBit(y, 0);
    if !(IsSign(x) && IsSign(y)) {
      forall k: nat ensures IntBit(x / 2, k) == IntBit(y / 2, k) {
        assert IntBit(x, k + 1) == IntBit(y, k + 1);
      }
      HalvingShrinks(x);
      HalvingShrinks(y);
      BitsDetermine(x / 2, y / 2);
    }
  }

  /** `v |= c` only ever adds bits: each bit of `v` survives. */
  lemma OrKeepsBits(v: int, c: int, k: nat)
    requires IntBit(v, k)
    ensures IntBit(Or(v, c), k)
  {
    OrBit(v, c, k);
  }

  /** Folding the same code in twice gives the same value as once. */
  lemma OrIdempotent(v: int, c: int)
    ensures Or(Or(v, c), c) == Or(v, c)
  {
    forall k: nat ensures IntBit(Or(Or(v, c), c), k) == IntBit(Or(v, c), k) {
      OrBit(Or(v, c), c, k);
      OrBit(v, c, k);
    }
    BitsDetermine(Or(Or(v, c), c), Or(v, c));
  }

  /** 0 has no bit set. */
  lemma {:induction false} ZeroHasNoBits(k: nat)
    ensures !IntBit(0, k)
  {
    if k > 0 {
      ZeroHasNoBits(k - 1);
    }
  }

  /** Folding a code into a fresh `_VREF` of 0 gives the code itself. */
  lemma OrZeroLeft(c: int)
    ensures Or(0, c) == c
  {
    forall k: nat ensures IntBit(Or(0, c), k) == IntBit(c, k) {
      OrBit(0, c, k);
      ZeroHasNoBits(k);
    }
    BitsDetermine(Or(0, c), c);
  }

  /** `|` of non-negative integers is non-negative. */
  lemma {:induction false} OrNonNegative(a: int, b: int)
    requires a >= 0 && b >= 0
    ensures Or(a, b) >= 0
    decreases Size(a) + Size(b)
  {
    if !(IsSign(a) && IsSign(b)) {
      HalvingShrinks(a);
      HalvingShrinks(b);
      OrNonNegative(a / 2, b / 2);
    }
  }

  /** Once the accumulated value is negative it stays negative. */
  lemma {:induction false} OrNegativeStaysNegative(a: int, b: int)
    requires a < 0
    ensures Or(a, b) < 0
    decreases Size(a) + Size(b)
  {
    if !(IsSign(a) && IsSign(b)) {
      HalvingShrinks(a);
      HalvingShrinks(b);
      OrNegativeStaysNegative(a / 2, b / 2);
    }
  }

  /** Python's `|` is commutative. */
  lemma OrCommutes(a: int, b: int)
    ensures Or(a, b) == Or(b, a)
  {
    forall k: nat ensures IntBit(Or(a, b), k) == IntBit(Or(b, a), k) {
      OrBit(a, b, k);
      OrBit(b, a, k);
    }
    BitsDetermine(Or(a, b), Or(b, a));
  }

  /** Folding a negative code into `_VREF` makes it negative, whatever it
      held before. */
  lemma OrNegativeCode(v: int, c: int)
    requires c < 0
    ensures Or(v, c) < 0
  {
    OrCommutes(v, c);
    OrNegativeStaysNegative(c, v);
  }

  /** `v |= c` does not yield `c` in general: after `1` then `2` the
      accumulated value is `3`. */
  lemma OrAccumulates()
    ensures Or(Or(0, 1), 2) == 3
  {
    assert Or(0, 1) == 1;
    assert Or(1, 2) == 2 * Or(0, 1) + 1;
  }

  /** Bit `k` of the image of `n` is bit `k` of `n`. */
  lemma ByteOfBit(n: int, k: nat)
    requires k < 8
    ensures ByteOf(n)[k] == 1 <==> IntBit(n, k)
  {
    var h1 := n / 2; var h2 := h1 / 2; var h3 := h2 / 2; var h4 := h3 / 2;
    var h5 := h4 / 2; var h6 := h5 / 2; var h7 := h6 / 2;
    assert IntBit(n, k) == match k
      case 0 => IntBit(n, 0)
      case 1 => IntBit(h1, 0)
      case 2 => IntBit(h2, 0)
      case 3 => IntBit(h3, 0)
      case 4 => IntBit(h4, 0)
      case 5 => IntBit(h5, 0)
      case 6 => IntBit(h6, 0)
      case _ => IntBit(h7, 0)
    by {
      if k >= 1 { assert IntBit(n, k) == IntBit(h1, k - 1); }
      if k >= 2 { assert IntBit(h1, k - 1) == IntBit(h2, k - 2); }
      if k >= 3 { assert IntBit(h2, k - 2) == IntBit(h3, k - 3); }
      if k >= 4 { assert IntBit(h3, k - 3) == IntBit(h4, k - 4); }
      if k >= 5 { assert IntBit(h4, k - 4) == IntBit(h5, k - 5); }
      if k >= 6 { assert IntBit(h5, k - 5) == IntBit(h6, k - 6); }
      if k >= 7 { assert IntBit(h6, k - 6) == IntBit(h7, k - 7); }
    }
  }

  /** The OR of register images is Python's `|` on the numbers they come
      from: the low byte of `x | y` is the OR of the low bytes. */
  lemma ByteOfOr(x: int, y: int)
    ensures ByteOf(Or(x, y)) == OrInto(ByteOf(x), ByteOf(y))
  {
    forall k | 0 <= k < 8
      ensures ByteOf(Or(x, y))[k] == OrInto(ByteOf(x), ByteOf(y))[k]
    {
      ByteOfBit(Or(x, y), k);
      ByteOfBit(x, k);
      ByteOfBit(y, k);
      OrBit(x, y, k);
    }
  }

  /** `self._VREF & 0xFF` and `(self._VREF >> 8) & 0b111`, as the two
      register images.  The split keeps the low eleven bits: the low byte is
      0..255, the high one 0..7, and together they spell `vref` modulo 2048. */
  function SplitReference(vref: int): (r: (Byte, Byte))
    ensures ByteValue(r.1) < 8
    ensures ByteValue(r.0) + 256 * ByteValue(r.1) == vref % 2048
  {
    ValueOfByteOf(vref);
    ValueOfByteOf(vref / 256 % 8);
    Mod2048Split(vref);
    (ByteOf(vref), ByteOf(vref / 256 % 8))
  }

  lemma Mod2048Split(v: int)
    ensures v % 256 + 256 * (v / 256 % 8) == v % 2048
  {
    var q := v / 256;
    var r := v % 256;
    assert v == 256 * q + r;
    var q8 := q / 8;
    var r8 := q % 8;
    assert q == 8 * q8 + r8;
    assert v == 2048 * q8 + (256 * r8 + r);
    assert 0 <= 256 * r8 + r < 2048;
  }

  /** The 11-bit code the two reference registers spell out; only the low
      three bits of the MSB register are significant. */
  function JoinReference(lsb: Byte, msb: Byte): (code: int)
    ensures 0 <= code < 2048
  {
    ByteValue(lsb) + 256 * Bits012(msb)
  }

  /** Splitting and joining recovers the code modulo 2048. */
  lemma JoinSplit(vref: int)
    ensures JoinReference(SplitReference(vref).0, SplitReference(vref).1) == vref % 2048
  {
    var r := SplitReference(vref);
    FieldValues(r.1);
  }

  /** An 11-bit code survives the split unchanged. */
  lemma SplitJoin(lsb: Byte, msb: Byte)
    requires ByteValue(msb) < 8
    ensures SplitReference(JoinReference(lsb, msb)) == (lsb, msb)
  {
    FieldValues(msb);
    var l, m := ByteValue(lsb), ByteValue(msb);
    var code := JoinReference(lsb, msb);
    assert code == m * 256 + l;
    assert code / 256 == m && code % 256 == l;
    assert code / 256 % 8 == m;
    ValueOfByteOf(code);
    ValueInjective(ByteOf(code), lsb);
    ByteOfValue(msb);
  }
}
