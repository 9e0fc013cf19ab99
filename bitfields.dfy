/** Read-modify-write operations on one 8-bit register image.

    A register image is modelled as its eight bits, least significant
    first, each the integer 0 or 1, so that a mask and an `|` or `& ~`
    become updates of numbered bits.  `ByteValue` and `ByteOf` convert to
    and from the number that goes over the bus. */
module BitFields {

  /** One bit, as the 0 or 1 the driver's flag fields hold. */
  type Bit = x: int | 0 <= x < 2

  /** An 8-bit register image; element `k` is bit `k`. */
  type Byte = s: seq<Bit> | |s| == 8 witness [0, 0, 0, 0, 0, 0, 0, 0]

  /** The number in 0..255 an image stands for. */
  function ByteValue(b: Byte): (n: int)
    ensures 0 <= n < 256
  {
    b[0] as int + 2 * b[1] as int + 4 * b[2] as int + 8 * b[3] as int
    + 16 * b[4] as int + 32 * b[5] as int + 64 * b[6] as int + 128 * b[7] as int
  }

  /** `n & 0xFF` as an image: bit `k` is `(n >> k) & 1`, with Python's
      floor shifts, so that negative numbers are covered as well. */
  function ByteOf(n: int): (b: Byte)
  {
    var h1 := n / 2; var h2 := h1 / 2; var h3 := h2 / 2; var h4 := h3 / 2;
    var h5 := h4 / 2; var h6 := h5 / 2; var h7 := h6 / 2;
    [n % 2, h1 % 2, h2 % 2, h3 % 2, h4 % 2, h5 % 2, h6 % 2, h7 % 2]
  }

  /** The image of `n` stands for `n` modulo 256. */
  lemma ValueOfByteOf(n: int)
    ensures ByteValue(ByteOf(n)) == n % 256
  {
    LowEightBits(n);
  }

  /** Reading an image as a number and taking the low byte of that number
      gives the image back. */
  lemma ByteOfValue(b: Byte)
    ensures ByteOf(ByteValue(b)) == b
  {
    Digits(b[0], b[1], b[2], b[3], b[4], b[5], b[6], b[7]);
    assert b == [b[0], b[1], b[2], b[3], b[4], b[5], b[6], b[7]];
  }

  /** Two images standing for the same number are the same image. */
  lemma ValueInjective(a: Byte, b: Byte)
    requires ByteValue(a) == ByteValue(b)
    ensures a == b
  {
    ByteOfValue(a);
    ByteOfValue(b);
  }

  /** `n % 256` is spelled by the low eight bits of `n`. */
  lemma LowEightBits(n: int)
    ensures n % 256 == n % 2 + 2 * (n / 2 % 2) + 4 * (n / 2 / 2 % 2) + 8 * (n / 2 / 2 / 2 % 2)
      + 16 * (n / 2 / 2 / 2 / 2 % 2) + 32 * (n / 2 / 2 / 2 / 2 / 2 % 2)
      + 64 * (n / 2 / 2 / 2 / 2 / 2 / 2 % 2) + 128 * (n / 2 / 2 / 2 / 2 / 2 / 2 / 2 % 2)
  {
    var h1, r0 := Halve(n);
    var h2, r1 := Halve(h1);
    var h3, r2 := Halve(h2);
    var h4, r3 := Halve(h3);
    var h5, r4 := Halve(h4);
    var h6, r5 := Halve(h5);
    var h7, r6 := Halve(h6);
    var h8, r7 := Halve(h7);
    var s := r0 + 2 * r1 + 4 * r2 + 8 * r3 + 16 * r4 + 32 * r5 + 64 * r6 + 128 * r7;
    assert n == 256 * h8 + s;
    assert 0 <= s < 256;
  }

  /** `x >> 1` and `x & 1`. */
  lemma Halve(x: int) returns (h: int, r: int)
    ensures h == x / 2 && r == x % 2
    ensures x == 2 * h + r && 0 <= r < 2
  {
    h, r := x / 2, x % 2;
  }

  /** Shifting a sum of eight weighted digits right by `k` and masking
      with 1 gives back digit `k`. */
  lemma Digits(r0: int, r1: int, r2: int, r3: int, r4: int, r5: int, r6: int, r7: int)
    requires 0 <= r0 < 2 && 0 <= r1 < 2 && 0 <= r2 < 2 && 0 <= r3 < 2
    requires 0 <= r4 < 2 && 0 <= r5 < 2 && 0 <= r6 < 2 && 0 <= r7 < 2
    ensures var v := r0 + 2 * r1 + 4 * r2 + 8 * r3 + 16 * r4 + 32 * r5 + 64 * r6 + 128 * r7;
      && v % 2 == r0 && v / 2 % 2 == r1 && v / 2 / 2 % 2 == r2 && v / 2 / 2 / 2 % 2 == r3
      && v / 2 / 2 / 2 / 2 % 2 == r4 && v / 2 / 2 / 2 / 2 / 2 % 2 == r5
      && v / 2 / 2 / 2 / 2 / 2 / 2 % 2 == r6 && v / 2 / 2 / 2 / 2 / 2 / 2 / 2 % 2 == r7
  {
    var t7 := r7;
    var t6 := r6 + 2 * t7;
    var t5 := r5 + 2 * t6;
    var t4 := r4 + 2 * t5;
    var t3 := r3 + 2 * t4;
    var t2 := r2 + 2 * t3;
    var t1 := r1 + 2 * t2;
    var v := r0 + 2 * t1;
    assert v / 2 == t1;
    assert t1 / 2 == t2;
    assert t2 / 2 == t3;
    assert t3 / 2 == t4;
    assert t4 / 2 == t5;
    assert t5 / 2 == t6;
    assert t6 / 2 == t7;
  }

  /** `b | (1 << k)`: bit `k` becomes 1, the other seven bits are kept. */
  function SetBit(b: Byte, k: nat): (r: Byte)
    requires k < 8
    ensures r[k] == 1
    ensures forall j :: 0 <= j < 8 && j != k ==> r[j] == b[j]
  {
    b[k := 1]
  }

  /** `b & ~(1 << k)`: bit `k` becomes 0, the other seven bits are kept. */
  function ClearBit(b: Byte, k: nat): (r: Byte)
    requires k < 8
    ensures r[k] == 0
    ensures forall j :: 0 <= j < 8 && j != k ==> r[j] == b[j]
  {
    b[k := 0]
  }

  /** The value held in bits 4-5. */
  function Bits45(b: Byte): (v: nat)
    ensures v < 4
  {
    2 * b[5] as int + b[4] as int
  }

  /** The value held in bits 0-2. */
  function Bits012(b: Byte): (v: nat)
    ensures v < 8
  {
    4 * b[2] as int + 2 * b[1] as int + b[0] as int
  }

  /** The two-bit field is `(b >> 4) & 0b11` and the three-bit field is
      `b & 0b111`; bits 0-1 are `b & 0b11` and bits 4-6 `(b >> 4) & 0b111`. */
  lemma FieldValues(b: Byte)
    ensures Bits45(b) == ByteValue(b) / 16 % 4
    ensures Bits012(b) == ByteValue(b) % 8
    ensures 2 * b[1] as int + b[0] as int == ByteValue(b) % 4
    ensures 4 * b[6] as int + 2 * b[5] as int + b[4] as int == ByteValue(b) / 16 % 8
  {
    var low := b[0] as int + 2 * b[1] as int + 4 * b[2] as int + 8 * b[3] as int;
    var high := b[4] as int + 2 * b[5] as int + 4 * b[6] as int + 8 * b[7] as int;
    assert ByteValue(b) == low + 16 * high;
    assert ByteValue(b) / 16 == high;
    assert ByteValue(b) % 8 == Bits012(b);
    assert ByteValue(b) % 4 == 2 * b[1] as int + b[0] as int;
  }

  /** `b & ~(0b11 << 4) | (v << 4)`: bits 4-5 read back as `v` and every
      bit outside them is kept. */
  function WithBits45(b: Byte, v: nat): (r: Byte)
    requires v < 4
    ensures Bits45(r) == v
    ensures forall j :: 0 <= j < 8 && j != 4 && j != 5 ==> r[j] == b[j]
  {
    b[4 := v % 2][5 := v / 2]
  }

  /** `b & ~0b111 | v`: bits 0-2 read back as `v` and every bit outside
      them is kept. */
  function WithBits012(b: Byte, v: nat): (r: Byte)
    requires v < 8
    ensures Bits012(r) == v
    ensures forall j :: 3 <= j < 8 ==> r[j] == b[j]
  {
    b[0 := v % 2][1 := v / 2 % 2][2 := v / 4]
  }

  /** Bitwise `x | y` of two bits. */
  function BitOr(x: Bit, y: Bit): (z: Bit) {
    if x == 1 || y == 1 then 1 else 0
  }

  /** `b | m` on register images. */
  function OrInto(b: Byte, m: Byte): (r: Byte)
    ensures forall k :: 0 <= k < 8 ==> r[k] == BitOr(b[k], m[k])
  {
    [BitOr(b[0], m[0]), BitOr(b[1], m[1]), BitOr(b[2], m[2]), BitOr(b[3], m[3]),
     BitOr(b[4], m[4]), BitOr(b[5], m[5]), BitOr(b[6], m[6]), BitOr(b[7], m[7])]
  }

  // Calling a single-field setter twice leaves the same byte as calling it once.

  lemma SetBitIdempotent(b: Byte, k: nat)
    requires k < 8
    ensures SetBit(SetBit(b, k), k) == SetBit(b, k)
  {
  }

  lemma ClearBitIdempotent(b: Byte, k: nat)
    requires k < 8
    ensures ClearBit(ClearBit(b, k), k) == ClearBit(b, k)
  {
  }

  lemma WithBits45Idempotent(b: Byte, v: nat)
    requires v < 4
    ensures WithBits45(WithBits45(b, v), v) == WithBits45(b, v)
  {
  }

  lemma WithBits012Idempotent(b: Byte, v: nat)
    requires v < 8
    ensures WithBits012(WithBits012(b, v), v) == WithBits012(b, v)
  {
  }

  /** A field already holding `v` is left unchanged by writing `v`. */
  lemma WithBits45NoChange(b: Byte, v: nat)
    requires v < 4 && Bits45(b) == v
    ensures WithBits45(b, v) == b
  {
  }

  /** OR-ing the same bits in again changes nothing. */
  lemma OrIntoIdempotent(b: Byte, m: Byte)
    ensures OrInto(OrInto(b, m), m) == OrInto(b, m)
  {
  }
}
