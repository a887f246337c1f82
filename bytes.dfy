/** Bytes, the fixed-width integer casts of the image writer, big-endian
    encodings and the round-up-to-alignment arithmetic. */
module Bytes {

  type byte = b: int | 0 <= b < 0x100

  const U16_LIMIT: nat := 0x1_0000
  const U32_LIMIT: nat := 0x1_0000_0000
  const I32_MIN: int := -0x8000_0000
  const I32_MAX: int := 0x7FFF_FFFF

  /** `n` zero bytes. */
  function Zeros(n: nat): (r: seq<byte>)
    ensures |r| == n
    ensures forall i :: 0 <= i < n ==> r[i] == 0
  {
    seq(n, _ => 0)
  }

  /** `b` sits at offset `at` of `d`. */
  ghost predicate Holds(d: seq<byte>, at: nat, b: seq<byte>)
  {
    at + |b| <= |d| && d[at..at + |b|] == b
  }

  /** Any slice of bytes that hold also holds, at its own offset. */
  lemma {:induction false} HoldsSlice(d: seq<byte>, at: nat, x: seq<byte>, lo: nat, hi: nat)
    requires Holds(d, at, x) && lo <= hi <= |x|
    ensures Holds(d, at + lo, x[lo..hi])
  {
    forall q | at + lo <= q < at + hi
      ensures d[q] == x[q - at]
    {
      assert d[at..at + |x|][q - at] == d[q];
    }
    assert d[at + lo..at + hi] == x[lo..hi];
  }

  /** Bytes that hold inside bytes that hold, hold at the sum of offsets. */
  lemma {:induction false} HoldsWithin(d: seq<byte>, at: nat, x: seq<byte>, o: nat, y: seq<byte>)
    requires Holds(d, at, x) && Holds(x, o, y)
    ensures Holds(d, at + o, y)
  {
    HoldsSlice(d, at, x, o, o + |y|);
  }

  /** The second part of a concatenation holds after the first. */
  lemma {:induction false} HoldsSuffix(a: seq<byte>, b: seq<byte>)
    ensures Holds(a + b, |a|, b)
  {
    assert (a + b)[|a|..|a| + |b|] == b;
  }

  /** Bytes that hold still hold when more bytes follow. */
  lemma {:induction false} HoldsPrefix(a: seq<byte>, at: nat, x: seq<byte>, b: seq<byte>)
    requires Holds(a, at, x)
    ensures Holds(a + b, at, x)
  {
    assert (a + b)[at..at + |x|] == a[at..at + |x|];
  }

  /** Bytes that hold in the second part of a concatenation hold in the
      whole, after the first part. */
  lemma {:induction false} HoldsShift(a: seq<byte>, b: seq<byte>, o: nat, x: seq<byte>)
    requires Holds(b, o, x)
    ensures Holds(a + b, |a| + o, x)
  {
    assert (a + b)[|a| + o..|a| + o + |x|] == b[o..o + |x|];
  }

  /** The byte string of an ASCII text (the reserved names of the tree). */
  function Ascii(s: string): (r: seq<byte>)
    requires forall i :: 0 <= i < |s| ==> s[i] as int < 0x80
    ensures |r| == |s|
    ensures forall i :: 0 <= i < |s| ==> r[i] == s[i] as int
  {
    seq(|s|, i requires 0 <= i < |s| => s[i] as int)
  }

  /** Rust `x as u16` on an unsigned value: keeps the low 16 bits. */
  function AsU16(x: nat): (r: nat)
    ensures r < U16_LIMIT
    ensures (x - r) % U16_LIMIT == 0
    ensures x < U16_LIMIT ==> r == x
  {
    x % U16_LIMIT
  }

  /** Rust `x as u32` on an unsigned value: keeps the low 32 bits. */
  function AsU32(x: nat): (r: nat)
    ensures r < U32_LIMIT
    ensures (x - r) % U32_LIMIT == 0
    ensures x < U32_LIMIT ==> r == x
  {
    x % U32_LIMIT
  }

  /** Rust `x as i32` on an unsigned value: the low 32 bits read as a
      two's-complement number. */
  function AsI32(x: nat): (r: int)
    ensures I32_MIN <= r <= I32_MAX
    ensures (r - x) % U32_LIMIT == 0
    ensures x <= I32_MAX ==> r == x
  {
    var w := x % U32_LIMIT;
    if w <= I32_MAX then w else w - U32_LIMIT
  }

  /** `write_u8`. */
  function BeU8(v: byte): (r: seq<byte>)
    ensures |r| == 1 && r[0] == v
  {
    [v]
  }

  /** `write_u16::<BE>`: most significant byte first; reading the two
      bytes back gives the value. */
  function BeU16(v: nat): (r: seq<byte>)
    requires v < U16_LIMIT
    ensures |r| == 2 && DecodeU16(r) == v
  {
    [v / 0x100, v % 0x100]
  }

  /** `write_u32::<BE>`; reading the four bytes back gives the value. */
  function BeU32(v: nat): (r: seq<byte>)
    requires v < U32_LIMIT
    ensures |r| == 4 && DecodeU32(r) == v
  {
    var hi, lo := BeU16(v / U16_LIMIT), BeU16(v % U16_LIMIT);
    assert (hi + lo)[..2] == hi && (hi + lo)[2..] == lo;
    hi + lo
  }

  /** `write_i32::<BE>`: the two's-complement bit pattern, most significant
      byte first; reading the four bytes back as signed gives the value. */
  function BeI32(v: int): (r: seq<byte>)
    requires I32_MIN <= v <= I32_MAX
    ensures |r| == 4 && DecodeI32(r) == v
  {
    BeU32(if v < 0 then v + U32_LIMIT else v)
  }

  /** Reading back a big-endian 16-bit word. */
  function DecodeU16(s: seq<byte>): (r: nat)
    requires |s| == 2
    ensures r < U16_LIMIT
  {
    (s[0] as int) * 0x100 + s[1]
  }

  /** Reading back a big-endian unsigned 32-bit word. */
  function DecodeU32(s: seq<byte>): (r: nat)
    requires |s| == 4
    ensures r < U32_LIMIT
  {
    DecodeU16(s[..2]) * U16_LIMIT + DecodeU16(s[2..])
  }

  /** Reading back a big-endian signed 32-bit word. */
  function DecodeI32(s: seq<byte>): (r: int)
    requires |s| == 4
    ensures I32_MIN <= r <= I32_MAX
  {
    var w := DecodeU32(s);
    if w <= I32_MAX then w else w - U32_LIMIT
  }

  /** `write_i32::<BE>(x as i32)` writes the same four bytes as
      `write_u32::<BE>(x as u32)`: the entry fields of the table are the low
      32 bits of the index or offset. */
  lemma {:induction false} I32CastBytes(x: nat)
    ensures BeI32(AsI32(x)) == BeU32(AsU32(x))
  {
  }

  /** `(x + (a - 1)) / a * a`: the least multiple of `a` at or above `x`. */
  function AlignUp(x: nat, a: nat): (r: nat)
    requires a > 0
    ensures x <= r < x + a
    ensures r % a == 0
  {
    var q := (x + (a - 1)) / a;
    ModUnique(q * a, a, q, 0);
    q * a
  }

  lemma {:induction false} MulAtLeast(k: int, a: int)
    requires k >= 1 && a > 0
    ensures k * a >= a
  {
    if k > 1 {
      MulAtLeast(k - 1, a);
      assert k * a == (k - 1) * a + a;
    }
  }

  /** Euclidean division is unique: quotient and remainder are determined. */
  lemma {:induction false} ModUnique(x: int, a: int, q: int, r: int)
    requires a > 0 && x == q * a + r && 0 <= r < a
    ensures x % a == r && x / a == q
  {
    var d, m := x / a, x % a;
    assert x == d * a + m;
    assert (q - d) * a == m - r;
    if q - d >= 1 { MulAtLeast(q - d, a); }
    if d - q >= 1 { MulAtLeast(d - q, a); }
  }

  /** The two properties of AlignUp pin it down: no other multiple of `a`
      lies in `[x, x + a)`, so no smaller multiple is at or above `x`. */
  lemma {:induction false} AlignUpLeast(x: nat, a: nat, m: nat)
    requires a > 0 && m % a == 0 && m >= x
    ensures AlignUp(x, a) <= m
  {
    var r := AlignUp(x, a);
    var q, j := r / a, m / a;
    assert r == q * a && m == j * a;
    if j < q {
      MulAtLeast(q - j, a);
    }
  }

  /** The file placement of the table builder, `pos + (32 - pos % 32) % 32`:
      a multiple of 32 less than 32 above `pos`. */
  function PadTo32(pos: nat): (r: nat)
    ensures pos <= r < pos + 32 && r % 32 == 0
  {
    pos + (32 - pos % 32) % 32
  }

  /** The file placement agrees with the round-up formula of the regions. */
  lemma {:induction false} PadTo32IsAlignUp(pos: nat)
    ensures PadTo32(pos) == AlignUp(pos, 32)
  {
    var r := AlignUp(pos, 32);
    assert r % 32 == 0 && pos <= r < pos + 32;
  }

  /** The trailing pad of a payload, `(32 - len % 32) % 32`, ends it on a
      32-byte boundary with fewer than 32 zero bytes. */
  lemma {:induction false} TrailingPad(at: nat, len: nat)
    requires at % 32 == 0
    ensures (at + len + (32 - len % 32) % 32) % 32 == 0
    ensures at + len + (32 - len % 32) % 32 == at + AlignUp(len, 32)
  {
    PadTo32IsAlignUp(len);
    var m := AlignUp(len, 32);
    var c, d := at / 32, m / 32;
    assert at == c * 32 && m == d * 32;
    ModUnique(at + m, 32, c + d, 0);
  }
}
