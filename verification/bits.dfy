/**
 Flag bits of signed integer fields, written as arithmetic on the unsigned
 reading of their two's-complement form so that no bit-vector conversion is
 needed. `p` is the bit's worth (32 for bit 5).
 */
module Bits {
  import opened CodePairs

  /** The unsigned reading of an `i16`'s bits. */
  function Unsigned16(x: I16): (r: int)
    ensures 0 <= r < 0x1_0000
    ensures x >= 0 ==> r == x
    ensures x < 0 ==> r == x + 0x1_0000
  {
    x % 0x1_0000
  }

  /** The unsigned reading of an `i32`'s bits. */
  function Unsigned32(x: I32): (r: U32)
    ensures x >= 0 ==> r == x
    ensures x < 0 ==> r == x + 0x1_0000_0000
  {
    x % 0x1_0000_0000
  }

  /** Whether the bit worth `p` is set in the unsigned word `u`. */
  predicate BitSet(u: int, p: int)
    requires p > 0
  {
    u / p % 2 == 1
  }

  /** The value worth of the bit sets the generated flag accessors use. */
  predicate LowBit(p: int) {
    p == 8 || p == 16 || p == 32 || p == 64 || p == 128
  }

  /** The bounds of the non-negative halves and of the unsigned readings of
      16- and 32-bit words. */
  predicate WordBound(m: int) {
    m == 0x8000 || m == 0x1_0000 || m == 0x8000_0000 || m == 0x1_0000_0000
  }

  /** Setting a clear bit adds its worth and clearing a set bit subtracts it,
      and neither leaves the word. */
  lemma FlipBit(u: int, p: int, m: int)
    requires LowBit(p) && 0 <= u < m && WordBound(m)
    ensures BitSet(u, p) ==> p <= u && !BitSet(u - p, p)
    ensures !BitSet(u, p) ==> u + p < m && BitSet(u + p, p)
  {
    if p == 8 { FlipBit8(u, m); }
    else if p == 16 { FlipBit16(u, m); }
    else if p == 32 { FlipBit32(u, m); }
    else if p == 64 { FlipBit64(u, m); }
    else { FlipBit128(u, m); }
  }

  lemma FlipBit8(u: int, m: int)
    requires 0 <= u < m && WordBound(m)
    ensures BitSet(u, 8) ==> 8 <= u && !BitSet(u - 8, 8)
    ensures !BitSet(u, 8) ==> u + 8 < m && BitSet(u + 8, 8)
  {
    if m == 0x8000 {
      assert u + 8 >= 0x8000 ==> u / 8 == 0x8000 / 8 - 1;
    } else if m == 0x1_0000 {
      assert u + 8 >= 0x1_0000 ==> u / 8 == 0x1_0000 / 8 - 1;
    } else if m == 0x8000_0000 {
      assert u + 8 >= 0x8000_0000 ==> u / 8 == 0x8000_0000 / 8 - 1;
    } else {
      assert u + 8 >= 0x1_0000_0000 ==> u / 8 == 0x1_0000_0000 / 8 - 1;
    }
  }

  lemma FlipBit16(u: int, m: int)
    requires 0 <= u < m && WordBound(m)
    ensures BitSet(u, 16) ==> 16 <= u && !BitSet(u - 16, 16)
    ensures !BitSet(u, 16) ==> u + 16 < m && BitSet(u + 16, 16)
  {
    if m == 0x8000 {
      assert u + 16 >= 0x8000 ==> u / 16 == 0x8000 / 16 - 1;
    } else if m == 0x1_0000 {
      assert u + 16 >= 0x1_0000 ==> u / 16 == 0x1_0000 / 16 - 1;
    } else if m == 0x8000_0000 {
      assert u + 16 >= 0x8000_0000 ==> u / 16 == 0x8000_0000 / 16 - 1;
    } else {
      assert u + 16 >= 0x1_0000_0000 ==> u / 16 == 0x1_0000_0000 / 16 - 1;
    }
  }

  lemma FlipBit32(u: int, m: int)
    requires 0 <= u < m && WordBound(m)
    ensures BitSet(u, 32) ==> 32 <= u && !BitSet(u - 32, 32)
    ensures !BitSet(u, 32) ==> u + 32 < m && BitSet(u + 32, 32)
  {
    if m == 0x8000 {
      assert u + 32 >= 0x8000 ==> u / 32 == 0x8000 / 32 - 1;
    } else if m == 0x1_0000 {
      assert u + 32 >= 0x1_0000 ==> u / 32 == 0x1_0000 / 32 - 1;
    } else if m == 0x8000_0000 {
      assert u + 32 >= 0x8000_0000 ==> u / 32 == 0x8000_0000 / 32 - 1;
    } else {
      assert u + 32 >= 0x1_0000_0000 ==> u / 32 == 0x1_0000_0000 / 32 - 1;
    }
  }

  lemma FlipBit64(u: int, m: int)
    requires 0 <= u < m && WordBound(m)
    ensures BitSet(u, 64) ==> 64 <= u && !BitSet(u - 64, 64)
    ensures !BitSet(u, 64) ==> u + 64 < m && BitSet(u + 64, 64)
  {
    if m == 0x8000 {
      assert u + 64 >= 0x8000 ==> u / 64 == 0x8000 / 64 - 1;
    } else if m == 0x1_0000 {
      assert u + 64 >= 0x1_0000 ==> u / 64 == 0x1_0000 / 64 - 1;
    } else if m == 0x8000_0000 {
      assert u + 64 >= 0x8000_0000 ==> u / 64 == 0x8000_0000 / 64 - 1;
    } else {
      assert u + 64 >= 0x1_0000_0000 ==> u / 64 == 0x1_0000_0000 / 64 - 1;
    }
  }

  lemma FlipBit128(u: int, m: int)
    requires 0 <= u < m && WordBound(m)
    ensures BitSet(u, 128) ==> 128 <= u && !BitSet(u - 128, 128)
    ensures !BitSet(u, 128) ==> u + 128 < m && BitSet(u + 128, 128)
  {
    if m == 0x8000 {
      assert u + 128 >= 0x8000 ==> u / 128 == 0x8000 / 128 - 1;
    } else if m == 0x1_0000 {
      assert u + 128 >= 0x1_0000 ==> u / 128 == 0x1_0000 / 128 - 1;
    } else if m == 0x8000_0000 {
      assert u + 128 >= 0x8000_0000 ==> u / 128 == 0x8000_0000 / 128 - 1;
    } else {
      assert u + 128 >= 0x1_0000_0000 ==> u / 128 == 0x1_0000_0000 / 128 - 1;
    }
  }

  /** `x | p` on an `i16`, for one of the low flag bits. */
  function OrBit16(x: I16, p: int): (r: I16)
    requires LowBit(p)
    ensures BitSet(Unsigned16(r), p)
    ensures BitSet(Unsigned16(x), p) ==> r == x
    ensures !BitSet(Unsigned16(x), p) ==> r == x + p
  {
    FlipBit(Unsigned16(x), p, if x >= 0 then 0x8000 else 0x1_0000);
    if BitSet(Unsigned16(x), p) then x else x + p
  }

  /** The generated flag setter on an `i32` field: set or clear the bit
      worth `p`, leaving every other bit alone. */
  function WithBit32(x: I32, p: int, on: bool): (r: I32)
    requires LowBit(p)
    ensures BitSet(Unsigned32(r), p) == on
    ensures BitSet(Unsigned32(x), p) == on ==> r == x
    ensures on && !BitSet(Unsigned32(x), p) ==> r == x + p && Unsigned32(r) == Unsigned32(x) + p
    ensures !on && BitSet(Unsigned32(x), p) ==> r == x - p && Unsigned32(r) == Unsigned32(x) - p
    ensures Unsigned32(r) == Unsigned32(x) || Unsigned32(r) == Unsigned32(x) + p || Unsigned32(r) == Unsigned32(x) - p
  {
    if BitSet(Unsigned32(x), p) == on then x
    else if on then
      SetClearBit32(x, p);
      x + p
    else
      ClearSetBit32(x, p);
      x - p
  }

  /** Adding the worth of a clear bit sets it, without overflow. */
  lemma SetClearBit32(x: I32, p: int)
    requires LowBit(p) && !BitSet(Unsigned32(x), p)
    ensures -0x8000_0000 <= x + p < 0x8000_0000
    ensures Unsigned32(x + p) == Unsigned32(x) + p && BitSet(Unsigned32(x + p), p)
  {
    FlipBit(Unsigned32(x), p, if x >= 0 then 0x8000_0000 else 0x1_0000_0000);
  }

  /** Subtracting the worth of a set bit clears it, without overflow. */
  lemma ClearSetBit32(x: I32, p: int)
    requires LowBit(p) && BitSet(Unsigned32(x), p)
    ensures -0x8000_0000 <= x - p < 0x8000_0000
    ensures Unsigned32(x - p) == Unsigned32(x) - p && !BitSet(Unsigned32(x - p), p)
  {
    FlipBit(Unsigned32(x), p, if x >= 0 then 0x8000_0000 else 0x1_0000_0000);
  }

  /** Moving a word by the worth of bit 6 leaves bit 5 as it was. */
  lemma Bit32IgnoresBit64(u: int, v: int)
    requires 0 <= u && 0 <= v && (v == u + 64 || v == u - 64 || v == u)
    ensures BitSet(v, 32) == BitSet(u, 32)
  {
    if v == u + 64 {
      assert v / 32 == u / 32 + 2;
    } else if v == u - 64 {
      assert u / 32 == v / 32 + 2;
    }
  }

  /** A word split at bits 32, 64 and 128: the bits below 32, the two flag
      bits and everything from 128 up. */
  lemma SplitWord(u: int, high: int, b64: int, b32: int, low: int)
    requires u == 128 * high + 64 * b64 + 32 * b32 + low
    requires 0 <= b64 <= 1 && 0 <= b32 <= 1 && 0 <= low < 32
    ensures u % 32 == low && u / 128 == high
    ensures BitSet(u, 32) == (b32 == 1) && BitSet(u, 64) == (b64 == 1)
  {
    DivMod32(u, 4 * high + 2 * b64 + b32, low);
    DivMod64(u, 2 * high + b64, 32 * b32 + low);
    DivMod128(u, high, 64 * b64 + 32 * b32 + low);
  }

  lemma Split(u: int) returns (high: int, b64: int, b32: int, low: int)
    ensures u == 128 * high + 64 * b64 + 32 * b32 + low
    ensures 0 <= b64 <= 1 && 0 <= b32 <= 1 && 0 <= low < 32
  {
    var r1 := u % 128;
    var r2 := r1 % 64;
    high, b64, b32, low := u / 128, r1 / 64, r2 / 32, r2 % 32;
  }

  lemma DivMod32(u: int, q: int, rem: int)
    requires u == 32 * q + rem && 0 <= rem < 32
    ensures u % 32 == rem && u / 32 == q
  {
  }

  lemma DivMod64(u: int, q: int, rem: int)
    requires u == 64 * q + rem && 0 <= rem < 64
    ensures u % 64 == rem && u / 64 == q
  {
  }

  lemma DivMod128(u: int, q: int, rem: int)
    requires u == 128 * q + rem && 0 <= rem < 128
    ensures u % 128 == rem && u / 128 == q
  {
  }

  /** Setting bit 32 and then bit 64 keeps the bits below 32 and every bit
      from 128 up. */
  lemma WithBits32And64KeepOthers(x: I32, on32: bool, on64: bool)
    ensures var y := WithBit32(WithBit32(x, 32, on32), 64, on64);
      && Unsigned32(y) % 32 == Unsigned32(x) % 32
      && Unsigned32(y) / 128 == Unsigned32(x) / 128
  {
    var u0 := Unsigned32(x);
    var high, b64, b32, low := Split(u0);
    SplitWord(u0, high, b64, b32, low);
    var x1 := WithBit32(x, 32, on32);
    var c32 := if on32 then 1 else 0;
    SplitWord(Unsigned32(x1), high, b64, c32, low);
    var x2 := WithBit32(x1, 64, on64);
    var c64 := if on64 then 1 else 0;
    SplitWord(Unsigned32(x2), high, c64, c32, low);
  }

  lemma WithBit64KeepsBit32(x: I32, on: bool)
    ensures BitSet(Unsigned32(WithBit32(x, 64, on)), 32) == BitSet(Unsigned32(x), 32)
  {
    Bit32IgnoresBit64(Unsigned32(x), Unsigned32(WithBit32(x, 64, on)));
  }
}
