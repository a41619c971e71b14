/**
 The accessors of `ProxyEntity`'s object drawing format, a `u32` whose lower
 word is the drawing format version and whose upper word is the maintenance
 release version. The accessors are modelled twice: as they are written, and
 as the lower-word/upper-word layout they document requires.
 */
module ProxyAccessors {
  import opened CodePairs
  import opened Bits
  import opened Entities

  const Word := 0x1_0000
  const Wide := 0x1_0000_0000

  /** `x as i32` for a `u32`: the same bits read as two's complement. */
  function Signed32(u: U32): (r: I32)
    ensures Unsigned32(r) == u
  {
    if u < 0x8000_0000 then u else u - Wide
  }

  /** Bitwise or of two 16-bit words. */
  function Or16(a: int, b: int): (r: int)
    requires 0 <= a < Word && 0 <= b < Word
    ensures 0 <= r < Word
  {
    ((a as bv16) | (b as bv16)) as int
  }

  /** Replacing the lower word of a `u32` keeps it a `u32` and keeps its
      upper word. */
  lemma ReplaceLowerWord(f: U32, x: int)
    requires 0 <= x < Word
    ensures var g := f - f % Word + x; 0 <= g < Wide && g / Word == f / Word && g % Word == x
  {
    var q := f / Word;
    assert f - f % Word == q * Word;
    assert q < Word;
    assert (q * Word + x) / Word == q;
  }

  /** A word shifted left by 4 and wrapped ends in four zero bits, so adding
      a value and wrapping again keeps that value's last four bits. */
  lemma KeepsLowNibble(u: U32, f: U32)
    ensures 0 <= u * 16 % Wide + f % Word
    ensures (u * 16 % Wide + f % Word) % Wide % 16 == f % 16
  {
    var shifted := u * 16 % Wide;
    assert shifted == u % 0x1000_0000 * 16;
    var low := f % Word;
    assert f == f / Word * Word + low;
    assert low % 16 == f % 16;
    var sum := shifted + low;
    if sum >= Wide {
      assert sum % Wide == sum - Wide;
    }
  }

  //----------------------------------------------------------------------------
  // As written
  //----------------------------------------------------------------------------

  /** `get_object_drawing_format_version`: the lower word. */
  function DrawingFormatVersion(p: ProxyData): (r: I32)
    ensures 0 <= r < Word
    ensures (p.objectDrawingFormat - r) % Word == 0
  {
    p.objectDrawingFormat % Word
  }

  /** `set_object_drawing_format_version` as written: the lower 16 bits of
      the version are or-ed into the word. An or with a value below 2^16
      leaves the upper word alone, so only the lower word is combined. */
  function SetDrawingFormatVersionAsWritten(p: ProxyData, version: I32): (r: ProxyData)
    ensures r.objectDrawingFormat / Word == p.objectDrawingFormat / Word
    ensures r.generated == p.generated
  {
    var f := p.objectDrawingFormat;
    var low := Or16(f % Word, Unsigned32(version) % Word);
    ReplaceLowerWord(f, low);
    p.(objectDrawingFormat := f - f % Word + low)
  }

  /** `get_object_maintenance_release_version` as written: the word read as
      an `i32`, shifted right by 4 with sign extension. */
  function MaintenanceVersionAsWritten(p: ProxyData): (r: I32)
    ensures -0x800_0000 <= r < 0x800_0000
    ensures 0 <= Signed32(p.objectDrawingFormat) - 16 * r < 16
  {
    Signed32(p.objectDrawingFormat) / 16
  }

  /** `set_object_mainenance_release_version` as written: the version
      shifted left by 4 (bits pushed out of the `i32` are lost), read as a
      `u32`, plus the lower word. The addition wraps as in a release build. */
  function SetMaintenanceVersionAsWritten(p: ProxyData, version: I32): (r: ProxyData)
    ensures r.objectDrawingFormat % 16 == p.objectDrawingFormat % 16
    ensures r.generated == p.generated
  {
    KeepsLowNibble(Unsigned32(version), p.objectDrawingFormat);
    p.(objectDrawingFormat := (Unsigned32(version) * 16 % Wide + p.objectDrawingFormat % Word) % Wide)
  }

  /** Setting the drawing format version to 1 and then to 2 reads back 3:
      the or keeps the bits of the earlier version. */
  lemma DrawingFormatVersionAccumulates()
    ensures var p := ProxyData(0, Fields(map[]));
      var once := SetDrawingFormatVersionAsWritten(p, 1);
      var twice := SetDrawingFormatVersionAsWritten(once, 2);
      DrawingFormatVersion(once) == 1 && DrawingFormatVersion(twice) == 3
  {
    assert Or16(0, 1) == 1;
    assert Or16(1, 2) == 3;
  }

  /** Setting the maintenance release version of a zero word to 1 changes
      the drawing format version to 16, and a drawing format version of 16
      reads back as maintenance release version 1. */
  lemma MaintenanceVersionOverlapsLowerWord()
    ensures var p := ProxyData(0, Fields(map[]));
      DrawingFormatVersion(SetMaintenanceVersionAsWritten(p, 1)) == 16
    ensures MaintenanceVersionAsWritten(ProxyData(16, Fields(map[]))) == 1
  {
  }

  //----------------------------------------------------------------------------
  // As the layout requires
  //----------------------------------------------------------------------------

  /** The drawing format version replaces the lower word. */
  function SetDrawingFormatVersion(p: ProxyData, version: I32): (r: ProxyData)
    ensures r.objectDrawingFormat % Word == Unsigned32(version) % Word
    ensures r.objectDrawingFormat / Word == p.objectDrawingFormat / Word
    ensures r.generated == p.generated
  {
    var f := p.objectDrawingFormat;
    ReplaceLowerWord(f, Unsigned32(version) % Word);
    p.(objectDrawingFormat := f - f % Word + Unsigned32(version) % Word)
  }

  /** The maintenance release version is the upper word, read as signed. */
  function MaintenanceVersion(p: ProxyData): (r: I32)
    ensures -0x8000 <= r < 0x8000
    ensures 0 <= Signed32(p.objectDrawingFormat) - Word * r < Word
  {
    Signed32(p.objectDrawingFormat) / Word
  }

  /** The maintenance release version replaces the upper word. */
  function SetMaintenanceVersion(p: ProxyData, version: I32): (r: ProxyData)
    ensures r.objectDrawingFormat / Word == Unsigned32(version) % Word
    ensures r.objectDrawingFormat % Word == p.objectDrawingFormat % Word
    ensures r.generated == p.generated
  {
    p.(objectDrawingFormat := Unsigned32(version) % Word * Word + p.objectDrawingFormat % Word)
  }

  /** A drawing format version that fits the lower word reads back as set,
      and setting it leaves the maintenance release version alone. */
  lemma DrawingFormatVersionRoundTrip(p: ProxyData, version: I32)
    requires 0 <= version < Word
    ensures DrawingFormatVersion(SetDrawingFormatVersion(p, version)) == version
    ensures MaintenanceVersion(SetDrawingFormatVersion(p, version)) == MaintenanceVersion(p)
  {
    var f := p.objectDrawingFormat;
    var g := SetDrawingFormatVersion(p, version).objectDrawingFormat;
    assert g == f - f % Word + version;
    UpperWordOfSigned(f, g);
  }

  /** Two words that differ only in the lower word have the same signed
      upper word. */
  lemma UpperWordOfSigned(f: U32, g: U32)
    requires f / Word == g / Word
    ensures Signed32(f) / Word == Signed32(g) / Word
  {
    if f < 0x8000_0000 {
      assert g < 0x8000_0000;
    } else {
      assert g >= 0x8000_0000;
      assert Signed32(f) == (f / Word - Word) * Word + f % Word;
      assert Signed32(g) == (g / Word - Word) * Word + g % Word;
    }
  }

  /** A maintenance release version that fits a signed upper word reads back
      as set, and setting it leaves the drawing format version alone. */
  lemma MaintenanceVersionRoundTrip(p: ProxyData, version: I32)
    requires -0x8000 <= version < 0x8000
    ensures MaintenanceVersion(SetMaintenanceVersion(p, version)) == version
    ensures DrawingFormatVersion(SetMaintenanceVersion(p, version)) == DrawingFormatVersion(p)
  {
    var low := p.objectDrawingFormat % Word;
    var g := SetMaintenanceVersion(p, version).objectDrawingFormat;
    if version >= 0 {
      assert g == version * Word + low;
      assert Signed32(g) == g;
    } else {
      assert Unsigned32(version) % Word == version + Word;
      assert g == (version + Word) * Word + low;
      assert Signed32(g) == version * Word + low;
    }
  }
}
