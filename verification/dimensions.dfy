/**
 The dimension family: the packed dimension-type code (group 70), the shared
 base fields, the shape-specific fields of each of the five dimension
 entities, and the code-100 marker that swaps the active shape while a
 DIMENSION is being read.
 */
module Dimensions {
  import opened CodePairs
  import opened Bits
  import opened CodePairPutBack
  import opened Entities
  import opened Catalogues
  import opened FieldLoop

  //----------------------------------------------------------------------------
  // Group 70: dimension type in the low four bits, three style flags above
  //----------------------------------------------------------------------------

  const BlockReferenceBit := 32
  const OrdinateXBit := 64
  const UserDefinedLocationBit := 128

  function Bit(on: bool): int { if on then 1 else 0 }

  /** `set_dimension_type`: the low four bits select the dimension type
      (through the enumeration, falling back to its default), bits 32, 64
      and 128 set the three flags. Nothing else changes. */
  function SetDimensionType(cat: Catalogue, base: DimensionBase, val: I16): (r: DimensionBase)
    ensures r.(dimensionType := base.dimensionType,
               isBlockReferenceReferencedByThisBlockOnly := base.isBlockReferenceReferencedByThisBlockOnly,
               isOrdinateXType := base.isOrdinateXType,
               isAtUserDefinedLocation := base.isAtUserDefinedLocation) == base
    ensures cat.enumKnown(DimensionTypeEnum, Unsigned16(val) % 16) ==> 0 <= r.dimensionType < 16
  {
    var u := Unsigned16(val);
    base.(isBlockReferenceReferencedByThisBlockOnly := BitSet(u, BlockReferenceBit),
          isOrdinateXType := BitSet(u, OrdinateXBit),
          isAtUserDefinedLocation := BitSet(u, UserDefinedLocationBit),
          dimensionType := cat.EnumFromNumber(DimensionTypeEnum, u % 16))
  }

  /** `get_dimension_type`: the type cast to 16 bits with the three flag bits
      or-ed in. For a type that fits the low nibble, the value holds the type
      in its low four bits, each flag in its own bit and nothing else. */
  function GetDimensionType(base: DimensionBase): (r: I16)
    ensures 0 <= base.dimensionType < 16 ==>
      r == base.dimensionType
           + BlockReferenceBit * Bit(base.isBlockReferenceReferencedByThisBlockOnly)
           + OrdinateXBit * Bit(base.isOrdinateXType)
           + UserDefinedLocationBit * Bit(base.isAtUserDefinedLocation)
  {
    var t := WrapI16(base.dimensionType);
    var a := if base.isBlockReferenceReferencedByThisBlockOnly then OrBit16(t, BlockReferenceBit) else t;
    var b := if base.isOrdinateXType then OrBit16(a, OrdinateXBit) else a;
    if base.isAtUserDefinedLocation then OrBit16(b, UserDefinedLocationBit) else b
  }

  /** A small value is its own two's-complement reading and has no bit at or
      above its bound. */
  lemma NoBitAbove(x: I16, p: int)
    requires LowBit(p) && 0 <= x < p
    ensures !BitSet(Unsigned16(x), p)
  {
    assert Unsigned16(x) / p == 0;
  }

  /** A byte is the sum of its low nibble and its bits 16 to 128. */
  lemma ByteBits(u: int)
    requires 0 <= u < 0x100
    ensures u == u % 16 + 16 * Bit(BitSet(u, 16)) + 32 * Bit(BitSet(u, 32))
                 + 64 * Bit(BitSet(u, 64)) + 128 * Bit(BitSet(u, 128))
  {
  }

  /** The bits of a group-70 value that `set_dimension_type` reads: the low
      nibble and bits 32, 64 and 128 (bit 16 and the high byte are dropped). */
  function KeptBits(val: I16): int {
    var u := Unsigned16(val);
    u % 16 + 32 * Bit(BitSet(u, 32)) + 64 * Bit(BitSet(u, 64)) + 128 * Bit(BitSet(u, 128))
  }

  /** Setting then getting keeps exactly the type nibble and the three flag
      bits of the value, as long as the nibble names a dimension type. */
  lemma {:induction false} SetThenGetKeepsBits(cat: Catalogue, base: DimensionBase, val: I16)
    requires cat.enumKnown(DimensionTypeEnum, Unsigned16(val) % 16)
    ensures GetDimensionType(SetDimensionType(cat, base, val)) == KeptBits(val)
  {
  }

  /** The round trip of `set_dimension_type`/`get_dimension_type`: a value
      whose low nibble names a dimension type and whose only other bits are
      32, 64 and 128 comes back unchanged. */
  lemma {:induction false} DimensionTypeRoundTrip(cat: Catalogue, base: DimensionBase, val: I16)
    requires cat.enumKnown(DimensionTypeEnum, Unsigned16(val) % 16)
    requires 0 <= val < 0x100 && !BitSet(val, 16)
    ensures GetDimensionType(SetDimensionType(cat, base, val)) == val
  {
    SetThenGetKeepsBits(cat, base, val);
    ByteBits(val);
  }

  /** The other direction: storing the packed value of a base whose type is a
      known nibble reproduces the base. */
  lemma {:induction false} GetThenSetIsIdentity(cat: Catalogue, base: DimensionBase)
    requires 0 <= base.dimensionType < 16
    requires cat.enumKnown(DimensionTypeEnum, base.dimensionType)
    ensures SetDimensionType(cat, base, GetDimensionType(base)) == base
  {
    var v := GetDimensionType(base);
    ByteBits(v);
  }

  //----------------------------------------------------------------------------
  // Shared base fields
  //----------------------------------------------------------------------------

  /** Group codes of the shared base fields. */
  function BaseCodes(): set<int> {
    {1, 2, 3, 10, 20, 30, 11, 21, 31, 41, 42, 51, 53, 70, 71, 72, 210, 220, 230, 280}
  }

  function StringBaseCodes(): set<int> { {1, 2, 3} }
  function ShortBaseCodes(): set<int> { {70, 71, 72, 280} }

  /** Whether a payload has the type the base field of `code` expects. */
  predicate BaseValueFits(code: int, v: Value) {
    if code in StringBaseCodes() then v.Str?
    else if code in ShortBaseCodes() then v.Short?
    else v.Double?
  }

  /** Reference definition of the field each base code stands for, read back
      as the payload that would carry it (enumerations and the packed group
      70 as their 16-bit codes). */
  function BaseField(b: DimensionBase, code: int): Value
    requires code in BaseCodes()
  {
    match code
    case 1 => Str(b.text)
    case 2 => Str(b.blockName)
    case 3 => Str(b.dimensionStyleName)
    case 10 => Double(b.definitionPoint1.x)
    case 20 => Double(b.definitionPoint1.y)
    case 30 => Double(b.definitionPoint1.z)
    case 11 => Double(b.textMidPoint.x)
    case 21 => Double(b.textMidPoint.y)
    case 31 => Double(b.textMidPoint.z)
    case 41 => Double(b.textLineSpacingFactor)
    case 42 => Double(b.actualMeasurement)
    case 51 => Double(b.horizontalDirectionAngle)
    case 53 => Double(b.textRotationAngle)
    case 70 => Short(GetDimensionType(b))
    case 71 => Short(WrapI16(b.attachmentPoint))
    case 72 => Short(WrapI16(b.textLineSpacingStyle))
    case 210 => Double(b.normal.x)
    case 220 => Double(b.normal.y)
    case 230 => Double(b.normal.z)
    case 280 => Short(WrapI16(b.version))
    case _ => Str("")
  }

  /** The enumeration decoded at an enumerated base code. */
  function BaseEnum(code: int): EnumKind {
    if code == 71 then AttachmentPointEnum
    else if code == 72 then TextLineSpacingStyleEnum
    else VersionEnum
  }

  /** `DimensionBase::apply_dimension_code_pair`: a base code with a payload of
      the right type sets its field and nothing else; a payload of the wrong
      type is an error; any other code is left unclaimed. */
  function ApplyBaseCodePair(cat: Catalogue, base: DimensionBase, pair: CodePair): (r: Result<Step<DimensionBase>>)
    ensures pair.code !in BaseCodes() ==> r == Ok(Unclaimed)
    ensures pair.code in BaseCodes() ==> (r.Ok? <==> BaseValueFits(pair.code, pair.value))
    ensures r.Err? ==> r.error == WrongValueType(pair.offset)
    ensures r.Ok? && pair.code in BaseCodes() ==> r.value.Claimed?
  {
    if pair.code !in BaseCodes() then Ok(Unclaimed)
    else if !BaseValueFits(pair.code, pair.value) then Err(WrongValueType(pair.offset))
    else Ok(Claimed(StoreBaseField(cat, base, pair.code, pair.value)))
  }

  /** The field table of the shared base: store a payload already known to
      have the right type into the field its code names. Enumerated fields
      go through the enumeration's lookup, group 70 through
      `set_dimension_type`. */
  function StoreBaseField(cat: Catalogue, base: DimensionBase, code: int, v: Value): DimensionBase
    requires code in BaseCodes() && BaseValueFits(code, v)
  {
    match code
    case 1 => base.(text := v.str)
    case 2 => base.(blockName := v.str)
    case 3 => base.(dimensionStyleName := v.str)
    case 10 => base.(definitionPoint1 := base.definitionPoint1.(x := v.f64))
    case 20 => base.(definitionPoint1 := base.definitionPoint1.(y := v.f64))
    case 30 => base.(definitionPoint1 := base.definitionPoint1.(z := v.f64))
    case 11 => base.(textMidPoint := base.textMidPoint.(x := v.f64))
    case 21 => base.(textMidPoint := base.textMidPoint.(y := v.f64))
    case 31 => base.(textMidPoint := base.textMidPoint.(z := v.f64))
    case 41 => base.(textLineSpacingFactor := v.f64)
    case 42 => base.(actualMeasurement := v.f64)
    case 51 => base.(horizontalDirectionAngle := v.f64)
    case 53 => base.(textRotationAngle := v.f64)
    case 70 => SetDimensionType(cat, base, v.i16)
    case 71 => base.(attachmentPoint := cat.EnumFromNumber(AttachmentPointEnum, v.i16))
    case 72 => base.(textLineSpacingStyle := cat.EnumFromNumber(TextLineSpacingStyleEnum, v.i16))
    case 210 => base.(normal := base.normal.(x := v.f64))
    case 220 => base.(normal := base.normal.(y := v.f64))
    case 230 => base.(normal := base.normal.(z := v.f64))
    case 280 => base.(version := cat.EnumFromNumber(VersionEnum, v.i16))
    case _ => base
  }

  /** Reading one base pair of the right type leaves every other base field
      as it was. */
  lemma BasePairKeepsOtherFields(cat: Catalogue, base: DimensionBase, pair: CodePair, c: int)
    requires pair.code in BaseCodes() && BaseValueFits(pair.code, pair.value)
    requires c in BaseCodes() && c != pair.code
    ensures ApplyBaseCodePair(cat, base, pair).Ok?
    ensures BaseField(ApplyBaseCodePair(cat, base, pair).value.state, c) == BaseField(base, c)
  {
    // Split by group of codes so that each unfolding stays small.
    if pair.code in {1, 2, 3} {
      StoreKeepsText(cat, base, pair.code, pair.value, c);
    }     else if pair.code in {10, 20, 30, 11, 21, 31} {
      StoreKeepsPoint(cat, base, pair.code, pair.value, c);
    }     else if pair.code in {41, 42, 51, 53, 210, 220, 230} {
      StoreKeepsScalar(cat, base, pair.code, pair.value, c);
    }     else if pair.code in {70, 71, 72, 280} {
      StoreKeepsShort(cat, base, pair.code, pair.value, c);
    }
  }

  /** Frame of the field table for the three names. */
  lemma StoreKeepsText(cat: Catalogue, base: DimensionBase, code: int, v: Value, c: int)
    requires code in {1, 2, 3} && BaseValueFits(code, v)
    requires c in BaseCodes() && c != code
    ensures BaseField(StoreBaseField(cat, base, code, v), c) == BaseField(base, c)
  {
  }

  /** Frame of the field table for the definition and text mid points. */
  lemma StoreKeepsPoint(cat: Catalogue, base: DimensionBase, code: int, v: Value, c: int)
    requires code in {10, 20, 30, 11, 21, 31} && BaseValueFits(code, v)
    requires c in BaseCodes() && c != code
    ensures BaseField(StoreBaseField(cat, base, code, v), c) == BaseField(base, c)
  {
  }

  /** Frame of the field table for the factors, angles and normal. */
  lemma StoreKeepsScalar(cat: Catalogue, base: DimensionBase, code: int, v: Value, c: int)
    requires code in {41, 42, 51, 53, 210, 220, 230} && BaseValueFits(code, v)
    requires c in BaseCodes() && c != code
    ensures BaseField(StoreBaseField(cat, base, code, v), c) == BaseField(base, c)
  {
  }

  /** Frame of the field table for the 16-bit codes. */
  lemma StoreKeepsShort(cat: Catalogue, base: DimensionBase, code: int, v: Value, c: int)
    requires code in {70, 71, 72, 280} && BaseValueFits(code, v)
    requires c in BaseCodes() && c != code
    ensures BaseField(StoreBaseField(cat, base, code, v), c) == BaseField(base, c)
  {
  }

  /** Reading one base pair of the right type sets the field its code names:
      it reads back as the payload (for enumerations, when the payload names
      an enumerator; for group 70, when it is a packed dimension type). */
  lemma {:induction false} BasePairSetsItsField(cat: Catalogue, base: DimensionBase, pair: CodePair)
    requires pair.code in BaseCodes() && BaseValueFits(pair.code, pair.value)
    ensures ApplyBaseCodePair(cat, base, pair).Ok?
    ensures var b := ApplyBaseCodePair(cat, base, pair).value.state;
      && (pair.code !in ShortBaseCodes() ==> BaseField(b, pair.code) == pair.value)
      && (pair.code in {71, 72, 280} && cat.enumKnown(BaseEnum(pair.code), pair.value.i16) ==>
            BaseField(b, pair.code) == pair.value)
      && (pair.code == 70 && cat.enumKnown(DimensionTypeEnum, Unsigned16(pair.value.i16) % 16)
            && 0 <= pair.value.i16 < 0x100 && !BitSet(pair.value.i16, 16) ==>
            BaseField(b, 70) == pair.value)
  {
    if pair.code == 70 {
      var v := pair.value.i16;
      if cat.enumKnown(DimensionTypeEnum, Unsigned16(v) % 16) && 0 <= v < 0x100 && !BitSet(v, 16) {
        DimensionTypeRoundTrip(cat, base, v);
      }
    }
  }

  //----------------------------------------------------------------------------
  // Shape-specific fields
  //----------------------------------------------------------------------------

  /** The shape-specific group codes, in the order the writers emit them. A
      point coordinate's code is ten times its axis plus the point's digit. */
  function ShapeCodeList(k: ShapeKind): seq<int> {
    match k
    case RotatedKind => [12, 22, 32, 13, 23, 33, 14, 24, 34, 50, 52]
    case RadialKind => [15, 25, 35, 40]
    case DiameterKind => [15, 25, 35, 40]
    case AngularThreePointKind => [13, 23, 33, 14, 24, 34, 15, 25, 35, 16, 26, 36]
    case OrdinateKind => [13, 23, 33, 14, 24, 34]
  }

  function ShapeCodes(k: ShapeKind): set<int> {
    match k
    case RotatedKind => {12, 22, 32, 13, 23, 33, 14, 24, 34, 50, 52}
    case RadialKind => {15, 25, 35, 40}
    case DiameterKind => {15, 25, 35, 40}
    case AngularThreePointKind => {13, 23, 33, 14, 24, 34, 15, 25, 35, 16, 26, 36}
    case OrdinateKind => {13, 23, 33, 14, 24, 34}
  }

  /** Reference definition of the field each shape code stands for. */
  function ShapeField(sh: Shape, code: int): F64
    requires code in ShapeCodes(sh.Kind())
  {
    match sh
    case Rotated(ip, d2, d3, rotation, extension) =>
      if code == 50 then rotation
      else if code == 52 then extension
      else if code % 10 == 2 then Coord(ip, code)
      else if code % 10 == 3 then Coord(d2, code)
      else Coord(d3, code)
    case Radial(d2, leader) => if code == 40 then leader else Coord(d2, code)
    case Diameter(d2, leader) => if code == 40 then leader else Coord(d2, code)
    case AngularThreePoint(d2, d3, d4, d5) =>
      if code % 10 == 3 then Coord(d2, code)
      else if code % 10 == 4 then Coord(d3, code)
      else if code % 10 == 5 then Coord(d4, code)
      else Coord(d5, code)
    case Ordinate(d2, d3) => if code % 10 == 3 then Coord(d2, code) else Coord(d3, code)
  }

  /** The shape half of `EntityType::apply_dimension_code_pair`: store a
      float into the shape field a code names. The shape keeps its kind, the
      field reads back as stored, and every other shape field is kept. */
  function StoreShapeField(sh: Shape, code: int, f: F64): (r: Shape)
    requires code in ShapeCodes(sh.Kind())
    ensures r.Kind() == sh.Kind()
    ensures ShapeField(r, code) == f
    ensures forall c :: c in ShapeCodes(sh.Kind()) && c != code ==> ShapeField(r, c) == ShapeField(sh, c)
  {
    match sh
    case Rotated(ip, d2, d3, rotation, extension) =>
      if code == 50 then Rotated(ip, d2, d3, f, extension)
      else if code == 52 then Rotated(ip, d2, d3, rotation, f)
      else if code % 10 == 2 then Rotated(WithCoord(ip, code, f), d2, d3, rotation, extension)
      else if code % 10 == 3 then Rotated(ip, WithCoord(d2, code, f), d3, rotation, extension)
      else Rotated(ip, d2, WithCoord(d3, code, f), rotation, extension)
    case Radial(d2, leader) =>
      if code == 40 then Radial(d2, f) else Radial(WithCoord(d2, code, f), leader)
    case Diameter(d2, leader) =>
      if code == 40 then Diameter(d2, f) else Diameter(WithCoord(d2, code, f), leader)
    case AngularThreePoint(d2, d3, d4, d5) =>
      if code % 10 == 3 then AngularThreePoint(WithCoord(d2, code, f), d3, d4, d5)
      else if code % 10 == 4 then AngularThreePoint(d2, WithCoord(d3, code, f), d4, d5)
      else if code % 10 == 5 then AngularThreePoint(d2, d3, WithCoord(d4, code, f), d5)
      else AngularThreePoint(d2, d3, d4, WithCoord(d5, code, f))
    case Ordinate(d2, d3) =>
      if code % 10 == 3 then Ordinate(WithCoord(d2, code, f), d3)
      else Ordinate(d2, WithCoord(d3, code, f))
  }

  /** `EntityType::apply_dimension_code_pair` on a dimension: the active
      shape's codes are tried first (each takes a float), then the base's;
      any other code is left for common-field reading. The shape never
      changes kind. */
  function ApplyDimensionData(cat: Catalogue, d: DimensionData, pair: CodePair): (r: Result<Step<DimensionData>>)
    ensures r.Ok? && r.value.Claimed? ==> r.value.state.shape.Kind() == d.shape.Kind()
    ensures pair.code in ShapeCodes(d.shape.Kind()) ==>
      && (r.Ok? <==> pair.value.Double?)
      && (r.Err? ==> r.error == WrongValueType(pair.offset))
      && (r.Ok? ==> r.value.Claimed? && r.value.state.base == d.base
                    && ShapeField(r.value.state.shape, pair.code) == pair.value.f64)
    ensures pair.code !in ShapeCodes(d.shape.Kind()) ==>
      var b := ApplyBaseCodePair(cat, d.base, pair);
      && (r.Ok? <==> b.Ok?)
      && (r.Err? ==> r.error == b.error)
      && (r.Ok? ==> (r.value.Claimed? <==> b.value.Claimed?))
      && (r.Ok? && r.value.Claimed? ==> r.value.state == DimensionData(b.value.state, d.shape))
  {
    if pair.code in ShapeCodes(d.shape.Kind()) then
      var f :- AssertF64(pair);
      Ok(Claimed(DimensionData(d.base, StoreShapeField(d.shape, pair.code, f))))
    else
      var b :- ApplyBaseCodePair(cat, d.base, pair);
      if b.Claimed? then Ok(Claimed(DimensionData(b.state, d.shape))) else Ok(Unclaimed)
  }

  /** `EntityType::apply_dimension_code_pair` on any entity: only a dimension
      has dimension fields; asking any other kind is an enumeration error at
      the pair's offset. */
  function ApplyDimensionCodePair(cat: Catalogue, e: EntityType, pair: CodePair): (r: Result<Step<EntityType>>)
    ensures !e.Dimension? ==> r == Err(UnexpectedEnumValue(pair.offset))
    ensures e.Dimension? ==>
      var a := ApplyDimensionData(cat, e.dim, pair);
      && (r.Ok? <==> a.Ok?)
      && (r.Err? ==> r.error == a.error)
      && (r.Ok? ==> (r.value.Claimed? <==> a.value.Claimed?))
      && (r.Ok? && r.value.Claimed? ==> r.value.state == Dimension(a.value.state))
  {
    if !e.Dimension? then Err(UnexpectedEnumValue(pair.offset))
    else
      var a :- ApplyDimensionData(cat, e.dim, pair);
      if a.Claimed? then Ok(Claimed(Dimension(a.state))) else Ok(Unclaimed)
  }

  //----------------------------------------------------------------------------
  // Reading a DIMENSION: the marker swap
  //----------------------------------------------------------------------------

  /** The code-100 markers that select a shape. Any other marker (including
      the two the rotated writer emits) selects nothing. */
  function MarkerShape(marker: string): Option<ShapeKind> {
    if marker == "AcDbRadialDimension" then Some(RadialKind)
    else if marker == "AcDbDiametricDimension" then Some(DiameterKind)
    else if marker == "AcDb3PointAngularDimension" then Some(AngularThreePointKind)
    else if marker == "AcDbOrdinateDimension" then Some(OrdinateKind)
    else None
  }

  /** A recognised marker replaces the active shape by that kind's default,
      carrying the base read so far; an unrecognised one changes nothing. */
  function SwitchShape(cat: Catalogue, d: DimensionData, marker: string): (r: DimensionData)
    requires cat.Valid()
    ensures r.base == d.base
    ensures MarkerShape(marker).Some? ==> r.shape.Kind() == MarkerShape(marker).value
    ensures MarkerShape(marker).None? ==> r == d
  {
    match MarkerShape(marker)
    case Some(k) => DimensionData(d.base, cat.defaultShape(k))
    case None => d
  }

  /** One pass of the DIMENSION loop: code 100 is always the loop's own (a
      marker must be a string), every other pair goes to the dimension's
      fields and, when they do not claim it, to common-field reading. */
  function DimensionStep(cat: Catalogue, d: DimensionData, pair: CodePair): (r: Result<Step<DimensionData>>)
    requires cat.Valid()
    ensures pair.code == 100 ==>
      && (r.Ok? <==> pair.value.Str?)
      && (r.Err? ==> r.error == WrongValueType(pair.offset))
      && (r.Ok? ==> r.value.Claimed? && r.value.state == SwitchShape(cat, d, pair.value.str))
    ensures pair.code != 100 ==> r == ApplyDimensionData(cat, d, pair)
  {
    if pair.code == 100 then
      var marker :- AssertString(pair);
      Ok(Claimed(SwitchShape(cat, d, marker)))
    else
      ApplyDimensionData(cat, d, pair)
  }

  /** The DIMENSION loop's step as a value for the field loop. */
  function DimensionSteps(cat: Catalogue): (DimensionData, CodePair) -> Result<Step<DimensionData>>
    requires cat.Valid()
  {
    (d, p) => DimensionStep(cat, d, p)
  }

  /** Before any marker, a dimension is a rotated one with default fields. */
  function InitialDimension(cat: Catalogue): DimensionData {
    DimensionData(cat.defaultBase, cat.defaultShape(RotatedKind))
  }

  /** The DIMENSION branch of `Entity::read`, after its tag: run the loop up
      to the next tag and return the dimension with the common fields read. */
  function ReadDimension(cat: Catalogue, s: Stream): (r: (Result<Entity>, Stream))
    requires cat.Valid()
    ensures IsSuffix(View(r.1), View(s))
    ensures r.0.Ok? ==> |View(r.1)| > 0 && IsTag(View(r.1)[0]) && r.0.value.specific.Dimension?
    ensures View(s) == [] ==> r.0 == Err(UnexpectedEndOfInput)
    ensures View(s) != [] && IsTag(View(s)[0]) ==>
      r.0 == Ok(Entity(DefaultCommon(), Dimension(InitialDimension(cat)))) && View(r.1) == View(s)
  {
    var (res, rest) := ReadFields(cat, DimensionSteps(cat), InitialDimension(cat), DefaultCommon(), s);
    match res
    case Ok((d, common)) => (Ok(Entity(common, Dimension(d))), rest)
    case Err(e) => (Err(e), rest)
  }

  //----------------------------------------------------------------------------
  // Writing the shape, and reading it back
  //----------------------------------------------------------------------------

  /** The float pairs of the given shape codes, in order. */
  function FieldPairs(sh: Shape, codes: seq<int>): (r: seq<CodePair>)
    requires forall i :: 0 <= i < |codes| ==> codes[i] in ShapeCodes(sh.Kind())
    ensures |r| == |codes|
    ensures forall i :: 0 <= i < |codes| ==> r[i] == F64Pair(codes[i], ShapeField(sh, codes[i]))
  {
    seq(|codes|, i requires 0 <= i < |codes| => F64Pair(codes[i], ShapeField(sh, codes[i])))
  }

  lemma ShapeCodeListFacts(k: ShapeKind)
    ensures forall i :: 0 <= i < |ShapeCodeList(k)| ==> ShapeCodeList(k)[i] in ShapeCodes(k)
    ensures 100 !in ShapeCodes(k) && 0 !in ShapeCodes(k)
  {
    match k
    case RotatedKind =>
    case RadialKind =>
    case DiameterKind =>
    case AngularThreePointKind =>
    case OrdinateKind =>
  }

  /** The shape half of the dimension writers: the subclass marker that
      names the shape, then its fields in a fixed order. The rotated shape
      has no marker of its own; from R13 on it is framed by the aligned and
      rotated markers, which the reader does not recognise. */
  function ShapePairs(sh: Shape, version: AcadVersion): seq<CodePair> {
    ShapeCodeListFacts(sh.Kind());
    var fields := FieldPairs(sh, ShapeCodeList(sh.Kind()));
    match sh
    case Rotated(_, _, _, _, _) =>
      (if AtLeast(version, R13()) then [StrPair(100, "AcDbAlignedDimension")] else [])
      + fields
      + (if AtLeast(version, R13()) then [StrPair(100, "AcDbRotatedDimension")] else [])
    case Radial(_, _) => [StrPair(100, "AcDbRadialDimension")] + fields
    case Diameter(_, _) => [StrPair(100, "AcDbDiametricDimension")] + fields
    case AngularThreePoint(_, _, _, _) => [StrPair(100, "AcDb3PointAngularDimension")] + fields
    case Ordinate(_, _) => [StrPair(100, "AcDbOrdinateDimension")] + fields
  }

  /** Storing the fields of `src` named by `codes`, one after another. */
  function StoreAll(sh: Shape, src: Shape, codes: seq<int>): (r: Shape)
    requires sh.Kind() == src.Kind()
    requires forall i :: 0 <= i < |codes| ==> codes[i] in ShapeCodes(sh.Kind())
    ensures r.Kind() == sh.Kind()
    decreases |codes|
  {
    if codes == [] then sh
    else StoreAll(StoreShapeField(sh, codes[0], ShapeField(src, codes[0])), src, codes[1..])
  }

  /** After storing a list of codes, each listed field holds the source's
      value (storing it twice changes nothing) and every other field is
      untouched. */
  lemma {:induction false} StoreAllFields(sh: Shape, src: Shape, codes: seq<int>, c: int)
    requires sh.Kind() == src.Kind()
    requires forall i :: 0 <= i < |codes| ==> codes[i] in ShapeCodes(sh.Kind())
    requires c in ShapeCodes(sh.Kind())
    ensures ShapeField(StoreAll(sh, src, codes), c) == if c in codes then ShapeField(src, c) else ShapeField(sh, c)
    decreases |codes|
  {
    if codes != [] {
      var next := StoreShapeField(sh, codes[0], ShapeField(src, codes[0]));
      StoreAllFields(next, src, codes[1..], c);
    }
  }

  /** Two shapes of one kind that agree on every field are equal. */
  lemma ShapeExtensionality(a: Shape, b: Shape)
    requires a.Kind() == b.Kind()
    requires forall c :: c in ShapeCodes(a.Kind()) ==> ShapeField(a, c) == ShapeField(b, c)
    ensures a == b
  {
    ShapeCodeListFacts(a.Kind());
    var codes := ShapeCodeList(a.Kind());
    assert forall i :: 0 <= i < |codes| ==> ShapeField(a, codes[i]) == ShapeField(b, codes[i]);
    match a
    case Rotated(_, _, _, _, _) =>
      assert ShapeField(a, 12) == ShapeField(b, 12) && ShapeField(a, 22) == ShapeField(b, 22) && ShapeField(a, 32) == ShapeField(b, 32) && ShapeField(a, 13) == ShapeField(b, 13) && ShapeField(a, 23) == ShapeField(b, 23) && ShapeField(a, 33) == ShapeField(b, 33) && ShapeField(a, 14) == ShapeField(b, 14) && ShapeField(a, 24) == ShapeField(b, 24) && ShapeField(a, 34) == ShapeField(b, 34) && ShapeField(a, 50) == ShapeField(b, 50) && ShapeField(a, 52) == ShapeField(b, 52);
    case Radial(_, _) =>
      assert ShapeField(a, 15) == ShapeField(b, 15) && ShapeField(a, 25) == ShapeField(b, 25) && ShapeField(a, 35) == ShapeField(b, 35) && ShapeField(a, 40) == ShapeField(b, 40);
    case Diameter(_, _) =>
      assert ShapeField(a, 15) == ShapeField(b, 15) && ShapeField(a, 25) == ShapeField(b, 25) && ShapeField(a, 35) == ShapeField(b, 35) && ShapeField(a, 40) == ShapeField(b, 40);
    case AngularThreePoint(_, _, _, _) =>
      assert ShapeField(a, 13) == ShapeField(b, 13) && ShapeField(a, 23) == ShapeField(b, 23) && ShapeField(a, 33) == ShapeField(b, 33) && ShapeField(a, 14) == ShapeField(b, 14) && ShapeField(a, 24) == ShapeField(b, 24) && ShapeField(a, 34) == ShapeField(b, 34) && ShapeField(a, 15) == ShapeField(b, 15) && ShapeField(a, 25) == ShapeField(b, 25) && ShapeField(a, 35) == ShapeField(b, 35) && ShapeField(a, 16) == ShapeField(b, 16) && ShapeField(a, 26) == ShapeField(b, 26) && ShapeField(a, 36) == ShapeField(b, 36);
    case Ordinate(_, _) =>
      assert ShapeField(a, 13) == ShapeField(b, 13) && ShapeField(a, 23) == ShapeField(b, 23) && ShapeField(a, 33) == ShapeField(b, 33) && ShapeField(a, 14) == ShapeField(b, 14) && ShapeField(a, 24) == ShapeField(b, 24) && ShapeField(a, 34) == ShapeField(b, 34);
  }

  /** Reading the float pairs of a shape's codes stores them one by one,
      with every pair claimed by the dimension's own fields. */
  lemma {:induction false} RunFieldPairs(cat: Catalogue, base: DimensionBase, sh: Shape, src: Shape, codes: seq<int>)
    requires cat.Valid()
    requires sh.Kind() == src.Kind()
    requires forall i :: 0 <= i < |codes| ==> codes[i] in ShapeCodes(sh.Kind())
    ensures Run(DimensionSteps(cat), DimensionData(base, sh), FieldPairs(src, codes))
         == Ok(DimensionData(base, StoreAll(sh, src, codes)))
    ensures Claims(DimensionSteps(cat), DimensionData(base, sh), FieldPairs(src, codes))
    decreases |codes|
  {
    ShapeCodeListFacts(sh.Kind());
    var pairs := FieldPairs(src, codes);
    if codes != [] {
      var next := StoreShapeField(sh, codes[0], ShapeField(src, codes[0]));
      assert DimensionSteps(cat)(DimensionData(base, sh), pairs[0]) == Ok(Claimed(DimensionData(base, next)));
      assert pairs[1..] == FieldPairs(src, codes[1..]);
      RunFieldPairs(cat, base, next, src, codes[1..]);
    }
  }

  /** Reading a shape's full field list from any shape of its kind yields
      exactly that shape. */
  lemma StoreAllListed(sh: Shape, src: Shape)
    requires sh.Kind() == src.Kind()
    ensures (ShapeCodeListFacts(sh.Kind()); StoreAll(sh, src, ShapeCodeList(sh.Kind()))) == src
  {
    ShapeCodeListFacts(sh.Kind());
    var codes := ShapeCodeList(sh.Kind());
    var r := StoreAll(sh, src, codes);
    forall c | c in ShapeCodes(sh.Kind())
      ensures ShapeField(r, c) == ShapeField(src, c)
    {
      StoreAllFields(sh, src, codes, c);
    }
    ShapeExtensionality(r, src);
  }

  /** A one-pair run of the DIMENSION loop over a marker. */
  lemma RunMarker(cat: Catalogue, d: DimensionData, marker: string)
    requires cat.Valid()
    ensures Run(DimensionSteps(cat), d, [StrPair(100, marker)]) == Ok(SwitchShape(cat, d, marker))
    ensures Claims(DimensionSteps(cat), d, [StrPair(100, marker)])
  {
    assert [StrPair(100, marker)][1..] == [];
  }

  /** The shape round trip: whatever shape the reader holds (a rotated one,
      when a rotated shape is written), reading what the shape writer emits
      yields exactly the written shape, keeps the base, and never falls back
      to common-field reading. */
  lemma {:induction false} ShapeRoundTrip(cat: Catalogue, d: DimensionData, sh: Shape, version: AcadVersion)
    requires cat.Valid()
    requires sh.Rotated? ==> d.shape.Rotated?
    ensures Run(DimensionSteps(cat), d, ShapePairs(sh, version)) == Ok(DimensionData(d.base, sh))
    ensures Claims(DimensionSteps(cat), d, ShapePairs(sh, version))
  {
    ShapeCodeListFacts(sh.Kind());
    var step := DimensionSteps(cat);
    var codes := ShapeCodeList(sh.Kind());
    var fields := FieldPairs(sh, codes);
    if sh.Rotated? {
      var pre: seq<CodePair> := if AtLeast(version, R13()) then [StrPair(100, "AcDbAlignedDimension")] else [];
      var post: seq<CodePair> := if AtLeast(version, R13()) then [StrPair(100, "AcDbRotatedDimension")] else [];
      assert ShapePairs(sh, version) == pre + fields + post;
      RunMarker(cat, d, "AcDbAlignedDimension");
      assert Run(step, d, pre) == Ok(d);
      RunFieldPairs(cat, d.base, d.shape, sh, codes);
      StoreAllListed(d.shape, sh);
      var mid := DimensionData(d.base, sh);
      RunAppend(step, d, pre, fields);
      RunMarker(cat, mid, "AcDbRotatedDimension");
      assert Run(step, mid, post) == Ok(mid);
      RunAppend(step, d, pre + fields, post);
    } else {
      var marker := match sh
        case Radial(_, _) => "AcDbRadialDimension"
        case Diameter(_, _) => "AcDbDiametricDimension"
        case AngularThreePoint(_, _, _, _) => "AcDb3PointAngularDimension"
        case Ordinate(_, _) => "AcDbOrdinateDimension";
      assert ShapePairs(sh, version) == [StrPair(100, marker)] + fields;
      RunMarker(cat, d, marker);
      var switched := SwitchShape(cat, d, marker);
      RunFieldPairs(cat, d.base, switched.shape, sh, codes);
      StoreAllListed(switched.shape, sh);
      RunAppend(step, d, [StrPair(100, marker)], fields);
    }
  }

  /** The markers framing a rotated shape name no shape the reader knows. */
  lemma FramingMarkersSwitchNothing()
    ensures MarkerShape("AcDbAlignedDimension").None?
    ensures MarkerShape("AcDbRotatedDimension").None?
  {
  }

  /** The rotated writer's only code-100 pairs are its two framing markers,
      and they lead exactly from R13 on. */
  lemma RotatedMarkers(sh: Shape, version: AcadVersion)
    requires sh.Rotated?
    ensures var pairs := ShapePairs(sh, version);
      forall i :: 0 <= i < |pairs| && pairs[i].code == 100 ==>
        pairs[i] == StrPair(100, "AcDbAlignedDimension") || pairs[i] == StrPair(100, "AcDbRotatedDimension")
    ensures var pairs := ShapePairs(sh, version);
      |pairs| > 0 && pairs[0].code == 100 <==> AtLeast(version, R13())
  {
    ShapeCodeListFacts(sh.Kind());
    var fields := FieldPairs(sh, ShapeCodeList(sh.Kind()));
    var pre := if AtLeast(version, R13()) then [StrPair(100, "AcDbAlignedDimension")] else [];
    var post := if AtLeast(version, R13()) then [StrPair(100, "AcDbRotatedDimension")] else [];
    var pairs := ShapePairs(sh, version);
    assert pairs == pre + fields + post;
    forall i | 0 <= i < |pairs| && pairs[i].code == 100
      ensures pairs[i] == StrPair(100, "AcDbAlignedDimension") || pairs[i] == StrPair(100, "AcDbRotatedDimension")
    {
      if i < |pre| {
        assert pairs[i] == pre[i];
      } else if i >= |pre| + |fields| {
        assert pairs[i] == post[i - |pre| - |fields|];
      }
    }
    if !AtLeast(version, R13()) && |pairs| > 0 {
      assert pairs[0] == fields[0];
    }
  }

  /** The marker a dimension writer emits is the one the reader switches on
      for that shape; the rotated writer's markers, written only from R13 on,
      switch nothing, so the reader stays on its initial rotated shape. */
  lemma WriterMarkersMatchReader(sh: Shape, version: AcadVersion)
    ensures var pairs := ShapePairs(sh, version);
      !sh.Rotated? ==> |pairs| > 0 && pairs[0] == StrPair(100, pairs[0].value.str)
                       && MarkerShape(pairs[0].value.str) == Some(sh.Kind())
    ensures var pairs := ShapePairs(sh, version);
      sh.Rotated? ==> forall i :: 0 <= i < |pairs| && pairs[i].code == 100 ==>
                        pairs[i].value.Str? && MarkerShape(pairs[i].value.str).None?
    ensures var pairs := ShapePairs(sh, version);
      sh.Rotated? ==> (|pairs| > 0 && pairs[0].code == 100 <==> AtLeast(version, R13()))
  {
    if sh.Rotated? {
      RotatedMarkers(sh, version);
      FramingMarkersSwitchNothing();
    }
  }

  /** The shape writer never writes a code-0 pair. */
  lemma ShapePairsHaveNoTags(sh: Shape, version: AcadVersion)
    ensures NoTags(ShapePairs(sh, version))
  {
    ShapeCodeListFacts(sh.Kind());
  }

  lemma ReadDimensionShape(cat: Catalogue, s: Stream, sh: Shape, version: AcadVersion, tag: CodePair, tail: seq<Item>)
    requires cat.Valid() && tag.code == 0
    requires View(s) == Oks(ShapePairs(sh, version)) + [Ok(tag)] + tail
    ensures ReadDimension(cat, s).0 == Ok(Entity(DefaultCommon(), Dimension(DimensionData(cat.defaultBase, sh))))
    ensures View(ReadDimension(cat, s).1) == [Ok(tag)] + tail
  {
    var pairs := ShapePairs(sh, version);
    ShapeCodeListFacts(sh.Kind());
    assert NoTags(pairs);
    var d := InitialDimension(cat);
    assert d.shape.Kind() == RotatedKind;
    ShapeRoundTrip(cat, d, sh, version);
    ReadFieldsFollowsRun(cat, DimensionSteps(cat), d, DefaultCommon(), s, pairs, tag, tail);
  }
}
