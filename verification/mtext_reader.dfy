/**
 The custom reader of MTEXT. Code 50 means three different things: the
 rotation angle until a code-75 column type has been read, then the column
 count (once), then one more column height each time.
 */
module MTextReader {
  import opened CodePairs
  import opened CodePairPutBack
  import opened Entities
  import opened Catalogues
  import opened FieldLoop

  /** The fields read so far and the two flags of the column-data context. */
  datatype MTextState = MTextState(m: MTextData, readingColumnData: bool, readColumnCount: bool)

  function StartState(m: MTextData): MTextState {
    MTextState(m, false, false)
  }

  predicate IsTextCode(code: int) {
    code == 1 || code == 3 || code == 7 || code == 430
  }

  /** Float codes other than 50. */
  predicate IsFloatCode(code: int) {
    || code == 10 || code == 20 || code == 30 || code == 11 || code == 21 || code == 31
    || code == 210 || code == 220 || code == 230
    || code == 40 || code == 41 || code == 42 || code == 43 || code == 44 || code == 45
    || code == 48 || code == 49
  }

  /** 16-bit codes other than 75. */
  predicate IsShortCode(code: int) {
    code == 71 || code == 72 || code == 73 || code == 63 || code == 76 || code == 78 || code == 79
  }

  predicate IsIntegerCode(code: int) {
    code == 90 || code == 420 || code == 441
  }

  predicate IsMTextCode(code: int) {
    code == 50 || code == 75 || IsTextCode(code) || IsFloatCode(code) || IsShortCode(code) || IsIntegerCode(code)
  }

  //----------------------------------------------------------------------------
  // Reference definition of the plain fields
  //----------------------------------------------------------------------------

  function FloatField(m: MTextData, code: int): F64 {
    if code == 10 || code == 20 || code == 30 then Coord(m.insertionPoint, code)
    else if code == 11 || code == 21 || code == 31 then Coord(m.xAxisDirection, code)
    else if code == 210 || code == 220 || code == 230 then Coord(m.extrusionDirection, code)
    else if code == 40 then m.initialTextHeight
    else if code == 41 then m.referenceRectangleWidth
    else if code == 42 then m.horizontalWidth
    else if code == 43 then m.verticalHeight
    else if code == 44 then m.lineSpacingFactor
    else if code == 45 then m.fillBoxScale
    else if code == 48 then m.columnWidth
    else m.columnGutter
  }

  function StoreFloat(m: MTextData, code: int, f: F64): (r: MTextData)
    requires IsFloatCode(code)
    ensures FloatField(r, code) == f
    ensures forall c :: IsFloatCode(c) && c != code ==> FloatField(r, c) == FloatField(m, c)
    ensures r.(insertionPoint := m.insertionPoint, xAxisDirection := m.xAxisDirection,
               extrusionDirection := m.extrusionDirection, initialTextHeight := m.initialTextHeight,
               referenceRectangleWidth := m.referenceRectangleWidth, horizontalWidth := m.horizontalWidth,
               verticalHeight := m.verticalHeight, lineSpacingFactor := m.lineSpacingFactor,
               fillBoxScale := m.fillBoxScale, columnWidth := m.columnWidth,
               columnGutter := m.columnGutter) == m
  {
    if code == 10 || code == 20 || code == 30 then m.(insertionPoint := WithCoord(m.insertionPoint, code, f))
    else if code == 11 || code == 21 || code == 31 then m.(xAxisDirection := WithCoord(m.xAxisDirection, code, f))
    else if code == 210 || code == 220 || code == 230 then m.(extrusionDirection := WithCoord(m.extrusionDirection, code, f))
    else if code == 40 then m.(initialTextHeight := f)
    else if code == 41 then m.(referenceRectangleWidth := f)
    else if code == 42 then m.(horizontalWidth := f)
    else if code == 43 then m.(verticalHeight := f)
    else if code == 44 then m.(lineSpacingFactor := f)
    else if code == 45 then m.(fillBoxScale := f)
    else if code == 48 then m.(columnWidth := f)
    else m.(columnGutter := f)
  }

  /** Code 3 appends a chunk of extended text; 1, 7 and 430 replace a field. */
  function StoreText(m: MTextData, code: int, s: string): (r: MTextData)
    requires IsTextCode(code)
    ensures code == 3 ==> r.extendedText == m.extendedText + [s]
    ensures code == 1 ==> r.text == s
    ensures code == 7 ==> r.textStyleName == s
    ensures code == 430 ==> r.backgroundColorName == s
    ensures code != 3 ==> r.extendedText == m.extendedText
    ensures code != 1 ==> r.text == m.text
    ensures code != 7 ==> r.textStyleName == m.textStyleName
    ensures code != 430 ==> r.backgroundColorName == m.backgroundColorName
    ensures r.(extendedText := m.extendedText, text := m.text, textStyleName := m.textStyleName,
               backgroundColorName := m.backgroundColorName) == m
    ensures r.columnHeights == m.columnHeights && r.columnCount == m.columnCount
  {
    if code == 3 then m.(extendedText := m.extendedText + [s])
    else if code == 1 then m.(text := s)
    else if code == 7 then m.(textStyleName := s)
    else m.(backgroundColorName := s)
  }

  function StoreShort(cat: Catalogue, m: MTextData, code: int, v: I16): (r: MTextData)
    requires IsShortCode(code)
    ensures code == 71 ==> r.attachmentPoint == cat.EnumFromNumber(AttachmentPointEnum, v)
    ensures code == 72 ==> r.drawingDirection == cat.EnumFromNumber(DrawingDirectionEnum, v)
    ensures code == 73 ==> r.lineSpacingStyle == cat.EnumFromNumber(MTextLineSpacingStyleEnum, v)
    ensures code == 63 ==> r.backgroundFillColor == v
    ensures code == 76 ==> r.columnCount == v
    ensures code == 78 ==> r.isColumnFlowReversed == AsBool(v)
    ensures code == 79 ==> r.isColumnAutoHeight == AsBool(v)
    ensures code != 71 ==> r.attachmentPoint == m.attachmentPoint
    ensures code != 72 ==> r.drawingDirection == m.drawingDirection
    ensures code != 73 ==> r.lineSpacingStyle == m.lineSpacingStyle
    ensures code != 63 ==> r.backgroundFillColor == m.backgroundFillColor
    ensures code != 76 ==> r.columnCount == m.columnCount
    ensures code != 78 ==> r.isColumnFlowReversed == m.isColumnFlowReversed
    ensures code != 79 ==> r.isColumnAutoHeight == m.isColumnAutoHeight
    ensures r.(attachmentPoint := m.attachmentPoint, drawingDirection := m.drawingDirection,
               lineSpacingStyle := m.lineSpacingStyle, backgroundFillColor := m.backgroundFillColor,
               columnCount := m.columnCount, isColumnFlowReversed := m.isColumnFlowReversed,
               isColumnAutoHeight := m.isColumnAutoHeight) == m
  {
    if code == 71 then m.(attachmentPoint := cat.EnumFromNumber(AttachmentPointEnum, v))
    else if code == 72 then m.(drawingDirection := cat.EnumFromNumber(DrawingDirectionEnum, v))
    else if code == 73 then m.(lineSpacingStyle := cat.EnumFromNumber(MTextLineSpacingStyleEnum, v))
    else if code == 63 then m.(backgroundFillColor := v)
    else if code == 76 then m.(columnCount := v)
    else if code == 78 then m.(isColumnFlowReversed := AsBool(v))
    else m.(isColumnAutoHeight := AsBool(v))
  }

  function StoreInteger(cat: Catalogue, m: MTextData, code: int, v: I32): (r: MTextData)
    requires IsIntegerCode(code)
    ensures code == 90 ==> r.backgroundFillSetting == cat.EnumFromNumber(BackgroundFillSettingEnum, v)
    ensures code == 420 ==> r.backgroundColorRgb == v
    ensures code == 441 ==> r.backgroundFillColorTransparency == v
    ensures code != 90 ==> r.backgroundFillSetting == m.backgroundFillSetting
    ensures code != 420 ==> r.backgroundColorRgb == m.backgroundColorRgb
    ensures code != 441 ==> r.backgroundFillColorTransparency == m.backgroundFillColorTransparency
    ensures r.(backgroundFillSetting := m.backgroundFillSetting, backgroundColorRgb := m.backgroundColorRgb,
               backgroundFillColorTransparency := m.backgroundFillColorTransparency) == m
  {
    if code == 90 then m.(backgroundFillSetting := cat.EnumFromNumber(BackgroundFillSettingEnum, v))
    else if code == 420 then m.(backgroundColorRgb := v)
    else m.(backgroundFillColorTransparency := v)
  }

  /** Code 50 by context: rotation before column data, then the column count
      (converted with `as i32`), then column heights. */
  function Store50(st: MTextState, f: F64): (r: MTextState)
    ensures r.readingColumnData == st.readingColumnData
    ensures st.readingColumnData ==> r.readColumnCount
    ensures !st.readingColumnData ==> r.readColumnCount == st.readColumnCount
    ensures r.m == st.m.(rotationAngle := r.m.rotationAngle, columnCount := r.m.columnCount,
                         columnHeights := r.m.columnHeights)
    ensures r.m.rotationAngle == if st.readingColumnData then st.m.rotationAngle else f
    ensures r.m.columnCount ==
      if st.readingColumnData && !st.readColumnCount then F64ToI32(f) else st.m.columnCount
    ensures |st.m.columnHeights| <= |r.m.columnHeights| <= |st.m.columnHeights| + 1
    ensures r.m.columnHeights[..|st.m.columnHeights|] == st.m.columnHeights
    ensures |r.m.columnHeights| == |st.m.columnHeights| + 1 <==> st.readingColumnData && st.readColumnCount
    ensures |r.m.columnHeights| == |st.m.columnHeights| + 1 ==> r.m.columnHeights[|st.m.columnHeights|] == f
  {
    if st.readingColumnData then
      if st.readColumnCount then st.(m := st.m.(columnHeights := st.m.columnHeights + [f]))
      else st.(m := st.m.(columnCount := F64ToI32(f)), readColumnCount := true)
    else st.(m := st.m.(rotationAngle := f))
  }

  /** One pass of the MTEXT reader loop. */
  function MTextStep(cat: Catalogue, st: MTextState, pair: CodePair): (r: Result<Step<MTextState>>)
    ensures (r.Ok? && r.value.Unclaimed?) <==> !IsMTextCode(pair.code)
    ensures r.Err? ==> r.error == WrongValueType(pair.offset)
    ensures pair.code == 50 ==>
      && (r.Ok? <==> pair.value.Double?)
      && (r.Ok? ==> r.value == Claimed(Store50(st, pair.value.f64)))
    ensures pair.code == 75 ==>
      && (r.Ok? <==> pair.value.Short?)
      && (r.Ok? ==> r.value == Claimed(st.(m := st.m.(columnType := pair.value.i16), readingColumnData := true)))
    ensures IsFloatCode(pair.code) ==>
      && (r.Ok? <==> pair.value.Double?)
      && (r.Ok? ==> r.value == Claimed(st.(m := StoreFloat(st.m, pair.code, pair.value.f64))))
    ensures IsTextCode(pair.code) ==>
      && (r.Ok? <==> pair.value.Str?)
      && (r.Ok? ==> r.value == Claimed(st.(m := StoreText(st.m, pair.code, pair.value.str))))
    ensures IsShortCode(pair.code) ==>
      && (r.Ok? <==> pair.value.Short?)
      && (r.Ok? ==> r.value == Claimed(st.(m := StoreShort(cat, st.m, pair.code, pair.value.i16))))
    ensures IsIntegerCode(pair.code) ==>
      && (r.Ok? <==> pair.value.Integer?)
      && (r.Ok? ==> r.value == Claimed(st.(m := StoreInteger(cat, st.m, pair.code, pair.value.i32))))
    ensures pair.code != 50 && pair.code != 75 && r.Ok? && r.value.Claimed? ==>
      && r.value.state.readingColumnData == st.readingColumnData
      && r.value.state.readColumnCount == st.readColumnCount
      && r.value.state.m.columnHeights == st.m.columnHeights
  {
    var code := pair.code;
    if code == 50 then
      var f :- AssertF64(pair);
      Ok(Claimed(Store50(st, f)))
    else if code == 75 then
      var v :- AssertI16(pair);
      Ok(Claimed(st.(m := st.m.(columnType := v), readingColumnData := true)))
    else if IsFloatCode(code) then
      var f :- AssertF64(pair);
      Ok(Claimed(st.(m := StoreFloat(st.m, code, f))))
    else if IsTextCode(code) then
      var s :- AssertString(pair);
      Ok(Claimed(st.(m := StoreText(st.m, code, s))))
    else if IsShortCode(code) then
      var v :- AssertI16(pair);
      Ok(Claimed(st.(m := StoreShort(cat, st.m, code, v))))
    else if IsIntegerCode(code) then
      var v :- AssertI32(pair);
      Ok(Claimed(st.(m := StoreInteger(cat, st.m, code, v))))
    else Ok(Unclaimed)
  }

  function MTextSteps(cat: Catalogue): (MTextState, CodePair) -> Result<Step<MTextState>> {
    (st, p) => MTextStep(cat, st, p)
  }

  /** `apply_custom_reader_mtext`: run the step to the next tag over the
      instance the catalogue made. */
  function ReadMText(cat: Catalogue, m: MTextData, s: Stream): (r: (Result<(MTextState, EntityCommon)>, Stream))
    requires cat.Valid()
    ensures IsSuffix(View(r.1), View(s))
    ensures r.0.Ok? ==> |View(r.1)| > 0 && IsTag(View(r.1)[0])
  {
    ReadFields(cat, MTextSteps(cat), StartState(m), DefaultCommon(), s)
  }

  //----------------------------------------------------------------------------
  // Properties
  //----------------------------------------------------------------------------

  function F64Pairs(code: int, fs: seq<F64>): (r: seq<CodePair>)
    ensures |r| == |fs|
    ensures forall i :: 0 <= i < |fs| ==> r[i] == F64Pair(code, fs[i])
  {
    seq(|fs|, i requires 0 <= i < |fs| => F64Pair(code, fs[i]))
  }

  /** Once the column count has been read, code-50 pairs are column heights:
      each one is appended, in order, with no cap, and nothing else changes. */
  lemma {:induction false} HeightsAccumulate(cat: Catalogue, st: MTextState, hs: seq<F64>)
    requires st.readingColumnData && st.readColumnCount
    ensures Run(MTextSteps(cat), st, F64Pairs(50, hs)) ==
      Ok(st.(m := st.m.(columnHeights := st.m.columnHeights + hs)))
    decreases |hs|
  {
    var pairs := F64Pairs(50, hs);
    if hs == [] {
      assert st.m.columnHeights + hs == st.m.columnHeights;
    } else {
      var next := st.(m := st.m.(columnHeights := st.m.columnHeights + [hs[0]]));
      assert MTextSteps(cat)(st, pairs[0]) == Ok(Claimed(next));
      assert pairs[1..] == F64Pairs(50, hs[1..]);
      HeightsAccumulate(cat, next, hs[1..]);
      assert next.m.columnHeights + hs[1..] == st.m.columnHeights + hs;
    }
  }

  /** Before any column data, every code-50 pair replaces the rotation
      angle, so the last one wins. */
  lemma {:induction false} RotationBeforeColumns(cat: Catalogue, st: MTextState, rs: seq<F64>)
    requires !st.readingColumnData && rs != []
    ensures Run(MTextSteps(cat), st, F64Pairs(50, rs)) ==
      Ok(st.(m := st.m.(rotationAngle := rs[|rs| - 1])))
    decreases |rs|
  {
    var pairs := F64Pairs(50, rs);
    var next := st.(m := st.m.(rotationAngle := rs[0]));
    assert MTextSteps(cat)(st, pairs[0]) == Ok(Claimed(next));
    assert pairs[1..] == F64Pairs(50, rs[1..]);
    if |rs| > 1 {
      RotationBeforeColumns(cat, next, rs[1..]);
    }
  }

  /** The column sequence end to end: a code-50 rotation, a code-75 column
      type, a code-50 column count and any number of code-50 heights set the
      rotation, the type, the count (as `as i32` converts it) and append the
      heights in order. */
  lemma {:induction false} ColumnSequence(cat: Catalogue, m: MTextData, rotation: F64, columnType: I16,
                                          count: F64, hs: seq<F64>)
    ensures var pairs := [F64Pair(50, rotation), I16Pair(75, columnType), F64Pair(50, count)] + F64Pairs(50, hs);
      var r := Run(MTextSteps(cat), StartState(m), pairs);
      && r.Ok?
      && r.value.m.rotationAngle == rotation
      && r.value.m.columnType == columnType
      && r.value.m.columnCount == F64ToI32(count)
      && r.value.m.columnHeights == m.columnHeights + hs
  {
    var step := MTextSteps(cat);
    var p0, p1, p2 := F64Pair(50, rotation), I16Pair(75, columnType), F64Pair(50, count);
    var s0 := StartState(m);
    var s1 := s0.(m := s0.m.(rotationAngle := rotation));
    var s2 := s1.(m := s1.m.(columnType := columnType), readingColumnData := true);
    var s3 := s2.(m := s2.m.(columnCount := F64ToI32(count)), readColumnCount := true);
    assert step(s0, p0) == Ok(Claimed(s1));
    assert step(s1, p1) == Ok(Claimed(s2));
    assert step(s2, p2) == Ok(Claimed(s3));
    HeightsAccumulate(cat, s3, hs);
    RunCons(step, s2, p2, F64Pairs(50, hs));
    RunCons(step, s1, p1, [p2] + F64Pairs(50, hs));
    RunCons(step, s0, p0, [p1] + ([p2] + F64Pairs(50, hs)));
    assert [p0, p1, p2] + F64Pairs(50, hs) == [p0] + ([p1] + ([p2] + F64Pairs(50, hs)));
  }
}
