/**
 The custom readers of ATTRIB and ATTDEF. Both read the same field table, in
 which codes 2, 10/20/30 and 40 land in different fields depending on the last
 code-100 subclass marker, successive code-70 pairs after the `AcDbXrecord`
 marker fill three different fields, and the first code-280 pair outside it
 is the version while later ones are the lock flag. ATTDEF additionally reads
 its prompt from code 3.
 */
module AttributeReader {
  import opened CodePairs
  import opened CodePairPutBack
  import opened Entities
  import opened Catalogues
  import opened FieldLoop

  const XrecordMarker := "AcDbXrecord"

  /** The reader's state: the fields read so far, ATTDEF's prompt, and the
      three pieces of context the loop threads. */
  datatype AttributeState = AttributeState(
    att: AttributeFields,
    prompt: string,
    lastSubclassMarker: string,
    isVersionSet: bool,
    xrecCode70Count: nat)

  predicate InXrecord(st: AttributeState) {
    st.lastSubclassMarker == XrecordMarker
  }

  /** The context the reader starts from: no marker seen, no version read,
      no code-70 pair counted. */
  function StartState(att: AttributeFields, prompt: string): AttributeState {
    AttributeState(att, prompt, "", false, 0)
  }

  predicate IsTextCode(isDefinition: bool, code: int) {
    code == 1 || code == 2 || code == 7 || (isDefinition && code == 3)
  }

  predicate IsPointCode(code: int) {
    code == 10 || code == 20 || code == 30
  }

  predicate IsFloatCode(code: int) {
    || IsPointCode(code) || code == 11 || code == 21 || code == 31
    || code == 39 || code == 40 || code == 41 || code == 50 || code == 51
    || code == 210 || code == 220 || code == 230
  }

  predicate IsShortCode(code: int) {
    code == 70 || code == 71 || code == 72 || code == 73 || code == 74 || code == 280
  }

  /** Every code the reader claims; any other code is a common field. */
  predicate IsAttributeCode(isDefinition: bool, code: int) {
    code == 100 || code == 340 || IsTextCode(isDefinition, code) || IsFloatCode(code) || IsShortCode(code)
  }

  //----------------------------------------------------------------------------
  // Reference definition: which field each code names in a given context
  //----------------------------------------------------------------------------

  function TextField(st: AttributeState, code: int): string {
    if code == 1 then st.att.value
    else if code == 2 then (if InXrecord(st) then st.att.xRecordTag else st.att.tag)
    else if code == 3 then st.prompt
    else st.att.textStyleName
  }

  function FloatField(st: AttributeState, code: int): F64 {
    if IsPointCode(code) then Coord(if InXrecord(st) then st.att.alignmentPoint else st.att.location, code)
    else if code == 11 || code == 21 || code == 31 then Coord(st.att.secondAlignmentPoint, code)
    else if code == 39 then st.att.thickness
    else if code == 40 then (if InXrecord(st) then st.att.annotationScale else st.att.textHeight)
    else if code == 41 then st.att.relativeXScaleFactor
    else if code == 50 then st.att.rotation
    else if code == 51 then st.att.obliqueAngle
    else Coord(st.att.normal, code)
  }

  /** The short-valued fields that take the pair's value (or its enumerator)
      regardless of context: 71 to 74. */
  function ShortField(st: AttributeState, code: int): int {
    if code == 71 then st.att.textGenerationFlags
    else if code == 72 then st.att.horizontalTextJustification
    else if code == 73 then st.att.fieldLength
    else st.att.verticalTextJustification
  }

  /** What codes 71 to 74 store for a 16-bit payload: the two justifications
      go through their enumerations, the other two keep the number. */
  function ShortValue(cat: Catalogue, code: int, v: I16): int {
    if code == 72 then cat.EnumFromNumber(HorizontalTextJustificationEnum, v)
    else if code == 74 then cat.EnumFromNumber(VerticalTextJustificationEnum, v)
    else v
  }

  //----------------------------------------------------------------------------
  // The step
  //----------------------------------------------------------------------------

  function StoreText(st: AttributeState, code: int, s: string): (r: AttributeState)
    requires IsTextCode(true, code)
    ensures TextField(r, code) == s
    ensures forall c :: IsTextCode(true, c) && c != code ==> TextField(r, c) == TextField(st, c)
    ensures InXrecord(st) ==> r.att.tag == st.att.tag
    ensures !InXrecord(st) ==> r.att.xRecordTag == st.att.xRecordTag
    ensures r.att.(value := st.att.value, tag := st.att.tag, xRecordTag := st.att.xRecordTag,
                   textStyleName := st.att.textStyleName) == st.att
    ensures r.lastSubclassMarker == st.lastSubclassMarker && r.isVersionSet == st.isVersionSet
    ensures r.xrecCode70Count == st.xrecCode70Count
  {
    if code == 1 then st.(att := st.att.(value := s))
    else if code == 2 then
      (if InXrecord(st) then st.(att := st.att.(xRecordTag := s)) else st.(att := st.att.(tag := s)))
    else if code == 3 then st.(prompt := s)
    else st.(att := st.att.(textStyleName := s))
  }

  function StoreFloat(st: AttributeState, code: int, f: F64): (r: AttributeState)
    requires IsFloatCode(code)
    ensures FloatField(r, code) == f
    ensures InXrecord(st) ==> r.att.location == st.att.location && r.att.textHeight == st.att.textHeight
    ensures !InXrecord(st) ==>
      r.att.alignmentPoint == st.att.alignmentPoint && r.att.annotationScale == st.att.annotationScale
    ensures r.att.(location := st.att.location, alignmentPoint := st.att.alignmentPoint,
                   secondAlignmentPoint := st.att.secondAlignmentPoint,
                   thickness := st.att.thickness, textHeight := st.att.textHeight,
                   annotationScale := st.att.annotationScale,
                   relativeXScaleFactor := st.att.relativeXScaleFactor,
                   rotation := st.att.rotation, obliqueAngle := st.att.obliqueAngle,
                   normal := st.att.normal) == st.att
    ensures r.prompt == st.prompt && r.lastSubclassMarker == st.lastSubclassMarker
    ensures r.isVersionSet == st.isVersionSet && r.xrecCode70Count == st.xrecCode70Count
  {
    var a := st.att;
    if IsPointCode(code) then
      (if InXrecord(st) then st.(att := a.(alignmentPoint := WithCoord(a.alignmentPoint, code, f)))
       else st.(att := a.(location := WithCoord(a.location, code, f))))
    else if code == 11 || code == 21 || code == 31 then st.(att := a.(secondAlignmentPoint := WithCoord(a.secondAlignmentPoint, code, f)))
    else if code == 39 then st.(att := a.(thickness := f))
    else if code == 40 then
      (if InXrecord(st) then st.(att := a.(annotationScale := f)) else st.(att := a.(textHeight := f)))
    else if code == 41 then st.(att := a.(relativeXScaleFactor := f))
    else if code == 50 then st.(att := a.(rotation := f))
    else if code == 51 then st.(att := a.(obliqueAngle := f))
    else st.(att := a.(normal := WithCoord(a.normal, code, f)))
  }

  /** The float fields other than the one `code` names keep their values. */
  lemma StoreFloatKeepsOthers(st: AttributeState, code: int, f: F64, c: int)
    requires IsFloatCode(code) && IsFloatCode(c) && c != code
    ensures FloatField(StoreFloat(st, code, f), c) == FloatField(st, c)
  {
    var a := st.att;
    if IsPointCode(code) {
      var p := if InXrecord(st) then a.alignmentPoint else a.location;
      if IsPointCode(c) {
        WithCoordKeepsOthers(p, code, f, c);
      }
    } else if code == 11 || code == 21 || code == 31 {
      if c == 11 || c == 21 || c == 31 {
        WithCoordKeepsOthers(a.secondAlignmentPoint, code, f, c);
      }
    } else if code == 210 || code == 220 || code == 230 {
      if c == 210 || c == 220 || c == 230 {
        WithCoordKeepsOthers(a.normal, code, f, c);
      }
    }
  }

  /** A code-70 pair after the `AcDbXrecord` marker, by how many came before
      it: the multi-line flag, the lock flag, the secondary-attribute count. */
  function StoreXrecord70(cat: Catalogue, st: AttributeState, v: I16): (r: AttributeState)
    requires st.xrecCode70Count < 3
  {
    var a := st.att;
    var k := st.xrecCode70Count;
    var a' :=
      if k == 0 then a.(mTextFlag := cat.EnumFromNumber(MTextFlagEnum, v))
      else if k == 1 then a.(isReallyLocked := AsBool(v))
      else a.(secondaryAttributeCount := v);
    st.(att := a', xrecCode70Count := k + 1)
  }

  function Store280(cat: Catalogue, st: AttributeState, v: I16): (r: AttributeState) {
    if InXrecord(st) then st.(att := st.att.(keepDuplicateRecords := AsBool(v)))
    else if !st.isVersionSet then
      st.(att := st.att.(version := cat.EnumFromNumber(VersionEnum, v)), isVersionSet := true)
    else st.(att := st.att.(isLockedInBlock := AsBool(v)))
  }

  function StoreShort(cat: Catalogue, st: AttributeState, code: int, v: I16): (r: AttributeState)
    requires IsShortCode(code)
    requires code == 70 && InXrecord(st) ==> st.xrecCode70Count < 3
  {
    var a := st.att;
    if code == 70 then (if InXrecord(st) then StoreXrecord70(cat, st, v) else st.(att := a.(flags := v)))
    else if code == 71 then st.(att := a.(textGenerationFlags := v))
    else if code == 72 then st.(att := a.(horizontalTextJustification := cat.EnumFromNumber(HorizontalTextJustificationEnum, v)))
    else if code == 73 then st.(att := a.(fieldLength := v))
    else if code == 74 then st.(att := a.(verticalTextJustification := cat.EnumFromNumber(VerticalTextJustificationEnum, v)))
    else Store280(cat, st, v)
  }

  /** One pass of the ATTRIB (`isDefinition` false) or ATTDEF reader loop.
      A fourth code-70 pair after the `AcDbXrecord` marker is rejected before
      its payload is looked at. */
  function AttributeStep(cat: Catalogue, isDefinition: bool, st: AttributeState, pair: CodePair)
    : (r: Result<Step<AttributeState>>)
    ensures (r.Ok? && r.value.Unclaimed?) <==> !IsAttributeCode(isDefinition, pair.code)
    ensures pair.code == 70 && InXrecord(st) && st.xrecCode70Count >= 3 ==>
      r == Err(UnexpectedCodePair(pair, ""))
    ensures r.Err? && pair.code != 340 && !(pair.code == 70 && InXrecord(st) && st.xrecCode70Count >= 3) ==>
      r.error == WrongValueType(pair.offset)
    ensures pair.code == 100 ==>
      && (r.Ok? <==> pair.value.Str?)
      && (r.Ok? ==> r.value == Claimed(st.(lastSubclassMarker := pair.value.str)))
    ensures pair.code == 340 ==>
      && (r.Ok? <==> cat.asHandle(pair).Ok?)
      && (r.Err? ==> r.error == cat.asHandle(pair).error)
      && (r.Ok? ==> r.value == Claimed(st.(att := st.att.(
            secondaryAttributesHandle := st.att.secondaryAttributesHandle + [cat.asHandle(pair).value]))))
  {
    var code := pair.code;
    if !IsAttributeCode(isDefinition, code) then Ok(Unclaimed)
    else if code == 100 then
      var marker :- AssertString(pair);
      Ok(Claimed(st.(lastSubclassMarker := marker)))
    else if code == 340 then
      var h :- cat.asHandle(pair);
      Ok(Claimed(st.(att := st.att.(secondaryAttributesHandle := st.att.secondaryAttributesHandle + [h]))))
    else if IsTextCode(isDefinition, code) then
      var s :- AssertString(pair);
      Ok(Claimed(StoreText(st, code, s)))
    else if IsFloatCode(code) then
      var f :- AssertF64(pair);
      Ok(Claimed(StoreFloat(st, code, f)))
    else if code == 70 && InXrecord(st) && st.xrecCode70Count >= 3 then
      Err(UnexpectedCodePair(pair, ""))
    else
      var v :- AssertI16(pair);
      Ok(Claimed(StoreShort(cat, st, code, v)))
  }

  function AttributeSteps(cat: Catalogue, isDefinition: bool): (AttributeState, CodePair) -> Result<Step<AttributeState>> {
    (st, p) => AttributeStep(cat, isDefinition, st, p)
  }

  /** `apply_custom_reader_attribute` / `apply_custom_reader_attributedefinition`:
      run the step to the next tag over the instance the catalogue made. */
  function ReadAttribute(cat: Catalogue, isDefinition: bool, att: AttributeFields, prompt: string, s: Stream)
    : (r: (Result<(AttributeState, EntityCommon)>, Stream))
    requires cat.Valid()
    ensures IsSuffix(View(r.1), View(s))
    ensures r.0.Ok? ==> |View(r.1)| > 0 && IsTag(View(r.1)[0])
  {
    ReadFields(cat, AttributeSteps(cat, isDefinition), StartState(att, prompt), DefaultCommon(), s)
  }

  //----------------------------------------------------------------------------
  // Properties
  //----------------------------------------------------------------------------

  /** A text pair lands in the field its code names in the current
      context; the reader's context is kept. */
  lemma StepSetsText(cat: Catalogue, isDefinition: bool, st: AttributeState, pair: CodePair)
    requires IsTextCode(isDefinition, pair.code)
    ensures var r := AttributeStep(cat, isDefinition, st, pair);
      && (r.Ok? <==> pair.value.Str?)
      && (r.Ok? ==>
            && r.value.Claimed?
            && TextField(r.value.state, pair.code) == pair.value.str
            && (forall c :: IsTextCode(true, c) && c != pair.code ==>
                  TextField(r.value.state, c) == TextField(st, c))
            && (InXrecord(st) ==> r.value.state.att.tag == st.att.tag)
            && (!InXrecord(st) ==> r.value.state.att.xRecordTag == st.att.xRecordTag)
            && r.value.state.att.(value := st.att.value, tag := st.att.tag, xRecordTag := st.att.xRecordTag,
                                  textStyleName := st.att.textStyleName) == st.att
            && r.value.state.lastSubclassMarker == st.lastSubclassMarker
            && r.value.state.isVersionSet == st.isVersionSet
            && r.value.state.xrecCode70Count == st.xrecCode70Count)
  {
  }

  /** A float pair lands in the field its code names in the current
      context; the reader's context is kept. */
  lemma StepSetsFloat(cat: Catalogue, isDefinition: bool, st: AttributeState, pair: CodePair)
    requires IsFloatCode(pair.code)
    ensures var r := AttributeStep(cat, isDefinition, st, pair);
      && (r.Ok? <==> pair.value.Double?)
      && (r.Ok? ==>
            && r.value.Claimed?
            && FloatField(r.value.state, pair.code) == pair.value.f64
            && (forall c :: IsFloatCode(c) && c != pair.code ==>
                  FloatField(r.value.state, c) == FloatField(st, c))
            && (InXrecord(st) ==> r.value.state.att.location == st.att.location
                                  && r.value.state.att.textHeight == st.att.textHeight)
            && (!InXrecord(st) ==> r.value.state.att.alignmentPoint == st.att.alignmentPoint
                                   && r.value.state.att.annotationScale == st.att.annotationScale)
            && r.value.state.att.(location := st.att.location, alignmentPoint := st.att.alignmentPoint,
                                  secondAlignmentPoint := st.att.secondAlignmentPoint,
                                  thickness := st.att.thickness, textHeight := st.att.textHeight,
                                  annotationScale := st.att.annotationScale,
                                  relativeXScaleFactor := st.att.relativeXScaleFactor,
                                  rotation := st.att.rotation, obliqueAngle := st.att.obliqueAngle,
                                  normal := st.att.normal) == st.att
            && r.value.state.prompt == st.prompt
            && r.value.state.lastSubclassMarker == st.lastSubclassMarker
            && r.value.state.isVersionSet == st.isVersionSet
            && r.value.state.xrecCode70Count == st.xrecCode70Count)
  {
    if pair.value.Double? {
      forall c | IsFloatCode(c) && c != pair.code
        ensures FloatField(StoreFloat(st, pair.code, pair.value.f64), c) == FloatField(st, c)
      {
        StoreFloatKeepsOthers(st, pair.code, pair.value.f64, c);
      }
    }
  }

  /** Codes 71 to 74 go to `StoreShort` after the 16-bit type check. */
  lemma StepIsStoreShort(cat: Catalogue, isDefinition: bool, st: AttributeState, pair: CodePair)
    requires 71 <= pair.code <= 74
    ensures var r := AttributeStep(cat, isDefinition, st, pair);
      && (r.Ok? <==> pair.value.Short?)
      && (r.Err? ==> r.error == WrongValueType(pair.offset))
      && (r.Ok? ==> r.value == Claimed(StoreShort(cat, st, pair.code, pair.value.i16)))
  {
  }

  /** A pair with code 71 to 74 sets its own field whatever the context,
      through the enumeration for 72 and 74; nothing else changes. */
  lemma StepSetsShort(cat: Catalogue, isDefinition: bool, st: AttributeState, pair: CodePair)
    requires 71 <= pair.code <= 74
    ensures var r := AttributeStep(cat, isDefinition, st, pair);
      && (r.Ok? <==> pair.value.Short?)
      && (r.Err? ==> r.error == WrongValueType(pair.offset))
      && (r.Ok? ==>
            && r.value.Claimed?
            && ShortField(r.value.state, pair.code) == ShortValue(cat, pair.code, pair.value.i16)
            && (forall c :: 71 <= c <= 74 && c != pair.code ==>
                  ShortField(r.value.state, c) == ShortField(st, c))
            && r.value.state.att.(textGenerationFlags := st.att.textGenerationFlags,
                                  horizontalTextJustification := st.att.horizontalTextJustification,
                                  fieldLength := st.att.fieldLength,
                                  verticalTextJustification := st.att.verticalTextJustification) == st.att
            && r.value.state.(att := st.att) == st)
  {
    StepIsStoreShort(cat, isDefinition, st, pair);
    if pair.value.Short? {
      var v := pair.value.i16;
      var a := st.att;
      assert StoreShort(cat, st, pair.code, v) ==
        st.(att := if pair.code == 71 then a.(textGenerationFlags := v)
                   else if pair.code == 72 then a.(horizontalTextJustification := ShortValue(cat, 72, v))
                   else if pair.code == 73 then a.(fieldLength := v)
                   else a.(verticalTextJustification := ShortValue(cat, 74, v)));
    }
  }

  /** Codes 2, 10/20/30 and 40 are routed by the last marker: after
      `AcDbXrecord` they fill the x-record tag, the alignment point and the
      annotation scale, and the attribute's tag, location and text height
      are left alone; under any other marker it is the other way round. */
  lemma {:induction false} XrecordRouting(cat: Catalogue, isDefinition: bool, st: AttributeState, pair: CodePair)
    requires pair.code == 2 || IsPointCode(pair.code) || pair.code == 40
    requires AttributeStep(cat, isDefinition, st, pair).Ok?
    ensures var a := AttributeStep(cat, isDefinition, st, pair).value.state.att;
      && (InXrecord(st) ==>
            && (pair.code == 2 ==> a.xRecordTag == pair.value.str)
            && (IsPointCode(pair.code) ==> Coord(a.alignmentPoint, pair.code) == pair.value.f64)
            && (pair.code == 40 ==> a.annotationScale == pair.value.f64)
            && a.tag == st.att.tag && a.location == st.att.location && a.textHeight == st.att.textHeight)
      && (!InXrecord(st) ==>
            && (pair.code == 2 ==> a.tag == pair.value.str)
            && (IsPointCode(pair.code) ==> Coord(a.location, pair.code) == pair.value.f64)
            && (pair.code == 40 ==> a.textHeight == pair.value.f64)
            && a.xRecordTag == st.att.xRecordTag && a.alignmentPoint == st.att.alignmentPoint
            && a.annotationScale == st.att.annotationScale)
  {
    if pair.code == 2 {
      StepSetsText(cat, isDefinition, st, pair);
    } else {
      StepSetsFloat(cat, isDefinition, st, pair);
    }
  }

  /** Code 70 after `AcDbXrecord`: the first three fill the multi-line flag,
      the lock flag and the secondary-attribute count, in that order, and
      advance the count; any later one is an error. Outside the x-record it
      is the flags word every time. */
  lemma Code70(cat: Catalogue, isDefinition: bool, st: AttributeState, pair: CodePair)
    requires pair.code == 70
    ensures var r := AttributeStep(cat, isDefinition, st, pair);
      && (InXrecord(st) && st.xrecCode70Count >= 3 ==> r == Err(UnexpectedCodePair(pair, "")))
      && (InXrecord(st) && st.xrecCode70Count < 3 ==>
            && (r.Ok? <==> pair.value.Short?)
            && (r.Ok? ==>
                  var n := r.value.state;
                  && n.xrecCode70Count == st.xrecCode70Count + 1
                  && (st.xrecCode70Count == 0 ==> n.att.mTextFlag == cat.EnumFromNumber(MTextFlagEnum, pair.value.i16))
                  && (st.xrecCode70Count == 1 ==> n.att.isReallyLocked == AsBool(pair.value.i16))
                  && (st.xrecCode70Count == 2 ==> n.att.secondaryAttributeCount == pair.value.i16)
                  && (st.xrecCode70Count != 0 ==> n.att.mTextFlag == st.att.mTextFlag)
                  && (st.xrecCode70Count != 1 ==> n.att.isReallyLocked == st.att.isReallyLocked)
                  && (st.xrecCode70Count != 2 ==> n.att.secondaryAttributeCount == st.att.secondaryAttributeCount)
                  && n.att.(mTextFlag := st.att.mTextFlag, isReallyLocked := st.att.isReallyLocked,
                            secondaryAttributeCount := st.att.secondaryAttributeCount) == st.att
                  && n.(att := st.att, xrecCode70Count := st.xrecCode70Count) == st))
      && (!InXrecord(st) ==>
            && (r.Ok? <==> pair.value.Short?)
            && (r.Ok? ==> r.value.state == st.(att := st.att.(flags := pair.value.i16))))
  {
  }

  /** Code 280 outside the x-record: the first one is the version (and
      marks it read), every later one is the lock flag. After `AcDbXrecord`
      it is the keep-duplicates flag and the version is untouched. */
  lemma Code280(cat: Catalogue, isDefinition: bool, st: AttributeState, pair: CodePair)
    requires pair.code == 280 && pair.value.Short?
    ensures var n := AttributeStep(cat, isDefinition, st, pair).value.state;
      && (InXrecord(st) ==> n.att.keepDuplicateRecords == AsBool(pair.value.i16)
                            && n.att.version == st.att.version && n.isVersionSet == st.isVersionSet)
      && (!InXrecord(st) && !st.isVersionSet ==>
            n.att.version == cat.EnumFromNumber(VersionEnum, pair.value.i16) && n.isVersionSet
            && n.att.isLockedInBlock == st.att.isLockedInBlock)
      && (!InXrecord(st) && st.isVersionSet ==>
            n.att.isLockedInBlock == AsBool(pair.value.i16) && n.att.version == st.att.version
            && n.isVersionSet)
  {
  }

  function P(code: int, v: Value, offset: nat): CodePair { CodePair(code, v, offset) }

  /** Three code-70 pairs in the x-record from a fresh count fill the
      multi-line flag, the lock flag and the secondary-attribute count. */
  lemma {:induction false} ThreeXrecord70s(cat: Catalogue, isDefinition: bool, st: AttributeState,
                                           a: I16, b: I16, c: I16, o: nat)
    requires InXrecord(st) && st.xrecCode70Count == 0
    ensures var r := Run(AttributeSteps(cat, isDefinition), st, [P(70, Short(a), o), P(70, Short(b), o), P(70, Short(c), o)]);
      && r.Ok?
      && r.value.att.mTextFlag == cat.EnumFromNumber(MTextFlagEnum, a)
      && r.value.att.isReallyLocked == AsBool(b)
      && r.value.att.secondaryAttributeCount == c
      && r.value.xrecCode70Count == 3
      && InXrecord(r.value)
  {
    var step := AttributeSteps(cat, isDefinition);
    var p1, p2, p3 := P(70, Short(a), o), P(70, Short(b), o), P(70, Short(c), o);
    var s2 := StoreXrecord70(cat, st, a);
    assert step(st, p1) == Ok(Claimed(s2));
    var s3 := StoreXrecord70(cat, s2, b);
    assert step(s2, p2) == Ok(Claimed(s3));
    var s4 := StoreXrecord70(cat, s3, c);
    assert step(s3, p3) == Ok(Claimed(s4));
    RunCons(step, s3, p3, []);
    RunCons(step, s2, p2, [p3]);
    RunCons(step, st, p1, [p2, p3]);
    assert [p1, p2, p3] == [p1] + [p2, p3];
  }

  /** The x-record sequence end to end: from a fresh count, the marker and
      three code-70 pairs fill the three fields in order, and a fourth code-70
      pair is rejected with an `UnexpectedCodePair` error carrying that pair
      and an empty message, whatever its payload. */
  lemma {:induction false} XrecordSequence(cat: Catalogue, isDefinition: bool, st: AttributeState,
                                           a: I16, b: I16, c: I16, d: Value, o: nat)
    requires st.xrecCode70Count == 0
    ensures var pairs := [P(100, Str(XrecordMarker), o), P(70, Short(a), o), P(70, Short(b), o), P(70, Short(c), o)];
      var r := Run(AttributeSteps(cat, isDefinition), st, pairs);
      && r.Ok?
      && r.value.att.mTextFlag == cat.EnumFromNumber(MTextFlagEnum, a)
      && r.value.att.isReallyLocked == AsBool(b)
      && r.value.att.secondaryAttributeCount == c
      && r.value.xrecCode70Count == 3
      && Run(AttributeSteps(cat, isDefinition), st, pairs + [P(70, d, o)]) == Err(UnexpectedCodePair(P(70, d, o), ""))
  {
    var step := AttributeSteps(cat, isDefinition);
    var p0, p4 := P(100, Str(XrecordMarker), o), P(70, d, o);
    var three := [P(70, Short(a), o), P(70, Short(b), o), P(70, Short(c), o)];
    var s1 := st.(lastSubclassMarker := XrecordMarker);
    assert step(st, p0) == Ok(Claimed(s1));
    RunCons(step, st, p0, []);
    ThreeXrecord70s(cat, isDefinition, s1, a, b, c, o);
    RunAppend(step, st, [p0], three);
    var s4 := Run(step, s1, three).value;
    Code70(cat, isDefinition, s4, p4);
    RunCons(step, s4, p4, []);
    RunAppend(step, st, [p0] + three, [p4]);
    assert [p0] + three == [p0, P(70, Short(a), o), P(70, Short(b), o), P(70, Short(c), o)];
  }
}
