/**
 The custom reader of LWPOLYLINE: code 10 starts a new vertex, and the vertex
 codes 20, 40, 41, 42 and 91 fill fields of the last vertex started.
 */
module LwPolylineReader {
  import opened CodePairs
  import opened CodePairPutBack
  import opened Entities
  import opened Catalogues
  import opened FieldLoop

  /** The codes that address the last vertex rather than start one. */
  predicate IsVertexFieldCode(code: int) {
    code == 20 || code == 40 || code == 41 || code == 42 || code == 91
  }

  predicate IsPolylineFieldCode(code: int) {
    code == 39 || code == 43 || code == 70 || code == 210 || code == 220 || code == 230
  }

  predicate IsLwPolylineCode(code: int) {
    code == 10 || IsVertexFieldCode(code) || IsPolylineFieldCode(code)
  }

  /** Reference definition: the vertex field a vertex code names. */
  function VertexField(v: LwPolylineVertex, code: int): Value
    requires IsVertexFieldCode(code)
  {
    if code == 20 then Double(v.y)
    else if code == 40 then Double(v.startingWidth)
    else if code == 41 then Double(v.endingWidth)
    else if code == 42 then Double(v.bulge)
    else Integer(v.id)
  }

  /** The payload type each vertex code carries. */
  predicate FitsVertexField(code: int, v: Value)
    requires IsVertexFieldCode(code)
  {
    if code == 91 then v.Integer? else v.Double?
  }

  /** Reference definition: the polyline field one of its own codes names.
      Code 70 arrives as a 16-bit payload and is kept widened to 32 bits. */
  function PolylineField(lw: LwPolylineData, code: int): Value
    requires IsPolylineFieldCode(code)
  {
    if code == 39 then Double(lw.thickness)
    else if code == 43 then Double(lw.constantWidth)
    else if code == 70 then Integer(lw.flags)
    else Double(Coord(lw.extrusionDirection, code))
  }

  /** The payload type each polyline code carries. */
  predicate FitsPolylineField(code: int, v: Value)
    requires IsPolylineFieldCode(code)
  {
    if code == 70 then v.Short? else v.Double?
  }

  /** The value a well-typed polyline payload is stored as: `i32::from` for
      the 16-bit flags, the payload itself otherwise. */
  function PolylineValue(code: int, v: Value): Value
    requires IsPolylineFieldCode(code) && FitsPolylineField(code, v)
  {
    if code == 70 then Integer(v.i16) else v
  }

  function StoreVertexField(v: LwPolylineVertex, code: int, value: Value): (r: LwPolylineVertex)
    requires IsVertexFieldCode(code) && FitsVertexField(code, value)
    ensures VertexField(r, code) == value
    ensures r.x == v.x
    ensures forall c :: IsVertexFieldCode(c) && c != code ==> VertexField(r, c) == VertexField(v, c)
  {
    if code == 20 then v.(y := value.f64)
    else if code == 40 then v.(startingWidth := value.f64)
    else if code == 41 then v.(endingWidth := value.f64)
    else if code == 42 then v.(bulge := value.f64)
    else v.(id := value.i32)
  }

  /** The vertex a code-10 pair starts: every field zero but x. */
  function StartVertex(x: F64): LwPolylineVertex {
    DefaultLwVertex().(x := x)
  }

  /** One pass of the LWPOLYLINE reader loop. A vertex code's payload is
      checked before the vertex list is; a vertex code with no vertex started
      is an `UnexpectedEmptySet` error. */
  function LwPolylineStep(lw: LwPolylineData, pair: CodePair): (r: Result<Step<LwPolylineData>>)
    ensures (r.Ok? && r.value.Unclaimed?) <==> !IsLwPolylineCode(pair.code)
    ensures pair.code == 10 ==>
      && (r.Ok? <==> pair.value.Double?)
      && (r.Ok? ==> r.value == Claimed(lw.(vertices := lw.vertices + [StartVertex(pair.value.f64)])))
    ensures IsVertexFieldCode(pair.code) ==>
      && (r.Ok? <==> FitsVertexField(pair.code, pair.value) && |lw.vertices| > 0)
      && (r.Err? && FitsVertexField(pair.code, pair.value) ==> r.error == UnexpectedEmptySet)
      && (r.Ok? ==>
            var n := |lw.vertices|;
            var vs := r.value.state.vertices;
            && r.value.Claimed?
            && |vs| == n
            && vs[..n - 1] == lw.vertices[..n - 1]
            && VertexField(vs[n - 1], pair.code) == pair.value
            && vs[n - 1].x == lw.vertices[n - 1].x
            && (forall c :: IsVertexFieldCode(c) && c != pair.code ==>
                  VertexField(vs[n - 1], c) == VertexField(lw.vertices[n - 1], c))
            && r.value.state.(vertices := lw.vertices) == lw)
    ensures IsPolylineFieldCode(pair.code) ==>
      && (r.Ok? <==> FitsPolylineField(pair.code, pair.value))
      && (r.Ok? ==>
            && r.value.Claimed?
            && PolylineField(r.value.state, pair.code) == PolylineValue(pair.code, pair.value)
            && (forall c :: IsPolylineFieldCode(c) && c != pair.code ==>
                  PolylineField(r.value.state, c) == PolylineField(lw, c))
            && r.value.state.(thickness := lw.thickness, constantWidth := lw.constantWidth, flags := lw.flags,
                              extrusionDirection := lw.extrusionDirection) == lw)
    ensures r.Err? && !(IsVertexFieldCode(pair.code) && FitsVertexField(pair.code, pair.value)) ==>
      r.error == WrongValueType(pair.offset)
  {
    var code := pair.code;
    if code == 10 then
      var x :- AssertF64(pair);
      Ok(Claimed(lw.(vertices := lw.vertices + [StartVertex(x)])))
    else if IsVertexFieldCode(code) then
      var value :- if code == 91 then (var i :- AssertI32(pair); Ok(Integer(i)))
                   else (var f :- AssertF64(pair); Ok(Double(f)));
      if |lw.vertices| == 0 then Err(UnexpectedEmptySet)
      else
        var n := |lw.vertices|;
        Ok(Claimed(lw.(vertices := lw.vertices[n - 1 := StoreVertexField(lw.vertices[n - 1], code, value)])))
    else if code == 39 then
      var f :- AssertF64(pair);
      Ok(Claimed(lw.(thickness := f)))
    else if code == 43 then
      var f :- AssertF64(pair);
      Ok(Claimed(lw.(constantWidth := f)))
    else if code == 70 then
      var v :- AssertI16(pair);
      Ok(Claimed(lw.(flags := v)))
    else if IsPolylineFieldCode(code) then
      var f :- AssertF64(pair);
      Ok(Claimed(lw.(extrusionDirection := WithCoord(lw.extrusionDirection, code, f))))
    else Ok(Unclaimed)
  }

  function LwPolylineSteps(): (LwPolylineData, CodePair) -> Result<Step<LwPolylineData>> {
    (lw, p) => LwPolylineStep(lw, p)
  }

  /** `apply_custom_reader_lwpolyline`: run the step to the next tag over the
      instance the catalogue made. */
  function ReadLwPolyline(cat: Catalogue, lw: LwPolylineData, s: Stream)
    : (r: (Result<(LwPolylineData, EntityCommon)>, Stream))
    requires cat.Valid()
    ensures IsSuffix(View(r.1), View(s))
    ensures r.0.Ok? ==> |View(r.1)| > 0 && IsTag(View(r.1)[0])
  {
    ReadFields(cat, LwPolylineSteps(), lw, DefaultCommon(), s)
  }

  //----------------------------------------------------------------------------
  // Properties
  //----------------------------------------------------------------------------

  /** How many pairs of the list carry the given code. */
  function CountCode(pairs: seq<CodePair>, code: int): (n: nat)
    ensures n <= |pairs|
  {
    if pairs == [] then 0
    else (if pairs[0].code == code then 1 else 0) + CountCode(pairs[1..], code)
  }

  /** The vertex list only ever grows, by one vertex per code-10 pair: a
      successful read has exactly as many more vertices as code-10 pairs, and
      the vertices it started from are only changed in their last element. */
  lemma {:induction false} VertexCountIsStarts(lw: LwPolylineData, pairs: seq<CodePair>)
    requires Run(LwPolylineSteps(), lw, pairs).Ok?
    ensures var r := Run(LwPolylineSteps(), lw, pairs).value;
      && |r.vertices| == |lw.vertices| + CountCode(pairs, 10)
      && (|lw.vertices| > 0 ==> r.vertices[..|lw.vertices| - 1] == lw.vertices[..|lw.vertices| - 1])
    decreases |pairs|
  {
    if pairs != [] {
      var step := LwPolylineSteps();
      var claim := step(lw, pairs[0]);
      var next := if claim.value.Claimed? then claim.value.state else lw;
      VertexCountIsStarts(next, pairs[1..]);
      var r := Run(LwPolylineSteps(), lw, pairs).value;
      if |lw.vertices| > 0 {
        var k := |lw.vertices| - 1;
        assert next.vertices[..k] == lw.vertices[..k] by {
          if pairs[0].code == 10 {
            assert next.vertices == lw.vertices + [StartVertex(pairs[0].value.f64)];
          }
        }
        assert r.vertices[..|next.vertices| - 1][..k] == r.vertices[..k];
        assert next.vertices[..|next.vertices| - 1][..k] == next.vertices[..k];
      }
    }
  }

  /** The payload each code of the reader expects. */
  predicate WellTyped(p: CodePair) {
    && (p.code == 70 ==> p.value.Short?)
    && (p.code == 91 ==> p.value.Integer?)
    && (IsLwPolylineCode(p.code) && p.code != 70 && p.code != 91 ==> p.value.Double?)
  }

  /** Whether no vertex code comes before the first code 10. */
  predicate StartsBeforeFields(pairs: seq<CodePair>)
    decreases |pairs|
  {
    pairs == [] || pairs[0].code == 10 || (!IsVertexFieldCode(pairs[0].code) && StartsBeforeFields(pairs[1..]))
  }

  /** A well-formed vertex list never addresses a missing vertex: when every
      payload has its code's type and no vertex code precedes the first
      vertex, the reader succeeds. */
  lemma {:induction false} WellFormedSucceeds(lw: LwPolylineData, pairs: seq<CodePair>)
    requires forall i :: 0 <= i < |pairs| ==> WellTyped(pairs[i])
    requires |lw.vertices| > 0 || StartsBeforeFields(pairs)
    ensures Run(LwPolylineSteps(), lw, pairs).Ok?
    decreases |pairs|
  {
    if pairs != [] {
      var step := LwPolylineSteps();
      assert WellTyped(pairs[0]);
      var claim := step(lw, pairs[0]);
      assert claim.Ok?;
      var next := if claim.value.Claimed? then claim.value.state else lw;
      assert |next.vertices| >= |lw.vertices|;
      WellFormedSucceeds(next, pairs[1..]);
    }
  }

  /** The reader over an entity's pairs, with a common-field reader that
      reads only the pair it is given: it succeeds exactly when the fold
      does, adds one vertex per code-10 pair, and stops in front of the next
      tag. */
  lemma ReadVertexCount(cat: Catalogue, lw: LwPolylineData, s: Stream, pairs: seq<CodePair>, tag: CodePair, tail: seq<Item>)
    requires cat.Valid() && Transparent(cat)
    requires NoTags(pairs) && tag.code == 0
    requires View(s) == Oks(pairs) + [Ok(tag)] + tail
    ensures var r := ReadLwPolyline(cat, lw, s);
      && (r.0.Ok? <==> Run(LwPolylineSteps(), lw, pairs).Ok?)
      && (r.0.Ok? ==>
            && |r.0.value.0.vertices| == |lw.vertices| + CountCode(pairs, 10)
            && View(r.1) == [Ok(tag)] + tail)
  {
    ReadFieldsFollowsRun(cat, LwPolylineSteps(), lw, DefaultCommon(), s, pairs, tag, tail);
    if Run(LwPolylineSteps(), lw, pairs).Ok? {
      VertexCountIsStarts(lw, pairs);
    }
  }
}
