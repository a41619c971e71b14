/**
 `Entity::write`: an entity the target version supports is written as its
 code-0 tag, its common fields, its own fields (by a custom writer for the
 dimensions, POLYLINE and VERTEX, otherwise by the generated writer), the
 entities it owns (`post_write`), and finally its x-data. An entity the
 version does not support writes nothing. The sink is the sequence of pairs
 produced; write errors of the sink are not modelled.
 */
module Encoder {
  import opened CodePairs
  import opened Bits
  import opened Entities
  import opened Catalogues
  import opened FieldLoop
  import opened Dimensions
  import opened Children

  //----------------------------------------------------------------------------
  // Flag bits the POLYLINE and VERTEX writers read and set
  //----------------------------------------------------------------------------

  /** `Polyline::get_is_3d_polyline`: flag bit worth 8. */
  predicate Is3dPolyline(poly: PolylineData) { BitSet(Unsigned32(poly.flags), 8) }

  /** `Polyline::get_is_3d_polygon_mesh`: flag bit worth 16. */
  predicate Is3dPolygonMesh(poly: PolylineData) { BitSet(Unsigned32(poly.flags), 16) }

  /** `Vertex::get_is_3d_polyline_vertex`: flag bit worth 32. */
  predicate Is3dPolylineVertex(v: VertexData) { BitSet(Unsigned32(v.flags), 32) }

  /** `Vertex::get_is_3d_polygon_mesh`: flag bit worth 64. */
  predicate Is3dPolygonMeshVertex(v: VertexData) { BitSet(Unsigned32(v.flags), 64) }

  /** The vertex as its polyline writes it: the two 3D flags copied from the
      polyline, everything else as stored. */
  function InheritFlags(poly: PolylineData, v: VertexData): (r: VertexData)
    ensures Is3dPolylineVertex(r) == Is3dPolyline(poly)
    ensures Is3dPolygonMeshVertex(r) == Is3dPolygonMesh(poly)
    ensures r.(flags := v.flags) == v
    ensures Unsigned32(r.flags) % 32 == Unsigned32(v.flags) % 32
    ensures Unsigned32(r.flags) / 128 == Unsigned32(v.flags) / 128
  {
    var with3d := WithBit32(v.flags, 32, Is3dPolyline(poly));
    WithBit64KeepsBit32(with3d, Is3dPolygonMesh(poly));
    var flags := WithBit32(with3d, 64, Is3dPolygonMesh(poly));
    WithBits32And64KeepOthers(v.flags, Is3dPolyline(poly), Is3dPolygonMesh(poly));
    v.(flags := flags)
  }

  //----------------------------------------------------------------------------
  // Custom writers
  //----------------------------------------------------------------------------

  /** The pairs of a field that is written only when it is not its default. */
  function Unless(isDefault: bool, pairs: seq<CodePair>): seq<CodePair> {
    if isDefault then [] else pairs
  }

  function PointPairs(code: int, p: Point): seq<CodePair> {
    [F64Pair(code, p.x), F64Pair(code + 10, p.y), F64Pair(code + 20, p.z)]
  }

  function PolylineMarker(poly: PolylineData): string {
    if Is3dPolyline(poly) || Is3dPolygonMesh(poly) then "AcDb3dPolyline" else "AcDb2dPolyline"
  }

  /** `apply_custom_writer_polyline`. */
  function PolylinePairs(poly: PolylineData, version: AcadVersion): seq<CodePair> {
    [StrPair(100, PolylineMarker(poly))]
    + (if AtMost(version, R13()) then [I16Pair(66, BoolAsI16(poly.containsVertices))] else [])
    + (if AtLeast(version, R12()) then PointPairs(10, poly.location) else [])
    + Unless(poly.thickness == Zero(), [F64Pair(39, poly.thickness)])
    + Unless(poly.flags == 0, [I16Pair(70, WrapI16(poly.flags))])
    + Unless(poly.defaultStartingWidth == Zero(), [F64Pair(40, poly.defaultStartingWidth)])
    + Unless(poly.defaultEndingWidth == Zero(), [F64Pair(41, poly.defaultEndingWidth)])
    + Unless(poly.polygonMeshMVertexCount == 0, [I16Pair(71, WrapI16(poly.polygonMeshMVertexCount))])
    + Unless(poly.polygonMeshNVertexCount == 0, [I16Pair(72, WrapI16(poly.polygonMeshNVertexCount))])
    + Unless(poly.smoothSurfaceMDensity == 0, [I16Pair(73, WrapI16(poly.smoothSurfaceMDensity))])
    + Unless(poly.smoothSurfaceNDensity == 0, [I16Pair(74, WrapI16(poly.smoothSurfaceNDensity))])
    + Unless(poly.surfaceType == 0, [I16Pair(75, WrapI16(poly.surfaceType))])
    + Unless(poly.normal == ZAxis(), PointPairs(210, poly.normal))
  }

  function VertexMarker(v: VertexData): string {
    if Is3dPolylineVertex(v) || Is3dPolygonMeshVertex(v) then "AcDb3dPolylineVertex" else "AcDb2dVertex"
  }

  /** `apply_custom_writer_vertex`. */
  function VertexPairs(v: VertexData, version: AcadVersion): seq<CodePair> {
    [StrPair(100, "AcDbVertex"), StrPair(100, VertexMarker(v))]
    + PointPairs(10, v.location)
    + Unless(v.startingWidth == Zero(), [F64Pair(40, v.startingWidth)])
    + Unless(v.endingWidth == Zero(), [F64Pair(41, v.endingWidth)])
    + Unless(v.bulge == Zero(), [F64Pair(42, v.bulge)])
    + [I16Pair(70, WrapI16(v.flags)), F64Pair(50, v.curveFitTangentDirection)]
    + (if AtLeast(version, R13()) then MeshIndexPairs(v) else [])
    + (if AtLeast(version, R2010()) then [I32Pair(91, v.identifier)] else [])
  }

  /** `apply_custom_writer_*dimension`: the shared base, then the shape. */
  function DimensionPairs(cat: Catalogue, dim: DimensionData, version: AcadVersion): seq<CodePair> {
    cat.writeDimensionBase(dim.base, version) + ShapePairs(dim.shape, version)
  }

  /** `apply_custom_writer`: the kind's own pairs when it has a custom
      writer, `None` when the generated writer is to be used. */
  function ApplyCustomWriter(cat: Catalogue, e: EntityType, version: AcadVersion): (r: Option<seq<CodePair>>)
    ensures r.Some? <==> e.Dimension? || e.Polyline? || e.Vertex?
  {
    match e
    case Dimension(dim) => Some(DimensionPairs(cat, dim, version))
    case Polyline(poly) => Some(PolylinePairs(poly, version))
    case Vertex(v) => Some(VertexPairs(v, version))
    case _ => None
  }

  //----------------------------------------------------------------------------
  // Entities written on behalf of others
  //----------------------------------------------------------------------------

  /** `write_attribute_m_text`: the attribute's MText as an entity of its
      own, owned by the attribute, on the attribute's layer and space. */
  function AttributeMText(parent: EntityCommon, m: MTextData): (r: Entity)
    ensures r.specific == MText(m)
    ensures r.common.ownerHandle == parent.handle
    ensures r.common.handle == EmptyHandle()
    ensures r.common.layer == parent.layer && r.common.isInPaperSpace == parent.isInPaperSpace
    ensures r.common.xData == []
  {
    Entity(DefaultCommon().(ownerHandle := parent.handle, isInPaperSpace := parent.isInPaperSpace,
                            layer := parent.layer), MText(m))
  }

  /** The entity an INSERT writes for one of its attributes: default common
      fields but for the stored handle. */
  function AttributeChild(child: (AttributeFields, Handle)): Entity {
    Entity(DefaultCommon().(handle := child.1), Attribute(child.0))
  }

  /** The entity a POLYLINE writes for one of its vertices. */
  function VertexChild(poly: PolylineData, child: (VertexData, Handle)): Entity {
    Entity(DefaultCommon().(handle := child.1), Vertex(InheritFlags(poly, child.0)))
  }

  /** `write_seqend`. */
  function SeqendEntity(): Entity { Entity(DefaultCommon(), Seqend) }

  /** How deeply an entity's writing nests: INSERT writes attributes, which
      write their MText. */
  function Depth(e: EntityType): nat {
    if e.Insert? then 3 else if e.Attribute? || e.AttributeDefinition? || e.Polyline? then 2 else 1
  }

  //----------------------------------------------------------------------------
  // The writer
  //----------------------------------------------------------------------------

  function XDataPairs(cat: Catalogue, xs: seq<XData>, version: AcadVersion): seq<CodePair>
    decreases |xs|
  {
    if xs == [] then [] else cat.writeXData(xs[0], version) + XDataPairs(cat, xs[1..], version)
  }

  /** The entity's own fields: by its custom writer when it has one,
      otherwise by the generated writer. */
  function OwnPairs(cat: Catalogue, ent: Entity, version: AcadVersion): seq<CodePair> {
    match ApplyCustomWriter(cat, ent.specific, version)
    case Some(pairs) => pairs
    case None => cat.writeSpecific(ent.specific, ent.common, version)
  }

  /** `Entity::write`. */
  function Write(cat: Catalogue, ent: Entity, version: AcadVersion, writeHandles: bool): (r: seq<CodePair>)
    ensures !cat.isSupportedOnVersion(ent.specific, version) ==> r == []
    ensures cat.isSupportedOnVersion(ent.specific, version) ==>
      |r| > 0 && r[0] == StrPair(0, cat.toTypeString(ent.specific))
    decreases Depth(ent.specific), 2, 0
  {
    if !cat.isSupportedOnVersion(ent.specific, version) then []
    else
      [StrPair(0, cat.toTypeString(ent.specific))]
      + cat.writeCommon(ent.common, version, writeHandles)
      + OwnPairs(cat, ent, version)
      + PostWrite(cat, ent, version, writeHandles)
      + XDataPairs(cat, ent.common.xData, version)
  }

  /** `post_write`: the entities this one owns. */
  function PostWrite(cat: Catalogue, ent: Entity, version: AcadVersion, writeHandles: bool): seq<CodePair>
    decreases Depth(ent.specific), 1, 0
  {
    match ent.specific
    case Attribute(att) => Write(cat, AttributeMText(ent.common, att.mText), version, writeHandles)
    case AttributeDefinition(att, _) => Write(cat, AttributeMText(ent.common, att.mText), version, writeHandles)
    case Insert(ins) =>
      WriteAttributes(cat, ins.attributes, version, writeHandles)
      + Write(cat, SeqendEntity(), version, writeHandles)
    case Polyline(poly) =>
      WriteVertices(cat, poly, poly.vertices, version, writeHandles)
      + Write(cat, SeqendEntity(), version, writeHandles)
    case _ => []
  }

  /** The attributes of an INSERT, in list order. */
  function WriteAttributes(cat: Catalogue, atts: seq<(AttributeFields, Handle)>, version: AcadVersion,
                           writeHandles: bool): seq<CodePair>
    decreases 3, 0, |atts|
  {
    if atts == [] then []
    else Write(cat, AttributeChild(atts[0]), version, writeHandles)
         + WriteAttributes(cat, atts[1..], version, writeHandles)
  }

  /** The vertices of a POLYLINE, in list order. */
  function WriteVertices(cat: Catalogue, poly: PolylineData, vs: seq<(VertexData, Handle)>,
                         version: AcadVersion, writeHandles: bool): seq<CodePair>
    decreases 2, 0, |vs|
  {
    if vs == [] then []
    else Write(cat, VertexChild(poly, vs[0]), version, writeHandles)
         + WriteVertices(cat, poly, vs[1..], version, writeHandles)
  }

  /** A supported entity is framed by its tag and common fields in front
      and its x-data at the very end, after everything it owns. */
  lemma WriteFraming(cat: Catalogue, ent: Entity, version: AcadVersion, writeHandles: bool)
    requires cat.isSupportedOnVersion(ent.specific, version)
    ensures var r := Write(cat, ent, version, writeHandles);
      var common := cat.writeCommon(ent.common, version, writeHandles);
      var xs := XDataPairs(cat, ent.common.xData, version);
      var post := PostWrite(cat, ent, version, writeHandles);
      && |r| >= 1 + |common| + |post| + |xs|
      && r[0] == StrPair(0, cat.toTypeString(ent.specific))
      && r[1..1 + |common|] == common
      && r[|r| - |xs| - |post|..|r| - |xs|] == post
      && r[|r| - |xs|..] == xs
  {
    var tag := StrPair(0, cat.toTypeString(ent.specific));
    var common := cat.writeCommon(ent.common, version, writeHandles);
    var own := OwnPairs(cat, ent, version);
    var post := PostWrite(cat, ent, version, writeHandles);
    var xs := XDataPairs(cat, ent.common.xData, version);
    var r := Write(cat, ent, version, writeHandles);
    assert r == [tag] + common + own + post + xs;
    Framed(r, tag, common, own, post, xs);
  }

  lemma Framed<T>(r: seq<T>, head: T, front: seq<T>, own: seq<T>, post: seq<T>, back: seq<T>)
    requires r == [head] + front + own + post + back
    ensures |r| >= 1 + |front| + |post| + |back| && r[0] == head
    ensures r[1..1 + |front|] == front
    ensures r[|r| - |back| - |post|..|r| - |back|] == post
    ensures r[|r| - |back|..] == back
  {
    assert r == ([head] + front + own) + post + back;
  }

  lemma EndsWith<T>(r: seq<T>, front: seq<T>, back: seq<T>)
    requires r == front + back
    ensures |r| >= |back| && r[|r| - |back|..] == back
  {
  }

  /** What an INSERT or POLYLINE owns ends with its SEQEND entity; by
      `WriteFraming` only the owner's x-data follows it. */
  lemma PostWriteEndsWithSeqend(cat: Catalogue, ent: Entity, version: AcadVersion, writeHandles: bool)
    requires ent.specific.Insert? || ent.specific.Polyline?
    ensures var post := PostWrite(cat, ent, version, writeHandles);
      var seqend := Write(cat, SeqendEntity(), version, writeHandles);
      |post| >= |seqend| && post[|post| - |seqend|..] == seqend
  {
    var seqend := Write(cat, SeqendEntity(), version, writeHandles);
    var children := if ent.specific.Insert?
      then WriteAttributes(cat, ent.specific.insert.attributes, version, writeHandles)
      else WriteVertices(cat, ent.specific.poly, ent.specific.poly.vertices, version, writeHandles);
    EndsWith(PostWrite(cat, ent, version, writeHandles), children, seqend);
  }

  //----------------------------------------------------------------------------
  // Which optional fields the custom writers emit
  //----------------------------------------------------------------------------

  /** Whether some pair of the run carries the code. */
  predicate Has(pairs: seq<CodePair>, code: int) {
    exists i :: 0 <= i < |pairs| && pairs[i].code == code
  }

  lemma HasAppend(a: seq<CodePair>, b: seq<CodePair>, code: int)
    ensures Has(a + b, code) <==> Has(a, code) || Has(b, code)
  {
    if Has(a, code) {
      var i :| 0 <= i < |a| && a[i].code == code;
      assert (a + b)[i] == a[i];
    }
    if Has(b, code) {
      var i :| 0 <= i < |b| && b[i].code == code;
      assert (a + b)[|a| + i] == b[i];
    }
    if Has(a + b, code) {
      var i :| 0 <= i < |a + b| && (a + b)[i].code == code;
      if i < |a| {
        assert a[i] == (a + b)[i];
      } else {
        assert b[i - |a|] == (a + b)[i];
      }
    }
  }

  lemma HasOne(isDefault: bool, p: CodePair, code: int)
    ensures Has(Unless(isDefault, [p]), code) <==> !isDefault && p.code == code
  {
    if !isDefault && p.code == code {
      assert Unless(isDefault, [p])[0] == p;
    }
  }

  lemma HasPoint(first: int, pt: Point, code: int)
    ensures Has(PointPairs(first, pt), code) <==> code == first || code == first + 10 || code == first + 20
  {
    var ps := PointPairs(first, pt);
    if code == first { assert ps[0].code == code; }
    if code == first + 10 { assert ps[1].code == code; }
    if code == first + 20 { assert ps[2].code == code; }
  }

  /** Reference layout of the POLYLINE writer: the codes it writes. The
      marker always; code 66 only up to R13; the location only from R12;
      every other field only when it differs from its default. */
  predicate PolylineWrites(poly: PolylineData, version: AcadVersion, code: int) {
    || code == 100
    || (code == 66 && AtMost(version, R13()))
    || ((code == 10 || code == 20 || code == 30) && AtLeast(version, R12()))
    || (code == 39 && poly.thickness != Zero())
    || (code == 70 && poly.flags != 0)
    || (code == 40 && poly.defaultStartingWidth != Zero())
    || (code == 41 && poly.defaultEndingWidth != Zero())
    || (code == 71 && poly.polygonMeshMVertexCount != 0)
    || (code == 72 && poly.polygonMeshNVertexCount != 0)
    || (code == 73 && poly.smoothSurfaceMDensity != 0)
    || (code == 74 && poly.smoothSurfaceNDensity != 0)
    || (code == 75 && poly.surfaceType != 0)
    || ((code == 210 || code == 220 || code == 230) && poly.normal != ZAxis())
  }

  /** The POLYLINE writer opens with the marker that names a 3D polyline
      exactly when the 3D-polyline or 3D-mesh flag is set, and writes a
      code exactly when the reference layout says so. */
  lemma PolylineLayout(poly: PolylineData, version: AcadVersion, code: int)
    ensures PolylinePairs(poly, version)[0] ==
      StrPair(100, if Is3dPolyline(poly) || Is3dPolygonMesh(poly) then "AcDb3dPolyline" else "AcDb2dPolyline")
    ensures Has(PolylinePairs(poly, version), code) <==> PolylineWrites(poly, version, code)
  {
    var s0 := [StrPair(100, PolylineMarker(poly))];
    var s1 := if AtMost(version, R13()) then [I16Pair(66, BoolAsI16(poly.containsVertices))] else [];
    var s2 := if AtLeast(version, R12()) then PointPairs(10, poly.location) else [];
    var s3 := Unless(poly.thickness == Zero(), [F64Pair(39, poly.thickness)]);
    var s4 := Unless(poly.flags == 0, [I16Pair(70, WrapI16(poly.flags))]);
    var s5 := Unless(poly.defaultStartingWidth == Zero(), [F64Pair(40, poly.defaultStartingWidth)]);
    var s6 := Unless(poly.defaultEndingWidth == Zero(), [F64Pair(41, poly.defaultEndingWidth)]);
    var s7 := Unless(poly.polygonMeshMVertexCount == 0, [I16Pair(71, WrapI16(poly.polygonMeshMVertexCount))]);
    var s8 := Unless(poly.polygonMeshNVertexCount == 0, [I16Pair(72, WrapI16(poly.polygonMeshNVertexCount))]);
    var s9 := Unless(poly.smoothSurfaceMDensity == 0, [I16Pair(73, WrapI16(poly.smoothSurfaceMDensity))]);
    var s10 := Unless(poly.smoothSurfaceNDensity == 0, [I16Pair(74, WrapI16(poly.smoothSurfaceNDensity))]);
    var s11 := Unless(poly.surfaceType == 0, [I16Pair(75, WrapI16(poly.surfaceType))]);
    var s12 := Unless(poly.normal == ZAxis(), PointPairs(210, poly.normal));
    HasOne(false, StrPair(100, PolylineMarker(poly)), code);
    HasOne(!AtMost(version, R13()), I16Pair(66, BoolAsI16(poly.containsVertices)), code);
    HasPoint(10, poly.location, code);
    HasPoint(210, poly.normal, code);
    HasOne(poly.thickness == Zero(), F64Pair(39, poly.thickness), code);
    HasOne(poly.flags == 0, I16Pair(70, WrapI16(poly.flags)), code);
    HasOne(poly.defaultStartingWidth == Zero(), F64Pair(40, poly.defaultStartingWidth), code);
    HasOne(poly.defaultEndingWidth == Zero(), F64Pair(41, poly.defaultEndingWidth), code);
    HasOne(poly.polygonMeshMVertexCount == 0, I16Pair(71, WrapI16(poly.polygonMeshMVertexCount)), code);
    HasOne(poly.polygonMeshNVertexCount == 0, I16Pair(72, WrapI16(poly.polygonMeshNVertexCount)), code);
    HasOne(poly.smoothSurfaceMDensity == 0, I16Pair(73, WrapI16(poly.smoothSurfaceMDensity)), code);
    HasOne(poly.smoothSurfaceNDensity == 0, I16Pair(74, WrapI16(poly.smoothSurfaceNDensity)), code);
    HasOne(poly.surfaceType == 0, I16Pair(75, WrapI16(poly.surfaceType)), code);
    var prev := s0;
    var acc := prev + s1; HasAppend(prev, s1, code); prev := acc;
    acc := prev + s2; HasAppend(prev, s2, code); prev := acc;
    acc := prev + s3; HasAppend(prev, s3, code); prev := acc;
    acc := prev + s4; HasAppend(prev, s4, code); prev := acc;
    acc := prev + s5; HasAppend(prev, s5, code); prev := acc;
    acc := prev + s6; HasAppend(prev, s6, code); prev := acc;
    acc := prev + s7; HasAppend(prev, s7, code); prev := acc;
    acc := prev + s8; HasAppend(prev, s8, code); prev := acc;
    acc := prev + s9; HasAppend(prev, s9, code); prev := acc;
    acc := prev + s10; HasAppend(prev, s10, code); prev := acc;
    acc := prev + s11; HasAppend(prev, s11, code); prev := acc;
    acc := prev + s12; HasAppend(prev, s12, code);
  }

  /** Reference layout of the VERTEX writer: both markers, location, flags
      and tangent direction always; widths and bulge only when non-zero;
      the mesh indices only from R13 and when non-zero; the identifier only
      from R2010. */
  predicate VertexWrites(v: VertexData, version: AcadVersion, code: int) {
    || code == 100 || code == 10 || code == 20 || code == 30 || code == 70 || code == 50
    || (code == 40 && v.startingWidth != Zero())
    || (code == 41 && v.endingWidth != Zero())
    || (code == 42 && v.bulge != Zero())
    || (code == 71 && AtLeast(version, R13()) && v.polyfaceMeshVertexIndex1 != 0)
    || (code == 72 && AtLeast(version, R13()) && v.polyfaceMeshVertexIndex2 != 0)
    || (code == 73 && AtLeast(version, R13()) && v.polyfaceMeshVertexIndex3 != 0)
    || (code == 74 && AtLeast(version, R13()) && v.polyfaceMeshVertexIndex4 != 0)
    || (code == 91 && AtLeast(version, R2010()))
  }

  function MeshIndexPairs(v: VertexData): seq<CodePair> {
    Unless(v.polyfaceMeshVertexIndex1 == 0, [I16Pair(71, WrapI16(v.polyfaceMeshVertexIndex1))])
    + Unless(v.polyfaceMeshVertexIndex2 == 0, [I16Pair(72, WrapI16(v.polyfaceMeshVertexIndex2))])
    + Unless(v.polyfaceMeshVertexIndex3 == 0, [I16Pair(73, WrapI16(v.polyfaceMeshVertexIndex3))])
    + Unless(v.polyfaceMeshVertexIndex4 == 0, [I16Pair(74, WrapI16(v.polyfaceMeshVertexIndex4))])
  }

  lemma MeshIndexLayout(v: VertexData, code: int)
    ensures Has(MeshIndexPairs(v), code) <==>
      || (code == 71 && v.polyfaceMeshVertexIndex1 != 0)
      || (code == 72 && v.polyfaceMeshVertexIndex2 != 0)
      || (code == 73 && v.polyfaceMeshVertexIndex3 != 0)
      || (code == 74 && v.polyfaceMeshVertexIndex4 != 0)
  {
    var s1 := Unless(v.polyfaceMeshVertexIndex1 == 0, [I16Pair(71, WrapI16(v.polyfaceMeshVertexIndex1))]);
    var s2 := Unless(v.polyfaceMeshVertexIndex2 == 0, [I16Pair(72, WrapI16(v.polyfaceMeshVertexIndex2))]);
    var s3 := Unless(v.polyfaceMeshVertexIndex3 == 0, [I16Pair(73, WrapI16(v.polyfaceMeshVertexIndex3))]);
    var s4 := Unless(v.polyfaceMeshVertexIndex4 == 0, [I16Pair(74, WrapI16(v.polyfaceMeshVertexIndex4))]);
    HasOne(v.polyfaceMeshVertexIndex1 == 0, I16Pair(71, WrapI16(v.polyfaceMeshVertexIndex1)), code);
    HasOne(v.polyfaceMeshVertexIndex2 == 0, I16Pair(72, WrapI16(v.polyfaceMeshVertexIndex2)), code);
    HasOne(v.polyfaceMeshVertexIndex3 == 0, I16Pair(73, WrapI16(v.polyfaceMeshVertexIndex3)), code);
    HasOne(v.polyfaceMeshVertexIndex4 == 0, I16Pair(74, WrapI16(v.polyfaceMeshVertexIndex4)), code);
    HasAppend(s1, s2, code);
    HasAppend(s1 + s2, s3, code);
    HasAppend(s1 + s2 + s3, s4, code);
  }

  /** The VERTEX writer opens with the generic marker and then the one that
      names a 3D vertex exactly when either 3D flag is set, and writes a
      code exactly when the reference layout says so. */
  lemma VertexLayout(v: VertexData, version: AcadVersion, code: int)
    ensures VertexPairs(v, version)[0] == StrPair(100, "AcDbVertex")
    ensures VertexPairs(v, version)[1] ==
      StrPair(100, if Is3dPolylineVertex(v) || Is3dPolygonMeshVertex(v) then "AcDb3dPolylineVertex" else "AcDb2dVertex")
    ensures Has(VertexPairs(v, version), code) <==> VertexWrites(v, version, code)
  {
    var s0 := [StrPair(100, "AcDbVertex"), StrPair(100, VertexMarker(v))];
    var s1 := PointPairs(10, v.location);
    var s2 := Unless(v.startingWidth == Zero(), [F64Pair(40, v.startingWidth)]);
    var s3 := Unless(v.endingWidth == Zero(), [F64Pair(41, v.endingWidth)]);
    var s4 := Unless(v.bulge == Zero(), [F64Pair(42, v.bulge)]);
    var s5 := [I16Pair(70, WrapI16(v.flags)), F64Pair(50, v.curveFitTangentDirection)];
    var s6 := if AtLeast(version, R13()) then MeshIndexPairs(v) else [];
    var s7 := if AtLeast(version, R2010()) then [I32Pair(91, v.identifier)] else [];
    assert VertexPairs(v, version) == s0 + s1 + s2 + s3 + s4 + s5 + s6 + s7;
    assert Has(s0, code) <==> code == 100 by {
      if code == 100 { assert s0[0].code == code; }
    }
    assert Has(s5, code) <==> code == 70 || code == 50 by {
      if code == 70 { assert s5[0].code == code; }
      if code == 50 { assert s5[1].code == code; }
    }
    HasPoint(10, v.location, code);
    HasOne(v.startingWidth == Zero(), F64Pair(40, v.startingWidth), code);
    HasOne(v.endingWidth == Zero(), F64Pair(41, v.endingWidth), code);
    HasOne(v.bulge == Zero(), F64Pair(42, v.bulge), code);
    MeshIndexLayout(v, code);
    HasOne(!AtLeast(version, R2010()), I32Pair(91, v.identifier), code);
    var prev := s0;
    var acc := prev + s1; HasAppend(prev, s1, code); prev := acc;
    acc := prev + s2; HasAppend(prev, s2, code); prev := acc;
    acc := prev + s3; HasAppend(prev, s3, code); prev := acc;
    acc := prev + s4; HasAppend(prev, s4, code); prev := acc;
    acc := prev + s5; HasAppend(prev, s5, code); prev := acc;
    acc := prev + s6; HasAppend(prev, s6, code); prev := acc;
    acc := prev + s7; HasAppend(prev, s7, code);
  }

  //----------------------------------------------------------------------------
  // The entity tags a write produces
  //----------------------------------------------------------------------------

  /** The values of the code-0 pairs, in order: the entities written. */
  function Tags(pairs: seq<CodePair>): seq<Value>
    decreases |pairs|
  {
    if pairs == [] then []
    else (if pairs[0].code == 0 then [pairs[0].value] else []) + Tags(pairs[1..])
  }

  lemma {:induction false} TagsAppend(a: seq<CodePair>, b: seq<CodePair>)
    ensures Tags(a + b) == Tags(a) + Tags(b)
    decreases |a|
  {
    if a == [] {
      assert a + b == b;
    } else {
      var head := if a[0].code == 0 then [a[0].value] else [];
      assert (a + b)[0] == a[0] && (a + b)[1..] == a[1..] + b;
      assert Tags(a + b) == head + Tags(a[1..] + b);
      TagsAppend(a[1..], b);
      assert Tags(a) == head + Tags(a[1..]);
    }
  }

  lemma {:induction false} NoTagsMeansNoTags(pairs: seq<CodePair>)
    requires NoTags(pairs)
    ensures Tags(pairs) == []
    decreases |pairs|
  {
    if pairs != [] {
      NoTagsMeansNoTags(pairs[1..]);
    }
  }

  /** A catalogue whose field writers write fields only, never an entity
      tag. */
  ghost predicate Quiet(cat: Catalogue) {
    && (forall c, v, h :: NoTags(cat.writeCommon(c, v, h)))
    && (forall e, c, v :: NoTags(cat.writeSpecific(e, c, v)))
    && (forall b, v :: NoTags(cat.writeDimensionBase(b, v)))
    && (forall x, v :: NoTags(cat.writeXData(x, v)))
  }

  lemma {:induction false} XDataQuiet(cat: Catalogue, xs: seq<XData>, version: AcadVersion)
    requires Quiet(cat)
    ensures Tags(XDataPairs(cat, xs, version)) == []
    decreases |xs|
  {
    if xs != [] {
      NoTagsMeansNoTags(cat.writeXData(xs[0], version));
      XDataQuiet(cat, xs[1..], version);
      TagsAppend(cat.writeXData(xs[0], version), XDataPairs(cat, xs[1..], version));
    }
  }

  lemma NoTagsFromHas(pairs: seq<CodePair>)
    requires !Has(pairs, 0)
    ensures NoTags(pairs)
  {
  }

  lemma OwnPairsQuiet(cat: Catalogue, ent: Entity, version: AcadVersion)
    requires Quiet(cat)
    ensures Tags(OwnPairs(cat, ent, version)) == []
  {
    var own := OwnPairs(cat, ent, version);
    if ent.specific.Dimension? {
      var dim := ent.specific.dim;
      ShapePairsHaveNoTags(dim.shape, version);
      NoTagsMeansNoTags(cat.writeDimensionBase(dim.base, version));
      NoTagsMeansNoTags(ShapePairs(dim.shape, version));
      TagsAppend(cat.writeDimensionBase(dim.base, version), ShapePairs(dim.shape, version));
    } else if ent.specific.Polyline? {
      assert own == PolylinePairs(ent.specific.poly, version);
      PolylineLayout(ent.specific.poly, version, 0);
      NoTagsFromHas(own);
      NoTagsMeansNoTags(own);
    } else if ent.specific.Vertex? {
      assert own == VertexPairs(ent.specific.vertex, version);
      VertexLayout(ent.specific.vertex, version, 0);
      NoTagsFromHas(own);
      NoTagsMeansNoTags(own);
    } else {
      NoTagsMeansNoTags(own);
    }
  }

  /** Of everything an entity writes, only its own tag and those of the
      entities it owns are code-0 pairs: fields and x-data never are. */
  lemma WriteTags(cat: Catalogue, ent: Entity, version: AcadVersion, writeHandles: bool)
    requires Quiet(cat) && cat.isSupportedOnVersion(ent.specific, version)
    ensures Tags(Write(cat, ent, version, writeHandles)) ==
      [Str(cat.toTypeString(ent.specific))] + Tags(PostWrite(cat, ent, version, writeHandles))
  {
    var head := [StrPair(0, cat.toTypeString(ent.specific))];
    var common := cat.writeCommon(ent.common, version, writeHandles);
    var own := OwnPairs(cat, ent, version);
    var post := PostWrite(cat, ent, version, writeHandles);
    var xs := XDataPairs(cat, ent.common.xData, version);
    assert Write(cat, ent, version, writeHandles) == head + common + own + post + xs;
    assert Tags(head) == [Str(cat.toTypeString(ent.specific))];
    NoTagsMeansNoTags(common);
    OwnPairsQuiet(cat, ent, version);
    XDataQuiet(cat, ent.common.xData, version);
    TagsAppend(head, common);
    TagsAppend(head + common, own);
    TagsAppend(head + common + own, post);
    TagsAppend(head + common + own + post, xs);
  }

  /** The tag of one entity, if the version supports it. */
  function TagIf(cat: Catalogue, e: EntityType, version: AcadVersion): seq<Value> {
    if cat.isSupportedOnVersion(e, version) then [Str(cat.toTypeString(e))] else []
  }

  /** Reference tag sequence of one attribute of an INSERT: the attribute,
      then its MText, each only if the version supports it; nothing at all
      when the attribute itself is not supported. */
  function AttributeEntityTags(cat: Catalogue, att: AttributeFields, version: AcadVersion): seq<Value> {
    if cat.isSupportedOnVersion(Attribute(att), version)
    then [Str(cat.toTypeString(Attribute(att)))] + TagIf(cat, MText(att.mText), version)
    else []
  }

  function AttributeRunTags(cat: Catalogue, atts: seq<(AttributeFields, Handle)>, version: AcadVersion): seq<Value>
    decreases |atts|
  {
    if atts == [] then []
    else AttributeEntityTags(cat, atts[0].0, version) + AttributeRunTags(cat, atts[1..], version)
  }

  function VertexRunTags(cat: Catalogue, poly: PolylineData, vs: seq<(VertexData, Handle)>,
                         version: AcadVersion): seq<Value>
    decreases |vs|
  {
    if vs == [] then []
    else TagIf(cat, Vertex(InheritFlags(poly, vs[0].0)), version) + VertexRunTags(cat, poly, vs[1..], version)
  }

  /** An entity that owns nothing writes exactly its own tag, or nothing
      when the version does not support it. */
  lemma LeafTags(cat: Catalogue, ent: Entity, version: AcadVersion, writeHandles: bool)
    requires Quiet(cat)
    requires !(ent.specific.Insert? || ent.specific.Polyline? || ent.specific.Attribute?
               || ent.specific.AttributeDefinition?)
    ensures Tags(Write(cat, ent, version, writeHandles)) == TagIf(cat, ent.specific, version)
  {
    if cat.isSupportedOnVersion(ent.specific, version) {
      WriteTags(cat, ent, version, writeHandles);
      assert PostWrite(cat, ent, version, writeHandles) == [];
    }
  }

  /** An attribute written for its INSERT: its tag, then its MText's. */
  lemma AttributeChildTags(cat: Catalogue, child: (AttributeFields, Handle), version: AcadVersion,
                           writeHandles: bool)
    requires Quiet(cat)
    ensures Tags(Write(cat, AttributeChild(child), version, writeHandles)) ==
      AttributeEntityTags(cat, child.0, version)
  {
    var ent := AttributeChild(child);
    if cat.isSupportedOnVersion(ent.specific, version) {
      WriteTags(cat, ent, version, writeHandles);
      var m := AttributeMText(ent.common, child.0.mText);
      assert PostWrite(cat, ent, version, writeHandles) == Write(cat, m, version, writeHandles);
      LeafTags(cat, m, version, writeHandles);
    }
  }

  lemma {:induction false} WriteAttributesTags(cat: Catalogue, atts: seq<(AttributeFields, Handle)>,
                                               version: AcadVersion, writeHandles: bool)
    requires Quiet(cat)
    ensures Tags(WriteAttributes(cat, atts, version, writeHandles)) == AttributeRunTags(cat, atts, version)
    decreases |atts|
  {
    if atts != [] {
      AttributeChildTags(cat, atts[0], version, writeHandles);
      WriteAttributesTags(cat, atts[1..], version, writeHandles);
      TagsAppend(Write(cat, AttributeChild(atts[0]), version, writeHandles),
                 WriteAttributes(cat, atts[1..], version, writeHandles));
    }
  }

  lemma {:induction false} WriteVerticesTags(cat: Catalogue, poly: PolylineData, vs: seq<(VertexData, Handle)>,
                                             version: AcadVersion, writeHandles: bool)
    requires Quiet(cat)
    ensures Tags(WriteVertices(cat, poly, vs, version, writeHandles)) == VertexRunTags(cat, poly, vs, version)
    decreases |vs|
  {
    if vs != [] {
      LeafTags(cat, VertexChild(poly, vs[0]), version, writeHandles);
      WriteVerticesTags(cat, poly, vs[1..], version, writeHandles);
      TagsAppend(Write(cat, VertexChild(poly, vs[0]), version, writeHandles),
                 WriteVertices(cat, poly, vs[1..], version, writeHandles));
    }
  }

  lemma InsertPostWriteTags(cat: Catalogue, ent: Entity, version: AcadVersion, writeHandles: bool)
    requires Quiet(cat) && ent.specific.Insert?
    ensures Tags(PostWrite(cat, ent, version, writeHandles)) ==
      AttributeRunTags(cat, ent.specific.insert.attributes, version) + TagIf(cat, Seqend, version)
  {
    var atts := WriteAttributes(cat, ent.specific.insert.attributes, version, writeHandles);
    var end := Write(cat, SeqendEntity(), version, writeHandles);
    assert PostWrite(cat, ent, version, writeHandles) == atts + end;
    WriteAttributesTags(cat, ent.specific.insert.attributes, version, writeHandles);
    LeafTags(cat, SeqendEntity(), version, writeHandles);
    TagsAppend(atts, end);
  }

  lemma PolylinePostWriteTags(cat: Catalogue, ent: Entity, version: AcadVersion, writeHandles: bool)
    requires Quiet(cat) && ent.specific.Polyline?
    ensures Tags(PostWrite(cat, ent, version, writeHandles)) ==
      VertexRunTags(cat, ent.specific.poly, ent.specific.poly.vertices, version) + TagIf(cat, Seqend, version)
  {
    var poly := ent.specific.poly;
    var vs := WriteVertices(cat, poly, poly.vertices, version, writeHandles);
    var end := Write(cat, SeqendEntity(), version, writeHandles);
    assert PostWrite(cat, ent, version, writeHandles) == vs + end;
    WriteVerticesTags(cat, poly, poly.vertices, version, writeHandles);
    LeafTags(cat, SeqendEntity(), version, writeHandles);
    TagsAppend(vs, end);
  }

  /** An INSERT writes its tag, then each attribute in list order (each
      followed by its MText), then one SEQEND: the pairs of every other kind
      are fields. */
  lemma InsertTags(cat: Catalogue, common: EntityCommon, ins: InsertData, version: AcadVersion,
                   writeHandles: bool)
    requires Quiet(cat) && cat.isSupportedOnVersion(Insert(ins), version)
    ensures Tags(Write(cat, Entity(common, Insert(ins)), version, writeHandles)) ==
      [Str(cat.toTypeString(Insert(ins)))] + AttributeRunTags(cat, ins.attributes, version)
      + TagIf(cat, Seqend, version)
  {
    WriteTags(cat, Entity(common, Insert(ins)), version, writeHandles);
    InsertPostWriteTags(cat, Entity(common, Insert(ins)), version, writeHandles);
  }

  /** A POLYLINE writes its tag, then each vertex in list order, then one
      SEQEND. */
  lemma PolylineTags(cat: Catalogue, common: EntityCommon, poly: PolylineData, version: AcadVersion,
                     writeHandles: bool)
    requires Quiet(cat) && cat.isSupportedOnVersion(Polyline(poly), version)
    ensures Tags(Write(cat, Entity(common, Polyline(poly)), version, writeHandles)) ==
      [Str(cat.toTypeString(Polyline(poly)))] + VertexRunTags(cat, poly, poly.vertices, version)
      + TagIf(cat, Seqend, version)
  {
    WriteTags(cat, Entity(common, Polyline(poly)), version, writeHandles);
    PolylinePostWriteTags(cat, Entity(common, Polyline(poly)), version, writeHandles);
  }

  /** Any writer that emits a list by writing its head and then the rest of
      the list writes a concatenation of lists as the concatenation of what it
      writes for each. */
  lemma {:induction false} ListWriterAppend<X>(writeList: seq<X> -> seq<CodePair>, writeOne: X -> seq<CodePair>,
                                               a: seq<X>, b: seq<X>)
    requires forall xs :: writeList(xs) == if xs == [] then [] else writeOne(xs[0]) + writeList(xs[1..])
    ensures writeList(a + b) == writeList(a) + writeList(b)
    decreases |a|
  {
    if a == [] {
      assert a + b == b;
    } else {
      assert (a + b)[0] == a[0];
      assert (a + b)[1..] == a[1..] + b;
      ListWriterAppend(writeList, writeOne, a[1..], b);
    }
  }

  lemma WriteAttributesAppend(cat: Catalogue, a: seq<(AttributeFields, Handle)>,
                              b: seq<(AttributeFields, Handle)>, version: AcadVersion, writeHandles: bool)
    ensures WriteAttributes(cat, a + b, version, writeHandles) ==
      WriteAttributes(cat, a, version, writeHandles) + WriteAttributes(cat, b, version, writeHandles)
  {
    var writeList := atts => WriteAttributes(cat, atts, version, writeHandles);
    var writeOne := child => Write(cat, AttributeChild(child), version, writeHandles);
    forall atts: seq<(AttributeFields, Handle)>
      ensures writeList(atts) == if atts == [] then [] else writeOne(atts[0]) + writeList(atts[1..])
    {
    }
    ListWriterAppend(writeList, writeOne, a, b);
  }

  lemma WriteVerticesAppend(cat: Catalogue, poly: PolylineData, a: seq<(VertexData, Handle)>,
                            b: seq<(VertexData, Handle)>, version: AcadVersion, writeHandles: bool)
    ensures WriteVertices(cat, poly, a + b, version, writeHandles) ==
      WriteVertices(cat, poly, a, version, writeHandles) + WriteVertices(cat, poly, b, version, writeHandles)
  {
    var writeList := vs => WriteVertices(cat, poly, vs, version, writeHandles);
    var writeOne := child => Write(cat, VertexChild(poly, child), version, writeHandles);
    forall vs: seq<(VertexData, Handle)>
      ensures writeList(vs) == if vs == [] then [] else writeOne(vs[0]) + writeList(vs[1..])
    {
    }
    ListWriterAppend(writeList, writeOne, a, b);
  }

  /** After `add_attribute`, an INSERT writes what it wrote before for its
      attributes, then the new attribute with the handle it was given, and
      only then the SEQEND. */
  lemma AddAttributeWritesLast(cat: Catalogue, common: EntityCommon, ins: InsertData, att: AttributeFields,
                               handle: Handle, version: AcadVersion, writeHandles: bool)
    ensures PostWrite(cat, Entity(common, Insert(AddAttribute(ins, att, handle))), version, writeHandles) ==
      WriteAttributes(cat, ins.attributes, version, writeHandles)
      + Write(cat, Entity(DefaultCommon().(handle := handle), Attribute(att)), version, writeHandles)
      + Write(cat, SeqendEntity(), version, writeHandles)
  {
    var child := [(att, handle)];
    WriteAttributesAppend(cat, ins.attributes, child, version, writeHandles);
    assert child[1..] == [];
    assert WriteAttributes(cat, child, version, writeHandles) ==
      Write(cat, AttributeChild((att, handle)), version, writeHandles);
  }

  /** After `add_vertex`, a POLYLINE writes its old vertices as before, then
      the new one (with the polyline's 3D flags and its own handle), then the
      SEQEND. */
  lemma AddVertexWritesLast(cat: Catalogue, common: EntityCommon, poly: PolylineData, v: VertexData,
                            handle: Handle, version: AcadVersion, writeHandles: bool)
    ensures var after := AddVertex(poly, v, handle);
      PostWrite(cat, Entity(common, Polyline(after)), version, writeHandles) ==
      WriteVertices(cat, after, poly.vertices, version, writeHandles)
      + Write(cat, VertexChild(after, (v, handle)), version, writeHandles)
      + Write(cat, SeqendEntity(), version, writeHandles)
  {
    var after := AddVertex(poly, v, handle);
    var child := [(v, handle)];
    WriteVerticesAppend(cat, after, poly.vertices, child, version, writeHandles);
    assert child[1..] == [];
    assert after.vertices == poly.vertices + child;
    assert WriteVertices(cat, after, child, version, writeHandles) ==
      Write(cat, VertexChild(after, (v, handle)), version, writeHandles);
  }

  /** The vertex a POLYLINE writes names itself 3D exactly when the polyline
      does, whatever flags the vertex was stored with. */
  lemma VertexMarkerFollowsPolyline(poly: PolylineData, v: VertexData, version: AcadVersion)
    ensures (PolylineMarker(poly) == "AcDb3dPolyline") <==>
      (VertexPairs(InheritFlags(poly, v), version)[1] == StrPair(100, "AcDb3dPolylineVertex"))
  {
    VertexLayout(InheritFlags(poly, v), version, 0);
  }
}
