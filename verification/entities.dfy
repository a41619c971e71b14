/**
 The entity data model: common fields, the entity variants the engine handles
 individually, and the dimension family (five shapes over one shared
 `DimensionBase`). Kinds the engine only reaches through the generated
 catalogue carry their generated fields as an opaque `Fields` record.
 */
module Entities {
  import opened CodePairs

  /** A point or vector (`Point`/`Vector` in the source share this shape). */
  datatype Point = Point(x: F64, y: F64, z: F64)

  function Origin(): Point { Point(Zero(), Zero(), Zero()) }
  function ZAxis(): Point { Point(Zero(), Zero(), One()) }

  /** The coordinate of a point a group code's axis digit selects: the tens
      digit is 1 for x, 2 for y and 3 for z (10/20/30, 13/23/33,
      210/220/230, ...). */
  function Coord(p: Point, code: int): F64 {
    var axis := code / 10 % 10;
    if axis == 1 then p.x else if axis == 2 then p.y else p.z
  }

  /** The point with the coordinate `code` selects replaced by `f`. */
  function WithCoord(p: Point, code: int, f: F64): (r: Point)
    ensures Coord(r, code) == f
  {
    var axis := code / 10 % 10;
    if axis == 1 then p.(x := f) else if axis == 2 then p.(y := f) else p.(z := f)
  }

  /** Replacing one coordinate leaves the other two as they were. */
  lemma WithCoordKeepsOthers(p: Point, code: int, f: F64, c: int)
    requires c / 10 % 10 in {1, 2, 3} && code / 10 % 10 in {1, 2, 3}
    requires c / 10 % 10 != code / 10 % 10
    ensures Coord(WithCoord(p, code, f), c) == Coord(p, c)
  {
  }

  /** A drawing format release; releases are totally ordered by `rank`. */
  datatype AcadVersion = AcadVersion(rank: nat)

  function R12(): AcadVersion { AcadVersion(12) }
  function R13(): AcadVersion { AcadVersion(13) }
  function R14(): AcadVersion { AcadVersion(14) }
  function R2000(): AcadVersion { AcadVersion(15) }
  function R2010(): AcadVersion { AcadVersion(18) }

  predicate AtLeast(v: AcadVersion, w: AcadVersion) { v.rank >= w.rank }
  predicate AtMost(v: AcadVersion, w: AcadVersion) { v.rank <= w.rank }

  /** The enumerations whose numeric codes the engine decodes. */
  datatype EnumKind =
    | DimensionTypeEnum
    | AttachmentPointEnum
    | TextLineSpacingStyleEnum
    | VersionEnum
    | MTextFlagEnum
    | HorizontalTextJustificationEnum
    | VerticalTextJustificationEnum
    | DrawingDirectionEnum
    | MTextLineSpacingStyleEnum
    | BackgroundFillSettingEnum

  /** Generated fields of a kind that only the generated catalogue touches. */
  datatype Fields = Fields(values: map<string, Value>)

  function NoFields(): Fields { Fields(map[]) }

  /** Trailing application data (code 1001 groups). */
  datatype XData = XData(applicationName: string, items: seq<Value>)

  /** The fields every entity has; `generated` holds the ones the engine never
      touches by name (extension groups, colour, line type, ...). */
  datatype EntityCommon = EntityCommon(
    handle: Handle,
    ownerHandle: Handle,
    isInPaperSpace: bool,
    layer: string,
    xData: seq<XData>,
    generated: Fields)

  /** `EntityCommon::default()`: empty handles, model space, layer "0". */
  function DefaultCommon(): EntityCommon {
    EntityCommon(EmptyHandle(), EmptyHandle(), false, "0", [], NoFields())
  }

  //----------------------------------------------------------------------------
  // Dimension family
  //----------------------------------------------------------------------------

  /** The fields all dimension shapes share. Enumerated fields hold their
      numeric code. */
  datatype DimensionBase = DimensionBase(
    text: string,
    blockName: string,
    dimensionStyleName: string,
    definitionPoint1: Point,
    textMidPoint: Point,
    textLineSpacingFactor: F64,
    actualMeasurement: F64,
    horizontalDirectionAngle: F64,
    textRotationAngle: F64,
    dimensionType: int,
    isBlockReferenceReferencedByThisBlockOnly: bool,
    isOrdinateXType: bool,
    isAtUserDefinedLocation: bool,
    attachmentPoint: int,
    textLineSpacingStyle: int,
    normal: Point,
    version: int)

  datatype ShapeKind = RotatedKind | RadialKind | DiameterKind | AngularThreePointKind | OrdinateKind

  /** The shape-specific fields of the five dimension entities. */
  datatype Shape =
    | Rotated(insertionPoint: Point, definitionPoint2: Point, definitionPoint3: Point,
              rotationAngle: F64, extensionLineAngle: F64)
    | Radial(definitionPoint2: Point, leaderLength: F64)
    | Diameter(definitionPoint2: Point, leaderLength: F64)
    | AngularThreePoint(definitionPoint2: Point, definitionPoint3: Point,
                        definitionPoint4: Point, definitionPoint5: Point)
    | Ordinate(definitionPoint2: Point, definitionPoint3: Point)
  {
    function Kind(): ShapeKind {
      match this
      case Rotated(_, _, _, _, _) => RotatedKind
      case Radial(_, _) => RadialKind
      case Diameter(_, _) => DiameterKind
      case AngularThreePoint(_, _, _, _) => AngularThreePointKind
      case Ordinate(_, _) => OrdinateKind
    }
  }

  /** One dimension entity: the active shape over the shared base. */
  datatype DimensionData = DimensionData(base: DimensionBase, shape: Shape)

  //----------------------------------------------------------------------------
  // Kinds with custom readers or writers
  //----------------------------------------------------------------------------

  datatype MTextData = MTextData(
    insertionPoint: Point,
    initialTextHeight: F64,
    referenceRectangleWidth: F64,
    attachmentPoint: int,
    drawingDirection: int,
    extendedText: seq<string>,
    text: string,
    textStyleName: string,
    extrusionDirection: Point,
    xAxisDirection: Point,
    horizontalWidth: F64,
    verticalHeight: F64,
    rotationAngle: F64,
    lineSpacingStyle: int,
    lineSpacingFactor: F64,
    backgroundFillSetting: int,
    backgroundColorRgb: I32,
    backgroundColorName: string,
    fillBoxScale: F64,
    backgroundFillColor: I16,
    backgroundFillColorTransparency: I32,
    columnType: I16,
    columnCount: I32,
    isColumnFlowReversed: bool,
    isColumnAutoHeight: bool,
    columnWidth: F64,
    columnGutter: F64,
    columnHeights: seq<F64>)

  /** The fields of ATTRIB; ATTDEF has the same ones plus a prompt. `tag` is
      `attribute_tag` on ATTRIB and `text_tag` on ATTDEF. */
  datatype AttributeFields = AttributeFields(
    value: string,
    tag: string,
    xRecordTag: string,
    textStyleName: string,
    location: Point,
    alignmentPoint: Point,
    secondAlignmentPoint: Point,
    thickness: F64,
    textHeight: F64,
    annotationScale: F64,
    relativeXScaleFactor: F64,
    rotation: F64,
    obliqueAngle: F64,
    mTextFlag: int,
    isReallyLocked: bool,
    secondaryAttributeCount: I32,
    flags: I32,
    textGenerationFlags: I32,
    horizontalTextJustification: int,
    fieldLength: I16,
    verticalTextJustification: int,
    normal: Point,
    keepDuplicateRecords: bool,
    version: int,
    isLockedInBlock: bool,
    secondaryAttributesHandle: seq<Handle>,
    mText: MTextData)

  datatype LwPolylineVertex = LwPolylineVertex(
    x: F64, y: F64, id: I32, startingWidth: F64, endingWidth: F64, bulge: F64)

  /** `LwPolylineVertex::default()`: every field zero. */
  function DefaultLwVertex(): LwPolylineVertex {
    LwPolylineVertex(Zero(), Zero(), 0, Zero(), Zero(), Zero())
  }

  datatype LwPolylineData = LwPolylineData(
    vertices: seq<LwPolylineVertex>,
    thickness: F64,
    constantWidth: F64,
    flags: I32,
    extrusionDirection: Point)

  datatype VertexData = VertexData(
    location: Point,
    startingWidth: F64,
    endingWidth: F64,
    bulge: F64,
    flags: I32,
    curveFitTangentDirection: F64,
    polyfaceMeshVertexIndex1: I32,
    polyfaceMeshVertexIndex2: I32,
    polyfaceMeshVertexIndex3: I32,
    polyfaceMeshVertexIndex4: I32,
    identifier: I32)

  /** A POLYLINE with its owned vertices, each paired with its handle. */
  datatype PolylineData = PolylineData(
    containsVertices: bool,
    location: Point,
    thickness: F64,
    flags: I32,
    defaultStartingWidth: F64,
    defaultEndingWidth: F64,
    polygonMeshMVertexCount: I32,
    polygonMeshNVertexCount: I32,
    smoothSurfaceMDensity: I32,
    smoothSurfaceNDensity: I32,
    surfaceType: int,
    normal: Point,
    vertices: seq<(VertexData, Handle)>)

  /** An INSERT with its owned attributes, each paired with its handle. */
  datatype InsertData = InsertData(attributes: seq<(AttributeFields, Handle)>, generated: Fields)

  /** A proxy entity; its object drawing format packs two version numbers
      into one `u32`. */
  datatype ProxyData = ProxyData(objectDrawingFormat: U32, generated: Fields)

  /** Parallel coordinate lists read during decoding and the points they are
      consolidated into; 2D kinds keep no z list. */
  datatype Coords2 = Coords2(xs: seq<F64>, ys: seq<F64>, points: seq<Point>)
  datatype Coords3 = Coords3(xs: seq<F64>, ys: seq<F64>, zs: seq<F64>, points: seq<Point>)

  datatype UnderlayFormat = Dgn | Dwf | Pdf

  datatype EntityType =
    | Dimension(dim: DimensionData)
    | Attribute(att: AttributeFields)
    | AttributeDefinition(att: AttributeFields, prompt: string)
    | LwPolyline(lw: LwPolylineData)
    | MText(mtext: MTextData)
    | Insert(insert: InsertData)
    | Polyline(poly: PolylineData)
    | Vertex(vertex: VertexData)
    | Seqend
    | ProxyEntity(proxy: ProxyData)
    | Image(clipping: Coords2, generated: Fields)
    | Leader(vertices: Coords3, generated: Fields)
    | MLine(vertices: Coords3, segmentDirections: Coords3, miterDirections: Coords3, generated: Fields)
    | Section(vertices: Coords3, backLineVertices: Coords3, generated: Fields)
    | Spline(controlPoints: Coords3, fitPoints: Coords3, generated: Fields)
    | Underlay(format: UnderlayFormat, underlayPoints: Coords2, generated: Fields)
    | Wipeout(clipping: Coords2, generated: Fields)
    | Regular(typeName: string, generated: Fields)

  datatype Entity = Entity(common: EntityCommon, specific: EntityType)
}
