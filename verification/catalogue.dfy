/**
 The generated, per-kind code the engine calls but does not contain: type-name
 lookup, per-kind field tables, common-field reading and writing, enumerator
 tables and default instances. The model receives them as one record of
 function values, so every statement about the engine holds for ANY catalogue
 that meets `Valid`.
 */
module Catalogues {
  import opened CodePairs
  import opened CodePairPutBack
  import opened Entities

  datatype Catalogue = Catalogue(
    /** `EntityType::from_type_string`: a default instance, or None for an
        unsupported kind. */
    fromTypeString: string -> Option<EntityType>,
    /** `EntityType::to_type_string`. */
    toTypeString: EntityType -> string,
    /** `CodePair::as_handle`: the handle a pair's payload denotes, or the
        error that payload gives. */
    asHandle: CodePair -> Result<Handle>,
    /** `EntityType::is_supported_on_version`. */
    isSupportedOnVersion: (EntityType, AcadVersion) -> bool,
    /** `EntityType::try_apply_code_pair`: (recognised?, updated instance). */
    tryApplyCodePair: (EntityType, CodePair) -> Result<(bool, EntityType)>,
    /** `EntityCommon::apply_individual_pair`: may read further pairs from the
        stream (extension groups, x-data), so it returns the stream too. */
    applyIndividualPair: (EntityCommon, CodePair, Stream) -> (Result<EntityCommon>, Stream),
    /** `EntityCommon::write(version, write_handles)`. */
    writeCommon: (EntityCommon, AcadVersion, bool) -> seq<CodePair>,
    /** `EntityType::write`: the generated field writer. */
    writeSpecific: (EntityType, EntityCommon, AcadVersion) -> seq<CodePair>,
    /** `DimensionBase::write`. */
    writeDimensionBase: (DimensionBase, AcadVersion) -> seq<CodePair>,
    /** `XData::write`. */
    writeXData: (XData, AcadVersion) -> seq<CodePair>,
    /** Whether a number names an enumerator of the given enumeration. */
    enumKnown: (EnumKind, int) -> bool,
    /** The fallback enumerator named at each decoding site, as a number. */
    enumDefault: EnumKind -> int,
    /** `DimensionBase::default()`. */
    defaultBase: DimensionBase,
    /** The default shape-specific fields of each dimension entity. */
    defaultShape: ShapeKind -> Shape)
  {
    /** What the engine relies on: reading common fields never puts back more
        than it took, and each default shape is of its own kind. */
    ghost predicate Valid() {
      && (forall c, p, s :: IsSuffix(View(applyIndividualPair(c, p, s).1), View(s)))
      && (forall k :: defaultShape(k).Kind() == k)
    }

    /** `enum_from_number!(E, Default, ..., n)`: the enumerator numbered `n`,
        or the site's default when there is none. */
    function EnumFromNumber(kind: EnumKind, n: int): (r: int)
      ensures enumKnown(kind, n) ==> r == n
      ensures !enumKnown(kind, n) ==> r == enumDefault(kind)
    {
      if enumKnown(kind, n) then n else enumDefault(kind)
    }
  }
}
