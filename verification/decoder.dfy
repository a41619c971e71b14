/**
 `Entity::read`: read one entity from the lookahead stream. The first pair
 must be a code-0 tag; `ENDSEC` and `ENDBLK` are pushed back and end the
 section; `DIMENSION` runs the dimension loop; a kind with a custom reader
 runs it; any other known kind runs the generic loop and then `post_parse`;
 an unknown kind is swallowed up to the next tag and reading starts over
 within the same call.
 */
module Decoder {
  import opened CodePairs
  import opened CodePairPutBack
  import opened Entities
  import opened Catalogues
  import opened FieldLoop
  import opened Dimensions
  import AttributeReader
  import LwPolylineReader
  import MTextReader
  import opened PointLists

  const NotATag := "expected 0/entity-type or 0/ENDSEC"

  predicate EndsSection(typeName: string) {
    typeName == "ENDSEC" || typeName == "ENDBLK"
  }

  /** Whether a kind has one of the four custom readers. */
  predicate HasCustomReader(e: EntityType) {
    e.Attribute? || e.AttributeDefinition? || e.LwPolyline? || e.MText?
  }

  /** `apply_custom_reader`: for the four kinds that have one, run it and
      report `true` with the entity read; for any other kind report `false`
      and leave the stream untouched. */
  function ApplyCustomReader(cat: Catalogue, e: EntityType, s: Stream): (r: (Result<(bool, Entity)>, Stream))
    requires cat.Valid()
    ensures IsSuffix(View(r.1), View(s))
    ensures !HasCustomReader(e) ==> r == (Ok((false, Entity(DefaultCommon(), e))), s)
    ensures HasCustomReader(e) && r.0.Ok? ==> r.0.value.0 && |View(r.1)| > 0 && IsTag(View(r.1)[0])
  {
    if e.Attribute? || e.AttributeDefinition? then
      var isDefinition := e.AttributeDefinition?;
      var prompt := if isDefinition then e.prompt else "";
      var (res, rest) := AttributeReader.ReadAttribute(cat, isDefinition, e.att, prompt, s);
      if res.Err? then (Err(res.error), rest)
      else
        var st := res.value.0;
        var specific := if isDefinition then AttributeDefinition(st.att, st.prompt) else Attribute(st.att);
        (Ok((true, Entity(res.value.1, specific))), rest)
    else if e.LwPolyline? then
      var (res, rest) := LwPolylineReader.ReadLwPolyline(cat, e.lw, s);
      if res.Err? then (Err(res.error), rest)
      else (Ok((true, Entity(res.value.1, LwPolyline(res.value.0)))), rest)
    else if e.MText? then
      var (res, rest) := MTextReader.ReadMText(cat, e.mtext, s);
      if res.Err? then (Err(res.error), rest)
      else (Ok((true, Entity(res.value.1, MText(res.value.0.m)))), rest)
    else (Ok((false, Entity(DefaultCommon(), e))), s)
  }

  /** `Entity::apply_code_pair` as a step of the generic loop: the generated
      field table claims the pair, or common-field reading gets it. */
  function GenericStep(cat: Catalogue, e: EntityType, pair: CodePair): (r: Result<Step<EntityType>>)
    ensures r.Err? <==> cat.tryApplyCodePair(e, pair).Err?
    ensures r.Err? ==> r.error == cat.tryApplyCodePair(e, pair).error
    ensures r.Ok? ==> (r.value.Claimed? <==> cat.tryApplyCodePair(e, pair).value.0)
    ensures r.Ok? && r.value.Claimed? ==> r.value.state == cat.tryApplyCodePair(e, pair).value.1
  {
    var applied :- cat.tryApplyCodePair(e, pair);
    if applied.0 then Ok(Claimed(applied.1)) else Ok(Unclaimed)
  }

  function GenericSteps(cat: Catalogue): (EntityType, CodePair) -> Result<Step<EntityType>> {
    (e, p) => GenericStep(cat, e, p)
  }

  /** The swallow loop's step: every pair belongs to the unsupported entity. */
  function SwallowSteps(): ((), CodePair) -> Result<Step<()>> {
    (u, p) => Ok(Claimed(()))
  }

  lemma SwallowClaimsAll(pairs: seq<CodePair>)
    ensures Claims(SwallowSteps(), (), pairs)
    ensures Run(SwallowSteps(), (), pairs) == Ok(())
  {
    ClaimsAllClaims(SwallowSteps(), (), pairs);
    RunSwallow(pairs);
  }

  lemma {:induction false} RunSwallow(pairs: seq<CodePair>)
    ensures Run(SwallowSteps(), (), pairs) == Ok(())
    decreases |pairs|
  {
    if pairs != [] {
      RunSwallow(pairs[1..]);
    }
  }

  /** A known kind after its tag: its custom reader if it has one, otherwise
      the generic loop followed by `post_parse`. */
  function ReadKnown(cat: Catalogue, e: EntityType, s: Stream): (r: (Result<Entity>, Stream))
    requires cat.Valid()
    ensures IsSuffix(View(r.1), View(s))
    ensures r.0.Ok? ==> |View(r.1)| > 0 && IsTag(View(r.1)[0])
  {
    var (custom, s1) := ApplyCustomReader(cat, e, s);
    if custom.Err? then (Err(custom.error), s1)
    else if custom.value.0 then (Ok(custom.value.1), s1)
    else
      var (res, s2) := ReadFields(cat, GenericSteps(cat), e, DefaultCommon(), s1);
      if res.Err? then (Err(res.error), s2)
      else (Ok(Entity(res.value.1, PostParse(res.value.0))), s2)
  }

  /** What follows a code-0 tag naming neither a section end nor a missing
      string: the entity read (or the error), or `None` when the kind is
      unsupported and its pairs were swallowed up to the next tag. */
  function ReadTagged(cat: Catalogue, name: string, s: Stream): (r: (Option<Result<Entity>>, Stream))
    requires cat.Valid()
    ensures IsSuffix(View(r.1), View(s))
    ensures (r.0.None? || r.0.value.Ok?) ==> |View(r.1)| > 0 && IsTag(View(r.1)[0])
  {
    if name == "DIMENSION" then
      var (dim, s2) := ReadDimension(cat, s);
      (Some(dim), s2)
    else
      match cat.fromTypeString(name)
      case Some(e) =>
        var (known, s2) := ReadKnown(cat, e, s);
        (Some(known), s2)
      case None =>
        var (swallowed, s2) := ReadFields(cat, SwallowSteps(), (), DefaultCommon(), s);
        if swallowed.Err? then (Some(Err(swallowed.error)), s2) else (None, s2)
  }

  /** `Entity::read`. */
  function Read(cat: Catalogue, s: Stream): (r: (Result<Option<Entity>>, Stream))
    requires cat.Valid()
    ensures IsSuffix(View(r.1), View(s))
    ensures r.0.Ok? ==> |View(r.1)| > 0 && IsTag(View(r.1)[0])
    decreases |View(s)|
  {
    var (item, s1) := Next(s);
    if item.None? then (Err(UnexpectedEndOfInput), s1)
    else if item.value.Err? then (Err(item.value.error), s1)
    else
      var pair := item.value.value;
      if pair.code != 0 then (Err(UnexpectedCodePair(pair, NotATag)), s1)
      else
        var name := AssertString(pair);
        if name.Err? then (Err(name.error), s1)
        else if EndsSection(name.value) then (Ok(None), PutBack(s1, Ok(pair)))
        else
          var (got, s2) := ReadTagged(cat, name.value, s1);
          SuffixTransitive(View(s2), View(s1), View(s));
          if got.None? then
            var r := Read(cat, s2);
            SuffixTransitive(View(r.1), View(s2), View(s));
            r
          else if got.value.Err? then (Err(got.value.error), s2)
          else (Ok(Some(got.value.value)), s2)
  }

  //----------------------------------------------------------------------------
  // Properties
  //----------------------------------------------------------------------------

  function TagPair(name: string, offset: nat): CodePair { CodePair(0, Str(name), offset) }

  /** Once a tag naming an entity kind has been read, `read` is whatever
      the dispatch on that name gives, starting over when the kind was
      swallowed. */
  lemma ReadAtTag(cat: Catalogue, s: Stream, name: string, offset: nat, rest: seq<Item>)
    requires cat.Valid() && !EndsSection(name)
    requires View(s) == [Ok(TagPair(name, offset))] + rest
    ensures View(Next(s).1) == rest
    ensures var (got, s2) := ReadTagged(cat, name, Next(s).1);
      Read(cat, s) ==
        if got.None? then Read(cat, s2)
        else if got.value.Err? then (Err(got.value.error), s2)
        else (Ok(Some(got.value.value)), s2)
  {
    assert View(s)[1..] == rest;
  }

  lemma ReadTaggedDimension(cat: Catalogue, s: Stream)
    requires cat.Valid()
    ensures ReadTagged(cat, "DIMENSION", s) == (Some(ReadDimension(cat, s).0), ReadDimension(cat, s).1)
  {
  }

  lemma ReadTaggedKnown(cat: Catalogue, name: string, s: Stream, e: EntityType)
    requires cat.Valid() && name != "DIMENSION" && cat.fromTypeString(name) == Some(e)
    ensures ReadTagged(cat, name, s) == (Some(ReadKnown(cat, e, s).0), ReadKnown(cat, e, s).1)
  {
  }

  lemma ReadKnownLwPolyline(cat: Catalogue, lw: LwPolylineData, s: Stream)
    requires cat.Valid()
    ensures var r := LwPolylineReader.ReadLwPolyline(cat, lw, s);
      && ReadKnown(cat, LwPolyline(lw), s).1 == r.1
      && (ReadKnown(cat, LwPolyline(lw), s).0.Ok? <==> r.0.Ok?)
      && (r.0.Ok? ==> ReadKnown(cat, LwPolyline(lw), s).0.value.specific == LwPolyline(r.0.value.0))
  {
  }

  /** The error paths before any entity is read: end of input, a failed
      read passed on unchanged, and a first pair that is not a tag. */
  lemma ReadRejects(cat: Catalogue, s: Stream)
    requires cat.Valid()
    ensures View(s) == [] ==> Read(cat, s).0 == Err(UnexpectedEndOfInput)
    ensures View(s) != [] && View(s)[0].Err? ==> Read(cat, s).0 == Err(View(s)[0].error)
    ensures View(s) != [] && View(s)[0].Ok? && View(s)[0].value.code != 0 ==>
      Read(cat, s).0 == Err(UnexpectedCodePair(View(s)[0].value, NotATag))
  {
  }

  /** A section end is not consumed: `read` answers `None` and the tag is
      the very next item read afterwards. */
  lemma SectionEndIsPutBack(cat: Catalogue, s: Stream, name: string, offset: nat)
    requires cat.Valid()
    requires EndsSection(name)
    requires View(s) != [] && View(s)[0] == Ok(TagPair(name, offset))
    ensures Read(cat, s).0 == Ok(None)
    ensures Next(Read(cat, s).1).0 == Some(Ok(TagPair(name, offset)))
    ensures View(Read(cat, s).1) == View(s)
  {
  }

  /** Input that ends inside an unsupported entity is truncated. */
  lemma TruncatedUnknownEntity(cat: Catalogue, s: Stream, name: string, offset: nat, pairs: seq<CodePair>)
    requires cat.Valid()
    requires !EndsSection(name) && name != "DIMENSION" && cat.fromTypeString(name).None?
    requires NoTags(pairs)
    requires View(s) == [Ok(TagPair(name, offset))] + Oks(pairs)
    ensures Read(cat, s).0 == Err(UnexpectedEndOfInput)
  {
    ReadAtTag(cat, s, name, offset, Oks(pairs));
    var s1 := Next(s).1;
    SwallowClaimsAll(pairs);
    ReadFieldsTruncated(cat, SwallowSteps(), (), DefaultCommon(), s1, pairs);
  }

  /** An unsupported entity is swallowed up to the next tag, and the same
      call goes on to read from that tag as if the entity had not been
      there. */
  lemma UnknownEntityIsSwallowed(cat: Catalogue, s: Stream, name: string, offset: nat,
                                 pairs: seq<CodePair>, tag: CodePair, tail: seq<Item>)
    requires cat.Valid()
    requires !EndsSection(name) && name != "DIMENSION" && cat.fromTypeString(name).None?
    requires NoTags(pairs) && tag.code == 0
    requires View(s) == [Ok(TagPair(name, offset))] + Oks(pairs) + [Ok(tag)] + tail
    ensures exists s2 :: View(s2) == [Ok(tag)] + tail && Read(cat, s) == Read(cat, s2)
  {
    ReadAtTag(cat, s, name, offset, Oks(pairs) + [Ok(tag)] + tail);
    var s1 := Next(s).1;
    SwallowClaimsAll(pairs);
    ReadFieldsFollowsRun(cat, SwallowSteps(), (), DefaultCommon(), s1, pairs, tag, tail);
    var s2 := ReadFields(cat, SwallowSteps(), (), DefaultCommon(), s1).1;
    assert View(s2) == [Ok(tag)] + tail;
  }

  /** Reading back what the shape writer emits after a DIMENSION tag gives
      that shape over the default base and default common fields, and stops
      in front of the next tag. */
  lemma DimensionShapeRoundTrip(cat: Catalogue, s: Stream, offset: nat, sh: Shape, version: AcadVersion,
                                tag: CodePair, tail: seq<Item>)
    requires cat.Valid() && tag.code == 0
    requires View(s) == [Ok(TagPair("DIMENSION", offset))] + Oks(ShapePairs(sh, version)) + [Ok(tag)] + tail
    ensures Read(cat, s).0 == Ok(Some(Entity(DefaultCommon(), Dimension(DimensionData(cat.defaultBase, sh)))))
    ensures View(Read(cat, s).1) == [Ok(tag)] + tail
  {
    var pre := Oks(ShapePairs(sh, version));
    var ent := Entity(DefaultCommon(), Dimension(DimensionData(cat.defaultBase, sh)));
    forall s1 | View(s1) == pre + [Ok(tag)] + tail
      ensures ReadDimension(cat, s1).0 == Ok(ent) && View(ReadDimension(cat, s1).1) == [Ok(tag)] + tail
    {
      ReadDimensionShape(cat, s1, sh, version, tag, tail);
    }
    DimensionReadBack(cat, s, offset, pre, tag, tail, ent);
  }

  /** After a DIMENSION tag, a successful DIMENSION loop is what `read`
      returns. */
  lemma ReadDimensionTag(cat: Catalogue, s: Stream, offset: nat, rest: seq<Item>)
    requires cat.Valid()
    requires View(s) == [Ok(TagPair("DIMENSION", offset))] + rest
    ensures View(Next(s).1) == rest
    ensures var d := ReadDimension(cat, Next(s).1);
      d.0.Ok? ==> Read(cat, s) == (Ok(Some(d.0.value)), d.1)
  {
    ReadAtTag(cat, s, "DIMENSION", offset, rest);
    ReadTaggedDimension(cat, Next(s).1);
  }

  /** When the DIMENSION loop reads `ent` from whatever follows the tag and
      stops at the next tag, `read` returns `ent` and stops there too. */
  lemma DimensionReadBack(cat: Catalogue, s: Stream, offset: nat, pre: seq<Item>, tag: CodePair,
                          tail: seq<Item>, ent: Entity)
    requires cat.Valid()
    requires View(s) == [Ok(TagPair("DIMENSION", offset))] + pre + [Ok(tag)] + tail
    requires forall s1 :: View(s1) == pre + [Ok(tag)] + tail ==>
      ReadDimension(cat, s1).0 == Ok(ent) && View(ReadDimension(cat, s1).1) == [Ok(tag)] + tail
    ensures Read(cat, s).0 == Ok(Some(ent))
    ensures View(Read(cat, s).1) == [Ok(tag)] + tail
  {
    var rest := pre + [Ok(tag)] + tail;
    assert View(s) == [Ok(TagPair("DIMENSION", offset))] + rest;
    ReadDimensionTag(cat, s, offset, rest);
  }

  /** The generic path: with a common-field reader that reads only the pair
      it is given, a known kind without a custom reader is the fold of the
      generated field table over its pairs, then consolidated by
      `post_parse`; reading stops in front of the next tag. */
  lemma GenericPathIsRunThenPostParse(cat: Catalogue, s: Stream, name: string, offset: nat, e: EntityType,
                                      pairs: seq<CodePair>, tag: CodePair, tail: seq<Item>)
    requires cat.Valid() && Transparent(cat)
    requires !EndsSection(name) && name != "DIMENSION" && cat.fromTypeString(name) == Some(e)
    requires !HasCustomReader(e)
    requires NoTags(pairs) && tag.code == 0
    requires View(s) == [Ok(TagPair(name, offset))] + Oks(pairs) + [Ok(tag)] + tail
    ensures var run := Run(GenericSteps(cat), e, pairs);
      && (Read(cat, s).0.Ok? <==> run.Ok?)
      && (run.Ok? ==> Read(cat, s).0.value.Some? && Read(cat, s).0.value.value.specific == PostParse(run.value)
                      && View(Read(cat, s).1) == [Ok(tag)] + tail)
      && (run.Err? ==> Read(cat, s).0 == Err(run.error))
  {
    ReadAtTag(cat, s, name, offset, Oks(pairs) + [Ok(tag)] + tail);
    var s1 := Next(s).1;
    ReadFieldsFollowsRun(cat, GenericSteps(cat), e, DefaultCommon(), s1, pairs, tag, tail);
  }

  /** End to end for LWPOLYLINE: with a common-field reader that reads only
      the pair it is given, a successful read has one vertex per code-10
      pair more than the catalogue's instance, and stops in front of the
      next tag, so the entity after it is read unaffected. */
  lemma LwPolylineVertexCount(cat: Catalogue, s: Stream, name: string, offset: nat, lw: LwPolylineData,
                              pairs: seq<CodePair>, tag: CodePair, tail: seq<Item>)
    requires cat.Valid() && Transparent(cat)
    requires !EndsSection(name) && name != "DIMENSION" && cat.fromTypeString(name) == Some(LwPolyline(lw))
    requires NoTags(pairs) && tag.code == 0
    requires View(s) == [Ok(TagPair(name, offset))] + Oks(pairs) + [Ok(tag)] + tail
    ensures var r := Read(cat, s);
      r.0.Ok? ==>
        && r.0.value.Some? && r.0.value.value.specific.LwPolyline?
        && |r.0.value.value.specific.lw.vertices| == |lw.vertices| + LwPolylineReader.CountCode(pairs, 10)
        && View(r.1) == [Ok(tag)] + tail
  {
    ReadAtTag(cat, s, name, offset, Oks(pairs) + [Ok(tag)] + tail);
    var s1 := Next(s).1;
    ReadTaggedKnown(cat, name, s1, LwPolyline(lw));
    ReadKnownLwPolyline(cat, lw, s1);
    LwPolylineReader.ReadVertexCount(cat, lw, s1, pairs, tag, tail);
  }
}
