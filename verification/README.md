# dxf-rs entity engine, modelled in Dafny

This project models the record-level engine that reads and writes the
entities of an AutoCAD DXF file in the `dxf` crate. A DXF file is a stream of
code pairs: an integer group code and a typed value. The model covers these
parts.

- **The lookahead stream** (`CodePairPutBack`). It is a stack of pushed-back
  items over the tokenizer's items. `next` pops the stack. With an empty
  stack it pulls the next item that is not a code-999 comment. Module
  `CodePairPutBack`.
- **The entity decoder** (`Entity::read`). It handles:
  - the leading code-0 tag, and the `ENDSEC`/`ENDBLK` push-back;
  - the DIMENSION loop, whose shape changes when a code-100 marker arrives;
  - the generic loop followed by `post_parse`;
  - the four custom readers (ATTRIB, ATTDEF, LWPOLYLINE, MTEXT);
  - the swallow loop for unsupported kinds.

  Every loop is one generic field loop, `FieldLoop.ReadFields`. It reads up to
  the next code-0 tag and pushes that tag back. Each pair goes first to a
  kind-specific step; common-field reading gets the pairs the step does not
  claim. `FieldLoop.Run` is its reference semantics: a plain fold of the step
  over a list of pairs. Modules: `FieldLoop`, `Dimensions`, `AttributeReader`,
  `LwPolylineReader`, `MTextReader`, `PointLists`, `Decoder`.
- **The encoder** (`Entity::write`). It applies the version gate, then writes
  the tag, the common fields, the custom or generated fields, the owned
  entities (`post_write`) and the x-data. The custom POLYLINE and VERTEX
  writers each get a reference layout: which codes they write under which
  version and field values. The dimension writers emit the markers the reader
  switches on. Module `Encoder`.
- **Child lists.** `Insert::add_attribute` and `Polyline::add_vertex` append a
  child with its handle, and the list accessors return the children. Module
  `Children`.
- **`ProxyEntity`'s packed version word.** Its accessors are modelled as
  written and as the lower-word/upper-word layout requires. Module
  `ProxyAccessors`.

The crate's generated code is given to the model as one record of function
values, `Catalogues.Catalogue`. This code includes:

- type-name lookup;
- per-kind field tables;
- the common-field reader and writer;
- enumeration tables;
- default instances.

Every statement therefore holds for any catalogue that meets `Valid`. That
predicate says two things:

- common-field reading returns a suffix of the stream, because it may read
  further pairs for extension groups and x-data;
- each default dimension shape is of its own kind.

Some end-to-end lemmas also assume the following:

- `Transparent`: common-field reading takes only the pair it is given;
- `Quiet`: the field writers never write a code-0 pair.

Floats are opaque values (`CodePairs.F64`). Integers are unbounded, and every
Rust cast that wraps or saturates is written out.

## Model

| member | source | states |
|---|---|---|
| CodePairPutBack.FromCodePairIter | src/code_pair_put_back.rs:11-13 | a fresh stream has an empty stack, and what it will hand out is the underlying items without comments |
| CodePairPutBack.PutBack | src/code_pair_put_back.rs:14-16 | a pushed item becomes the very next item of the stream, ahead of everything it held before; the underlying iterator is untouched |
| CodePairPutBack.NextUnderlying | src/code_pair_put_back.rs:26-33 | the pull from the underlying iterator returns the first item that is not a comment (an error item included), consumes only the comments before it, and returns `None` only when nothing but comments is left |
| CodePairPutBack.Next | src/code_pair_put_back.rs:25-37 | `next` returns the first item the stream holds and leaves the rest in order; it returns `None` exactly when the stream holds nothing; with a non-empty stack the underlying iterator does not move |
| CodePairPutBack.PutBackThenNext | src/code_pair_put_back.rs:14-35 | after `put_back(x)`, `next` returns exactly `x` and the stream is back in its earlier state |
| CodePairPutBack.PutBackIsLifo | src/code_pair_put_back.rs:14-35 | after `put_back(a)` and then `put_back(b)`, two reads return `b` and then `a`, and the stream is back where it started |
| CodePairPutBack.StackShieldsUnderlying | src/code_pair_put_back.rs:34-35 | while the stack is non-empty, a read returns its top verbatim, even a comment or an error, and does not advance the underlying iterator |
| CodePairPutBack.EmptyStackSkipsOnlyComments | src/code_pair_put_back.rs:26-33 | with an empty stack, a read returns some underlying item k that is not a comment, every item before k is a comment, and the stream continues after k; `None` means every item left was a comment |
| CodePairPutBack.DrainIsView | src/code_pair_put_back.rs:25-37 | reading until `None` yields the stack from the top down, then the underlying items without comments |
| CodePairPutBack.FreshStreamStripsComments | src/code_pair_put_back.rs:11-33 | a fresh stream yields the underlying items with every code-999 pair removed and nothing else changed |
| CodePairs.WrapI16 | src/entity.rs:1461 | `x as i16` agrees with `x` modulo 2^16, and is `x` itself when `x` fits |
| CodePairs.F64ToI32 | src/entity.rs:1212 | `f as i32` truncates toward zero and saturates at the `i32` bounds |
| Dimensions.SetDimensionType | src/entity.rs:47-53 | `set_dimension_type` changes only the type and the three flags; a known low nibble yields a type below 16 |
| Dimensions.GetDimensionType | src/entity.rs:54-66 | for a type below 16, the packed value is the type plus 32, 64 and 128 for the three flags that are set |
| Dimensions.SetThenGetKeepsBits | src/entity.rs:47-66 | when the value's low nibble names a known dimension type, setting and then getting keeps exactly that nibble and bits 32, 64 and 128 of the value |
| Dimensions.DimensionTypeRoundTrip | src/entity.rs:47-66 | a value whose low nibble names a dimension type, and whose only other bits are 32, 64 or 128, comes back unchanged |
| Dimensions.GetThenSetIsIdentity | src/entity.rs:47-66 | storing the packed value of a base with a known type reproduces that base |
| Dimensions.ApplyBaseCodePair | src/entity.rs:67-134 | a code outside the base table is left unclaimed; a base code is claimed exactly when its payload has the expected type, and is otherwise a type error at the pair's offset |
| Dimensions.BasePairKeepsOtherFields | src/entity.rs:67-134 | reading one base pair leaves every other base field as it was |
| Dimensions.BasePairSetsItsField | src/entity.rs:67-134 | reading one well-typed base pair sets the field its code names to the pair's payload; for an enumeration code, when the payload is a known member; for code 70, when the packed type round-trips |
| Dimensions.StoreShapeField | src/entity.rs:306-441 | a shape code stores its payload in the field it names, keeps every other shape field and keeps the shape's kind |
| Dimensions.ApplyDimensionData | src/entity.rs:306-443 | shape codes of the active shape are claimed by the shape, and all other codes go to the shared base; a claim never changes the shape's kind |
| Dimensions.ApplyDimensionCodePair | src/entity.rs:305-450 | on an entity that is not a dimension the result is `UnexpectedEnumValue` at the pair's offset; on a dimension the shape, then the base, decide |
| Dimensions.SwitchShape | src/entity.rs:505-557 | a recognised marker makes the shape one of that marker's kind and keeps the base read so far; an unrecognised marker changes nothing |
| Dimensions.DimensionStep | src/entity.rs:504-562 | code 100 always belongs to the loop and fails only when it is not a string; every other code is dispatched to the dimension's fields |
| Dimensions.ReadDimension | src/entity.rs:493-571 | the DIMENSION loop returns a suffix of the stream, and on success a dimension with the next tag unread; a tag straight away gives the initial rotated dimension; input that has run out is `UnexpectedEndOfInput` |
| Dimensions.RunMarker | src/entity.rs:505-557 | a marker pair is claimed by the loop and switches the shape as `SwitchShape` says |
| Dimensions.ShapeRoundTrip | src/entity.rs:1333-1434 | folding the DIMENSION loop's step over what a shape writer emits claims every pair and yields that shape over the base already read; the fold may start from any shape when the written one is not rotated, and from a rotated one otherwise |
| Dimensions.WriterMarkersMatchReader | src/entity.rs:1333-1434 | each non-rotated writer opens with the marker the reader maps to its kind; the rotated writer's markers, present exactly from R13 on, switch nothing |
| Dimensions.ReadDimensionShape | src/entity.rs:493-571 | the DIMENSION loop over a written shape followed by a tag returns that shape over the default base, and leaves the tag next |
| FieldLoop.ReadFields | src/entity.rs:577-592 | the loop returns a suffix of the stream; on success the next item is a tag; end of input is `UnexpectedEndOfInput`; an error item is passed on; a leading tag is left unread |
| FieldLoop.ReadFieldsFollowsRun | src/entity.rs:577-592 | over an entity's pairs followed by a tag, the loop succeeds exactly when the fold of its step succeeds, returns the fold's state, fails with the fold's error, and stops in front of the tag; this holds when common-field reading takes only the pair it is given, or when the step claims every pair |
| FieldLoop.ReadFieldsTruncated | src/entity.rs:577-592 | input that ends before any tag fails with the step's own error if there is one, and with `UnexpectedEndOfInput` otherwise (under the same condition on common-field reading) |
| FieldLoop.RunAppend | src/entity.rs:577-592 | folding over two runs of pairs is folding over the first, then over the second from where the first stopped |
| AttributeReader.AttributeStep | src/entity.rs:772-922 | it leaves a pair unclaimed exactly when its code is not one of the reader's codes; a fourth code 70 after `AcDbXrecord` is `UnexpectedCodePair` with an empty message; code 100 records the marker; code 340 appends the handle `as_handle` gives, or fails with its error; every other failure is a type error at the pair's offset |
| AttributeReader.ReadAttribute | src/entity.rs:772-1076 | the ATTRIB and ATTDEF readers return a suffix of the stream and on success stop in front of a tag |
| AttributeReader.StepSetsText | src/entity.rs:787-802 | a text pair lands in the field its code names in the current context; every other text field, including the one code 2 names in the other context, and every non-text field keep their values, and so does the context |
| AttributeReader.StepSetsShort | src/entity.rs:872-893 | codes 71 to 74 succeed exactly on a 16-bit payload, otherwise `WrongValueType` at the offset; they set text generation flags, horizontal justification (through its enumeration), field length or vertical justification (through its enumeration) whatever the context, and nothing else changes |
| AttributeReader.StepSetsFloat | src/entity.rs:803-851 | a float pair lands in the field its code names in the current context; every other float field, including the ones codes 10/20/30 and 40 name in the other context, and every non-float field keep their values, and so do the prompt and the context |
| AttributeReader.XrecordRouting | src/entity.rs:793-845 | after `AcDbXrecord`, codes 2, 10/20/30 and 40 fill the x-record tag, the alignment point and the annotation scale and leave the attribute tag, location and height alone; under any other marker it is the other way round |
| AttributeReader.Code70 | src/entity.rs:852-871 | after `AcDbXrecord`, successive code-70 pairs fill the multi-line flag, the lock flag and the secondary-attribute count, each pair changing only its own field and the count of pairs seen, and a fourth one is an error; under any other marker, code 70 is the flags word and nothing else changes |
| AttributeReader.Code280 | src/entity.rs:903-913 | after `AcDbXrecord`, code 280 is the keep-duplicates flag; otherwise the first code 280 sets the version and later ones set the lock flag |
| AttributeReader.ThreeXrecord70s | src/entity.rs:852-871 | three code-70 pairs from a fresh count fill the three x-record fields in order |
| AttributeReader.XrecordSequence | src/entity.rs:786-871 | the marker and then three code-70 pairs succeed, and a fourth code 70 fails with `UnexpectedCodePair` and an empty message, whatever its payload |
| LwPolylineReader.LwPolylineStep | src/entity.rs:1084-1131 | code 10 appends a new vertex holding only x; a vertex code sets its own field of the last vertex, and that vertex's x and other fields and every earlier vertex stay as they were; with no vertex they are `UnexpectedEmptySet`; the polyline's own codes 39, 43, 70 and 210/220/230 succeed exactly on their payload type and set thickness, constant width, flags (widened to 32 bits) or one extrusion coordinate, with every other field and the vertex list kept; any other failure is `WrongValueType` at the pair's offset |
| LwPolylineReader.ReadLwPolyline | src/entity.rs:1077-1133 | the LWPOLYLINE reader returns a suffix of the stream and on success stops in front of a tag |
| LwPolylineReader.VertexCountIsStarts | src/entity.rs:1089-1108 | after a successful run, the vertex count grew by the number of code-10 pairs, and the earlier vertices changed only in the last one |
| LwPolylineReader.WellFormedSucceeds | src/entity.rs:1089-1108 | well-typed pairs in which no vertex code comes before the first code 10 always succeed |
| LwPolylineReader.ReadVertexCount | src/entity.rs:1077-1133 | over an entity's pairs followed by a tag, and with common-field reading that takes only the pair it is given, the reader succeeds exactly when the fold does; it then has one vertex more per code-10 pair and stops in front of the tag |
| MTextReader.StoreText | src/entity.rs:1174-1239 | code 3 appends a chunk of extended text; codes 1, 7 and 430 replace their fields; each of the four fields changes only for its own code, and no other field changes |
| MTextReader.Store50 | src/entity.rs:1207-1218 | only the rotation, the column count and the column heights can change; before column data code 50 sets the rotation; in column data the first such pair sets the column count (`as i32`) and marks it read, and each later one appends its value as a height; earlier heights are kept and at most one is added |
| MTextReader.MTextStep | src/entity.rs:1134-1272 | it leaves a pair unclaimed exactly when its code is not one of the reader's codes; errors are type errors at the pair's offset; code 75 starts column data; a text, float, 16-bit or 32-bit code succeeds exactly on its payload type and stores the value as `StoreText`, `StoreFloat`, `StoreShort` or `StoreInteger` states, with the column context kept |
| MTextReader.StoreFloat | src/entity.rs:1147-1267 | a float code sets the coordinate or field it names; every other float field and every non-float field keep their values |
| MTextReader.StoreShort | src/entity.rs:1162-1261 | codes 71, 72 and 73 store their enumerators, 63 and 76 the number, 78 and 79 a flag; each field changes only for its own code, and no other field changes |
| MTextReader.StoreInteger | src/entity.rs:1230-1248 | code 90 stores its enumerator, 420 and 441 the number; each field changes only for its own code, and no other field changes |
| MTextReader.ReadMText | src/entity.rs:1134-1272 | the MTEXT reader returns a suffix of the stream and on success stops in front of a tag |
| MTextReader.HeightsAccumulate | src/entity.rs:1207-1218 | once the column count has been read, code-50 pairs append column heights in order, with no cap, and change nothing else |
| MTextReader.RotationBeforeColumns | src/entity.rs:1207-1218 | before any column data, the last code-50 pair sets the rotation |
| MTextReader.ColumnSequence | src/entity.rs:1207-1252 | a rotation, a code 75, a count and then heights give that rotation, the column type, the saturated count and the heights in order |
| PointLists.Combine2 | src/entity.rs:643-650 | the parallel x/y lists become points appended after the existing ones, pairwise up to the shorter list, each with z = 0, and the lists are emptied |
| PointLists.Combine3 | src/entity.rs:651-659 | the parallel x/y/z lists become points appended after the existing ones, up to the shortest list, and the lists are emptied |
| PointLists.PostParse | src/entity.rs:641-751 | kinds without coordinate lists are unchanged |
| PointLists.PostParseIdempotent | src/entity.rs:641-751 | running `post_parse` twice is the same as running it once |
| PointLists.ImageClippingVertices | src/entity.rs:643-650 | an image whose x and y lists have equal length gains one point per coordinate pair, in order, at z = 0 |
| Decoder.ApplyCustomReader | src/entity.rs:752-771 | kinds without a custom reader report `false` and leave the stream untouched; for the four others a success reports `true` and stops in front of a tag |
| Decoder.GenericStep | src/entity.rs:628-640 | the step fails exactly when the generated field table does, with the same error; its "recognised" answer decides whether the pair is claimed, and a claimed pair leaves the entity the table produced |
| Decoder.ReadKnown | src/entity.rs:573-596 | reading a known kind, through its custom reader or through the generic loop, returns a suffix of the stream and on success stops in front of a tag |
| Decoder.Read | src/entity.rs:478-627 | `read` returns a suffix of the stream; on success the next item is a tag |
| Decoder.ReadRejects | src/entity.rs:617-624 | input that has run out is `UnexpectedEndOfInput`; an error item is passed on; a first pair that is not a tag is `UnexpectedCodePair` with the message "expected 0/entity-type or 0/ENDSEC" |
| Decoder.SectionEndIsPutBack | src/entity.rs:485-490 | on `ENDSEC` or `ENDBLK`, `read` returns `None` and that same tag is the next item read afterwards |
| Decoder.TruncatedUnknownEntity | src/entity.rs:598-612 | input that ends inside an unsupported entity is `UnexpectedEndOfInput` |
| Decoder.UnknownEntityIsSwallowed | src/entity.rs:598-612 | an unsupported entity is discarded up to the next tag, and the same call returns what `read` returns on the input from that tag on |
| Decoder.DimensionReadBack | src/entity.rs:482-571 | once the DIMENSION loop reads an entity from what follows a DIMENSION tag and stops at the next tag, `read` returns that entity and stops there too |
| Decoder.DimensionShapeRoundTrip | src/entity.rs:493-571 | a DIMENSION tag followed by what a shape writer emits reads back as that shape over the default base, stopping in front of the next tag |
| Decoder.GenericPathIsRunThenPostParse | src/entity.rs:573-596 | a known kind without a custom reader reads as the fold of the generated field table followed by `post_parse`, and stops in front of the next tag |
| Decoder.LwPolylineVertexCount | src/entity.rs:1077-1133 | read end to end, an LWPOLYLINE that is read successfully has gained one vertex per code-10 pair, and the next tag is left unread |
| Children.Attributes | src/entity.rs:161-163 | the accessor lists the stored attributes in order |
| Children.AddAttribute | src/entity.rs:167-170 | the attribute and its handle are appended after the existing ones, and nothing else changes |
| Children.Vertices | src/entity.rs:217-219 | the accessor lists the stored vertices in order |
| Children.AddVertex | src/entity.rs:223-226 | the vertex and its handle are appended after the existing ones, and nothing else changes |
| Children.AddAttributeThenAttributes | src/entity.rs:161-170 | after an addition, the accessor shows the old attributes and then the new one |
| Children.AddVertexThenVertices | src/entity.rs:217-226 | after an addition, the accessor shows the old vertices and then the new one |
| Children.AddAttributesInOrder | src/entity.rs:167-170 | adding attributes one by one appends the list after the existing attributes, in order, with their handles |
| Encoder.InheritFlags | src/entity.rs:1588-1590 | the written vertex's two 3D flags are the polyline's, and every other field, every flag bit below 32 and every flag bit from 128 up is the vertex's own |
| Encoder.ApplyCustomWriter | src/entity.rs:1298-1332 | a custom writer exists exactly for the dimensions, POLYLINE and VERTEX |
| Encoder.PolylineLayout | src/entity.rs:1435-1496 | the POLYLINE writer opens with the 3D marker exactly when a 3D flag is set, and writes a code exactly when the reference layout says so: 66 only up to R13, the location only from R12, every other field only when it is not its default |
| Encoder.VertexLayout | src/entity.rs:1497-1556 | the VERTEX writer opens with the two markers (3D exactly when a 3D flag is set), and writes a code exactly when the reference layout says so: mesh indices only from R13 and when non-zero, the identifier only from R2010 |
| Encoder.MeshIndexLayout | src/entity.rs:1526-1551 | each polyface mesh index is written exactly when it is non-zero |
| Encoder.VertexMarkerFollowsPolyline | src/entity.rs:1586-1598 | a vertex written by its polyline names itself 3D exactly when the polyline does, whatever flags it was stored with |
| Encoder.AttributeMText | src/entity.rs:1607-1630 | the attribute's MText is owned by the attribute's handle, has an empty handle, shares the attribute's layer and space, and carries no x-data |
| Encoder.Write | src/entity.rs:1274-1297 | an entity the version does not support writes nothing; otherwise the first pair is its code-0 type tag |
| Encoder.WriteFraming | src/entity.rs:1283-1293 | a supported entity writes its tag, then its common fields; what `post_write` writes comes right before the x-data, and the x-data is the very end of the output |
| Encoder.PostWriteEndsWithSeqend | src/entity.rs:1573-1601 | what an INSERT or POLYLINE owns is written with its SEQEND entity last, so only the owner's x-data follows the terminator |
| Encoder.WriteTags | src/entity.rs:1274-1297 | of everything an entity writes, the only code-0 pairs are its own tag, first, and those of the entities it owns: common fields, own fields and x-data contain no tag |
| Encoder.OwnPairsQuiet | src/entity.rs:1285-1288 | the custom and generated field writers write no code-0 pair |
| Encoder.XDataQuiet | src/entity.rs:1292-1294 | the x-data written last contains no code-0 pair |
| Encoder.LeafTags | src/entity.rs:1274-1297 | an entity that owns nothing writes exactly its own tag, or nothing when the version does not support it |
| Encoder.AttributeChildTags | src/entity.rs:1566-1572 | an attribute written for its INSERT writes its tag and then its MText's, each only if the version supports it |
| Encoder.InsertTags | src/entity.rs:1573-1585 | an INSERT writes its tag, then its attributes in list order, each followed by its MText, then exactly one SEQEND |
| Encoder.PolylineTags | src/entity.rs:1586-1601 | a POLYLINE writes its tag, then its vertices in list order (with the polyline's 3D flags), then exactly one SEQEND |
| Encoder.WriteAttributesAppend | src/entity.rs:1574-1583 | writing two runs of attributes is writing the first and then the second |
| Encoder.WriteVerticesAppend | src/entity.rs:1587-1599 | writing two runs of vertices for the same polyline is writing the first and then the second |
| Encoder.AddAttributeWritesLast | src/entity.rs:1573-1585 | after `add_attribute`, an INSERT writes its old attributes as before, then the new one with its stored handle, and then the SEQEND |
| Encoder.AddVertexWritesLast | src/entity.rs:1586-1601 | after `add_vertex`, a POLYLINE writes its old vertices as before, then the new one with its stored handle, and then the SEQEND |
| ProxyAccessors.DrawingFormatVersion | src/entity.rs:234-236 | the getter returns the lower 16 bits of the word |
| ProxyAccessors.SetDrawingFormatVersionAsWritten | src/entity.rs:237-239 | the setter as written leaves the upper word alone (it ORs into the lower word) |
| ProxyAccessors.MaintenanceVersionAsWritten | src/entity.rs:241-243 | the getter as written is the word read as `i32`, shifted right by 4 with sign extension |
| ProxyAccessors.SetMaintenanceVersionAsWritten | src/entity.rs:244-247 | the setter as written is guaranteed to keep only the word's lowest four bits |
| ProxyAccessors.DrawingFormatVersionAccumulates | src/entity.rs:237-239 | setting the drawing format version to 1 and then to 2 reads back 3 |
| ProxyAccessors.MaintenanceVersionOverlapsLowerWord | src/entity.rs:241-247 | setting maintenance version 1 on a zero word turns the drawing format version into 16, and drawing format version 16 reads back as maintenance version 1 |
| ProxyAccessors.SetDrawingFormatVersion | src/entity.rs:237-239 | corrected setter: the version, cut to 16 bits, becomes the lower word and the upper word is kept |
| ProxyAccessors.MaintenanceVersion | src/entity.rs:241-243 | corrected getter: the word read as `i32`, shifted right by 16 with sign extension, which lies in the `i16` range |
| ProxyAccessors.SetMaintenanceVersion | src/entity.rs:244-247 | corrected setter: the version, cut to 16 bits, becomes the upper word and the lower word is kept |
| ProxyAccessors.DrawingFormatVersionRoundTrip | src/entity.rs:233-239 | with the corrected setter, a version that fits the lower word reads back as set and the maintenance version is unchanged |
| ProxyAccessors.MaintenanceVersionRoundTrip | src/entity.rs:240-247 | with the corrected accessors, a version in the `i16` range reads back as set and the drawing format version is unchanged |

## Left out

- `src/object_iter.rs` is not part of this model. It only adapts `Object::read`, which is not part of this model either.
- `read_as_utf8` (src/code_pair_put_back.rs:17-19) is not modelled. It only switches the tokenizer's text encoding.
- The generated catalogue is a parameter and is not modelled. This covers `from_type_string`, `to_type_string`, `is_supported_on_version`, `try_apply_code_pair`, `EntityType::write`, `EntityCommon::apply_individual_pair`/`write`, `DimensionBase::write`, `XData::write`, the enumeration tables behind `enum_from_number!` and the default instances. The only demand on common-field reading is that it returns a suffix of the stream.
- The `next_pair!` macro is not part of this model. Custom readers use the same loop as the generic reader. They stop at the next code-0 tag and push it back, and end of input is `UnexpectedEndOfInput`.
- AttributeReader.AttributeStep: `CodePair::as_handle` is defined outside this file and is not part of this model. The catalogue supplies it as a parameter, `asHandle`. The step passes on its handle or its error unchanged.
- AttributeReader.AttributeStep: `as_bool` is defined outside this file. The model reads a flag as true exactly when its 16-bit value is 1. `MTextReader.MTextStep` uses the same reading for codes 78 and 79.
- MTextReader.StoreShort: code 63 goes through `Color::from_raw_value`; the model stores the raw 16-bit value, which is all a colour holds.
- LwPolylineReader.LwPolylineStep: `vec_last!` on an empty vertex list is modelled as the error `UnexpectedEmptySet`, not as a precondition. Common-field reading may consume any number of pairs, so no condition on the input can rule the case out statically. `LwPolylineReader.WellFormedSucceeds` shows that well-formed input never reaches it.
- `combine_points_2/3` is modelled from what `post_parse` needs. It zips up to the shortest list, appends after the existing points and empties the lists, with z = 0 for the two-list kinds.
- Floating point is not modelled: `f64` payloads are opaque values with no arithmetic.
- CodePairs.F64ToI32: the `as i32` cast at src/entity.rs:1212 saturates at the `i32` bounds; NaN, which Rust maps to 0, is not represented.
- The read-side grouping of INSERT/ATTRIB/SEQEND and POLYLINE/VERTEX, and the attachment of an ATTRIB's MText, are not modelled. They belong to the drawing driver, which is not part of this model.
- Handle allocation (`Drawing::next_handle`) is not modelled. The handle is an input to `Children.AddAttribute` and `Children.AddVertex`.
- I/O errors of the sink are not modelled: the writer's output is the sequence of pairs it writes.
- The `new` constructors (src/entity.rs:18-45, 140-159, 176-215, 253-304, 465-473), the mutable iterators `attributes_mut` and `vertices_mut` (164-166, 220-222) and `normalize` (455-464, 474-477) are not modelled. They only build or tidy values, and nothing in the model depends on them.
- Decoder.GenericStep: when `try_apply_code_pair` reports "not recognised", the model keeps the entity it was given. It does not take the copy the catalogue returns.
- Decoder.GenericPathIsRunThenPostParse: stated only for a catalogue whose common-field reading takes just the pair it is given (`Transparent`).
- Decoder.LwPolylineVertexCount: stated only for a catalogue whose common-field reading takes just the pair it is given (`Transparent`).
- Encoder.WriteTags and the tag-structure lemmas built on it hold only for catalogues whose field writers write no code-0 pair (`Quiet`).
- Encoder.InsertTags: handles reach the output only through the common-field writer, which is a parameter. `Encoder.AddAttributeWritesLast` states the handle through the entity that is written, not through its pairs.
- ProxyAccessors.SetMaintenanceVersionAsWritten: the final `u32` addition wraps, as in a release build. A debug build panics when it overflows, for example on version -1 with a non-zero lower word.

## Findings

| source | as written | input that shows it | evidently intended | confidence | as-written member | corrected member |
|---|---|---|---|---|---|---|
| src/entity.rs:238 | `set_object_drawing_format_version` ORs the version into the lower word, so bits of an earlier version survive | a zero word; set 1, then set 2; the getter returns 3 | the new version replaces the lower word, so the getter returns 2 | not executed | ProxyAccessors.DrawingFormatVersionAccumulates | ProxyAccessors.DrawingFormatVersionRoundTrip |
| src/entity.rs:242 | the upper-word getter shifts right by 4 and the setter shifts left by 4, so the two version numbers overlap in bits 4 to 15 | a zero word; set maintenance version 1; the drawing format version becomes 16 | a shift of 16, so the maintenance version occupies only the upper word | not executed | ProxyAccessors.MaintenanceVersionOverlapsLowerWord | ProxyAccessors.MaintenanceVersionRoundTrip |
