/**
 The child lists of INSERT and POLYLINE: each owned attribute or vertex is
 stored with the handle it was given when it was added. The handle comes
 from the drawing's allocator, which is an input here.
 */
module Children {
  import opened CodePairs
  import opened Entities

  /** `Insert::attributes`: the attributes, in the order they were added. */
  function Attributes(ins: InsertData): (r: seq<AttributeFields>)
    ensures |r| == |ins.attributes|
    ensures forall i :: 0 <= i < |r| ==> r[i] == ins.attributes[i].0
  {
    seq(|ins.attributes|, i requires 0 <= i < |ins.attributes| => ins.attributes[i].0)
  }

  /** `Insert::add_attribute`: append the attribute with its handle. */
  function AddAttribute(ins: InsertData, att: AttributeFields, handle: Handle): (r: InsertData)
    ensures |r.attributes| == |ins.attributes| + 1
    ensures r.attributes[..|ins.attributes|] == ins.attributes
    ensures r.attributes[|ins.attributes|] == (att, handle)
    ensures r.generated == ins.generated
  {
    ins.(attributes := ins.attributes + [(att, handle)])
  }

  /** `Polyline::vertices`: the vertices, in the order they were added. */
  function Vertices(poly: PolylineData): (r: seq<VertexData>)
    ensures |r| == |poly.vertices|
    ensures forall i :: 0 <= i < |r| ==> r[i] == poly.vertices[i].0
  {
    seq(|poly.vertices|, i requires 0 <= i < |poly.vertices| => poly.vertices[i].0)
  }

  /** `Polyline::add_vertex`: append the vertex with its handle. */
  function AddVertex(poly: PolylineData, v: VertexData, handle: Handle): (r: PolylineData)
    ensures |r.vertices| == |poly.vertices| + 1
    ensures r.vertices[..|poly.vertices|] == poly.vertices
    ensures r.vertices[|poly.vertices|] == (v, handle)
    ensures r.(vertices := poly.vertices) == poly
  {
    poly.(vertices := poly.vertices + [(v, handle)])
  }

  /** What the accessor shows after an addition is what it showed before,
      followed by the new attribute. */
  lemma AddAttributeThenAttributes(ins: InsertData, att: AttributeFields, handle: Handle)
    ensures Attributes(AddAttribute(ins, att, handle)) == Attributes(ins) + [att]
  {
    var after := Attributes(AddAttribute(ins, att, handle));
    assert after[..|ins.attributes|] == Attributes(ins);
  }

  /** What the accessor shows after an addition is what it showed before,
      followed by the new vertex. */
  lemma AddVertexThenVertices(poly: PolylineData, v: VertexData, handle: Handle)
    ensures Vertices(AddVertex(poly, v, handle)) == Vertices(poly) + [v]
  {
    var after := Vertices(AddVertex(poly, v, handle));
    assert after[..|poly.vertices|] == Vertices(poly);
  }

  /** Adding a run of attributes one at a time, in order. */
  function AddAttributes(ins: InsertData, atts: seq<(AttributeFields, Handle)>): (r: InsertData)
    decreases |atts|
  {
    if atts == [] then ins
    else AddAttributes(AddAttribute(ins, atts[0].0, atts[0].1), atts[1..])
  }

  /** Adding attributes one by one appends the list after the existing
      attributes, in order, with their handles. */
  lemma {:induction false} AddAttributesInOrder(ins: InsertData, atts: seq<(AttributeFields, Handle)>)
    ensures AddAttributes(ins, atts).attributes == ins.attributes + atts
    decreases |atts|
  {
    if atts == [] {
      assert ins.attributes + atts == ins.attributes;
    } else {
      var next := AddAttribute(ins, atts[0].0, atts[0].1);
      AddAttributesInOrder(next, atts[1..]);
      assert next.attributes + atts[1..] == ins.attributes + atts;
    }
  }
}
