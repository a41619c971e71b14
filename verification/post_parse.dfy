/**
 `post_parse`: after the generic reader has filled the parallel coordinate
 lists of a kind, they are consolidated into points. Two-list kinds produce
 points with z = 0. The lists are emptied, so consolidating again adds
 nothing.
 */
module PointLists {
  import opened CodePairs
  import opened Entities

  function Min(a: nat, b: nat): nat { if a <= b then a else b }

  /** The points of two parallel lists, pairwise, up to the shorter one,
      each with z = 0. */
  function Zip2(xs: seq<F64>, ys: seq<F64>): (r: seq<Point>)
    ensures |r| == Min(|xs|, |ys|)
    ensures forall i :: 0 <= i < |r| ==> r[i] == Point(xs[i], ys[i], Zero())
  {
    if xs == [] || ys == [] then [] else [Point(xs[0], ys[0], Zero())] + Zip2(xs[1..], ys[1..])
  }

  /** The points of three parallel lists, up to the shortest one. */
  function Zip3(xs: seq<F64>, ys: seq<F64>, zs: seq<F64>): (r: seq<Point>)
    ensures |r| == Min(Min(|xs|, |ys|), |zs|)
    ensures forall i :: 0 <= i < |r| ==> r[i] == Point(xs[i], ys[i], zs[i])
  {
    if xs == [] || ys == [] || zs == [] then []
    else [Point(xs[0], ys[0], zs[0])] + Zip3(xs[1..], ys[1..], zs[1..])
  }

  /** `combine_points_2`: append the zipped points and empty the lists. */
  function Combine2(c: Coords2): (r: Coords2)
    ensures r.xs == [] && r.ys == []
    ensures |r.points| == |c.points| + Min(|c.xs|, |c.ys|)
    ensures r.points[..|c.points|] == c.points
    ensures forall i :: 0 <= i < Min(|c.xs|, |c.ys|) ==>
      r.points[|c.points| + i] == Point(c.xs[i], c.ys[i], Zero())
  {
    Coords2([], [], c.points + Zip2(c.xs, c.ys))
  }

  /** `combine_points_3`: append the zipped points and empty the lists. */
  function Combine3(c: Coords3): (r: Coords3)
    ensures r.xs == [] && r.ys == [] && r.zs == []
    ensures |r.points| == |c.points| + Min(Min(|c.xs|, |c.ys|), |c.zs|)
    ensures r.points[..|c.points|] == c.points
    ensures forall i :: 0 <= i < Min(Min(|c.xs|, |c.ys|), |c.zs|) ==>
      r.points[|c.points| + i] == Point(c.xs[i], c.ys[i], c.zs[i])
  {
    Coords3([], [], [], c.points + Zip3(c.xs, c.ys, c.zs))
  }

  /** Whether the kind keeps parallel coordinate lists to consolidate. */
  predicate HasCoordinateLists(e: EntityType) {
    e.Image? || e.Leader? || e.MLine? || e.Section? || e.Spline? || e.Underlay? || e.Wipeout?
  }

  /** `Entity::post_parse` (it never fails). */
  function PostParse(e: EntityType): (r: EntityType)
    ensures !HasCoordinateLists(e) ==> r == e
  {
    match e
    case Image(clipping, g) => Image(Combine2(clipping), g)
    case Leader(vertices, g) => Leader(Combine3(vertices), g)
    case MLine(vertices, segments, miters, g) => MLine(Combine3(vertices), Combine3(segments), Combine3(miters), g)
    case Section(vertices, backLine, g) => Section(Combine3(vertices), Combine3(backLine), g)
    case Spline(control, fit, g) => Spline(Combine3(control), Combine3(fit), g)
    case Underlay(format, points, g) => Underlay(format, Combine2(points), g)
    case Wipeout(clipping, g) => Wipeout(Combine2(clipping), g)
    case _ => e
  }

  lemma Combine2Twice(c: Coords2)
    ensures Combine2(Combine2(c)) == Combine2(c)
  {
    var once := Combine2(c);
    assert Zip2(once.xs, once.ys) == [];
    assert once.points + [] == once.points;
  }

  lemma Combine3Twice(c: Coords3)
    ensures Combine3(Combine3(c)) == Combine3(c)
  {
    var once := Combine3(c);
    assert Zip3(once.xs, once.ys, once.zs) == [];
    assert once.points + [] == once.points;
  }

  /** Consolidating twice is consolidating once: the first pass empties
      every list the second one would read. */
  lemma PostParseIdempotent(e: EntityType)
    ensures PostParse(PostParse(e)) == PostParse(e)
  {
    match e
    case Image(c, g) => Combine2Twice(c);
    case Leader(c, g) => Combine3Twice(c);
    case MLine(a, b, c, g) => Combine3Twice(a); Combine3Twice(b); Combine3Twice(c);
    case Section(a, b, g) => Combine3Twice(a); Combine3Twice(b);
    case Spline(a, b, g) => Combine3Twice(a); Combine3Twice(b);
    case Underlay(f, c, g) => Combine2Twice(c);
    case Wipeout(c, g) => Combine2Twice(c);
    case _ =>
  }

  /** An image whose clipping lists hold equally many coordinates gains one
      point per coordinate pair, in order, each at z = 0, after the points it
      already had. */
  lemma ImageClippingVertices(xs: seq<F64>, ys: seq<F64>, points: seq<Point>, g: Fields)
    requires |xs| == |ys|
    ensures var r := PostParse(Image(Coords2(xs, ys, points), g));
      && r.Image?
      && r.clipping.points == points + seq(|xs|, i requires 0 <= i < |xs| => Point(xs[i], ys[i], Zero()))
      && r.clipping.xs == [] && r.clipping.ys == []
  {
    var zipped := seq(|xs|, i requires 0 <= i < |xs| => Point(xs[i], ys[i], Zero()));
    assert Zip2(xs, ys) == zipped;
  }
}
