/**
  Custom-shaped pads (pcbnew/class_pad_custom_shape_functions.cpp): the
  list of basic shapes a pad is drawn from, its merge into one polygon set,
  and the move of that polygon set to the pad's board position. Polygon
  geometry (approximating arcs and circles, inflating, boolean union,
  fracturing, rotation) is handed in as functions.
*/
module PadCustomShape {
  import opened Common

  datatype Point = Point(x: int, y: int)

  function Add(a: Point, b: Point): Point
  {
    Point(a.x + b.x, a.y + b.y)
  }

  /** One closed outline of a polygon set. */
  type Outline = seq<Point>

  /** The kinds of drawing shapes (STROKE_T). */
  datatype ShapeKind = Segment | Rect | Arc | Circle | Polygon | Curve

  /** A basic shape of a custom pad (PAD_CS_PRIMITIVE). */
  datatype Primitive = Primitive(shape: ShapeKind, thickness: int, radius: int, start: Point, end: Point,
                                 arcAngle: int, poly: seq<Point>)

  /** A primitive of the given kind with every other field zero or empty. */
  function NewPrimitive(shape: ShapeKind): (p: Primitive)
    ensures p.shape == shape && p.poly == [] && p.thickness == 0
  {
    Primitive(shape, 0, 0, Point(0, 0), Point(0, 0), 0, [])
  }

  /** A drawing segment (DRAWSEGMENT), the target of ExportTo. */
  class DrawSegment {
    var shape: ShapeKind
    var width: int
    var start: Point
    var end: Point
    var angle: int
    var polyPoints: seq<Point>

    constructor ()
      ensures shape == Segment && width == 0 && start == Point(0, 0) && end == Point(0, 0)
      ensures angle == 0 && polyPoints == []
    {
      shape, width := Segment, 0;
      start, end := Point(0, 0), Point(0, 0);
      angle := 0;
      polyPoints := [];
    }
  }

  /**
    PAD_CS_PRIMITIVE::ExportTo: copies the primitive into a drawing segment.
    A circle keeps its radius in the segment as an end point that lies
    `radius` to the right of the centre; every other shape keeps its end.
  */
  method ExportTo(p: Primitive, target: DrawSegment)
    modifies target
    ensures target.shape == p.shape && target.width == p.thickness && target.start == p.start
    ensures target.angle == p.arcAngle && target.polyPoints == p.poly
    ensures p.shape == Circle ==> target.end == Point(p.start.x + p.radius, p.start.y)
    ensures p.shape != Circle ==> target.end == p.end
  {
    target.shape := p.shape;
    target.width := p.thickness;
    target.start := p.start;
    target.end := p.end;
    if p.shape == Circle {
      var end := p.start;
      end := end.(x := end.x + p.radius);
      target.end := end;
    }
    target.angle := p.arcAngle;
    target.polyPoints := p.poly;
  }

  /** The pad shapes; the anchor of a custom pad is a circle or a rectangle. */
  datatype PadShape = PadCircle | PadRect | PadOval | PadTrapezoid | PadRoundRect | PadCustom

  /**
    The polygon library, as the functions these rules call:
    TransformCircleToPolygon, TransformRingToPolygon,
    TransformRoundedEndsSegmentToPolygon, TransformArcToPolygon, the
    outline of a rectangle centred on the origin, Inflate, and BooleanAdd
    followed by Fracture. Each yields the outlines it produces.
  */
  datatype Geometry = Geometry(
    circle: (Point, int) -> seq<Outline>,
    ring: (Point, int, int) -> seq<Outline>,
    segment: (Point, Point, int) -> seq<Outline>,
    arc: (Point, Point, int, int) -> seq<Outline>,
    centredRect: Point -> Outline,
    inflate: (Outline, int) -> seq<Outline>,
    union: (seq<Outline>, seq<Outline>) -> seq<Outline>)

  /** Whether a primitive adds anything to the merged shape: polygons need
      at least two points, and rectangles and curves are not handled. */
  predicate Contributes(p: Primitive)
  {
    match p.shape
    case Segment => true
    case Arc => true
    case Circle => true
    case Polygon => |p.poly| >= 2
    case Rect => false
    case Curve => false
  }

  /** The outlines one primitive adds to the auxiliary polygon set. */
  function OutlinesOf(p: Primitive, geo: Geometry): (r: seq<Outline>)
    ensures !Contributes(p) ==> r == []
    ensures p.shape == Polygon && Contributes(p) && p.thickness == 0 ==> r == [p.poly]
    ensures p.shape == Polygon && Contributes(p) ==> |r| >= 1
    ensures p.shape == Polygon && Contributes(p) && p.thickness != 0 ==> r[0] == []
    ensures p.shape == Polygon && Contributes(p) && p.thickness != 0 ==>
              r == [[]] + geo.inflate(p.poly, HalfTruncated(p.thickness))
  {
    match p.shape
    case Segment => geo.segment(p.start, p.end, p.thickness)
    case Arc => geo.arc(p.start, p.end, p.arcAngle, p.thickness)
    case Circle =>
      if p.thickness != 0 then geo.ring(p.start, p.radius, p.thickness) else geo.circle(p.start, p.radius)
    case Polygon =>
      if |p.poly| < 2 then []
      else if p.thickness != 0 then [[]] + geo.inflate(p.poly, HalfTruncated(p.thickness))
      else [p.poly]
    case Rect => []
    case Curve => []
  }

  /** The auxiliary polygon set built from the primitives, in list order. */
  function AuxOutlines(shapes: seq<Primitive>, geo: Geometry): seq<Outline>
  {
    if shapes == [] then []
    else AuxOutlines(shapes[..|shapes| - 1], geo) + OutlinesOf(shapes[|shapes| - 1], geo)
  }

  /**
    One pass of MergePrimitivesAsPolygon's loop: appends the outlines of one
    basic shape to the auxiliary set. A polygon opens a new outline
    (NewOutline); a thick one is then inflated by half its thickness, a thin
    one is copied into the new outline point by point.
  */
  method AppendOutlines(aux: seq<Outline>, bshape: Primitive, geo: Geometry) returns (r: seq<Outline>)
    ensures r == aux + OutlinesOf(bshape, geo)
  {
    r := aux;
    match bshape.shape {
      case Segment =>
        r := r + geo.segment(bshape.start, bshape.end, bshape.thickness);
      case Arc =>
        r := r + geo.arc(bshape.start, bshape.end, bshape.arcAngle, bshape.thickness);
      case Circle =>
        if bshape.thickness != 0 {
          r := r + geo.ring(bshape.start, bshape.radius, bshape.thickness);
        } else {
          r := r + geo.circle(bshape.start, bshape.radius);
        }
      case Polygon =>
        if |bshape.poly| >= 2 {
          var poly := bshape.poly;
          r := r + [[]];
          if bshape.thickness != 0 {
            r := r + geo.inflate(poly, HalfTruncated(bshape.thickness));
          } else {
            var ii := 0;
            while ii < |poly|
              invariant 0 <= ii <= |poly|
              invariant r == aux + [poly[..ii]]
            {
              r := r[..|r| - 1] + [r[|r| - 1] + [poly[ii]]];
              assert poly[..ii + 1] == poly[..ii] + [poly[ii]];
              ii := ii + 1;
            }
            assert poly[..ii] == poly;
          }
        }
      case Rect =>
      case Curve =>
    }
  }

  /** The primitives that contribute, in list order: a primitive is kept
      exactly when it is in the list and the merge handles it. */
  function Contributing(shapes: seq<Primitive>): (r: seq<Primitive>)
    ensures |r| <= |shapes|
    ensures forall p :: p in r <==> p in shapes && Contributes(p)
  {
    if shapes == [] then []
    else
      var init := shapes[..|shapes| - 1];
      assert shapes == init + [shapes[|shapes| - 1]];
      Contributing(init) + (if Contributes(shapes[|shapes| - 1]) then [shapes[|shapes| - 1]] else [])
  }

  /** Filtering twice keeps the same primitives. */
  lemma {:induction false} ContributingIdempotent(shapes: seq<Primitive>)
    ensures Contributing(Contributing(shapes)) == Contributing(shapes)
  {
    if shapes != [] {
      var init := shapes[..|shapes| - 1];
      var last := shapes[|shapes| - 1];
      ContributingIdempotent(init);
      var c := Contributing(init);
      if Contributes(last) {
        var cl := c + [last];
        assert cl[..|cl| - 1] == c;
        assert Contributing(cl) == Contributing(c) + [last];
      } else {
        assert Contributing(shapes) == c;
      }
    }
  }

  /** The skipped primitives add nothing: the auxiliary set is built from
      the contributing primitives alone. */
  lemma {:induction false} AuxOutlinesOfContributing(shapes: seq<Primitive>, geo: Geometry)
    ensures AuxOutlines(Contributing(shapes), geo) == AuxOutlines(shapes, geo)
  {
    if shapes != [] {
      var init := shapes[..|shapes| - 1];
      var last := shapes[|shapes| - 1];
      AuxOutlinesOfContributing(init, geo);
      var c := Contributing(init);
      if Contributes(last) {
        var cl := c + [last];
        assert cl[..|cl| - 1] == c;
        assert AuxOutlines(cl, geo) == AuxOutlines(c, geo) + OutlinesOf(last, geo);
      } else {
        assert Contributing(shapes) == c;
        assert OutlinesOf(last, geo) == [];
        assert AuxOutlines(shapes, geo) == AuxOutlines(init, geo) + [];
      }
    }
  }

  /** Appending a primitive appends its outlines. */
  lemma AuxOutlinesAppend(shapes: seq<Primitive>, p: Primitive, geo: Geometry)
    ensures AuxOutlines(shapes + [p], geo) == AuxOutlines(shapes, geo) + OutlinesOf(p, geo)
  {
    assert (shapes + [p])[..|shapes|] == shapes;
  }

  /** The outlines of the anchor pad at the origin: a rectangle of the pad's
      size for a rectangular anchor, otherwise a circle of half its width. */
  function AnchorOutlines(anchor: PadShape, size: Point, geo: Geometry): seq<Outline>
  {
    if anchor == PadRect then [geo.centredRect(size)] else geo.circle(Point(0, 0), HalfTruncated(size.x))
  }

  /** The merged shape: the anchor, united with the auxiliary set when that
      set is not empty. */
  function MergedOutlines(anchor: PadShape, size: Point, shapes: seq<Primitive>, geo: Geometry): seq<Outline>
  {
    var aux := AuxOutlines(shapes, geo);
    if |aux| > 0 then geo.union(AnchorOutlines(anchor, size, geo), aux) else AnchorOutlines(anchor, size, geo)
  }

  /** A pad made only of skipped primitives is its anchor shape alone. */
  lemma {:induction false} OnlySkippedIsAnchor(anchor: PadShape, size: Point, shapes: seq<Primitive>, geo: Geometry)
    requires forall i :: 0 <= i < |shapes| ==> !Contributes(shapes[i])
    ensures MergedOutlines(anchor, size, shapes, geo) == AnchorOutlines(anchor, size, geo)
  {
    AuxOutlinesOfContributing(shapes, geo);
  }

  /** A pad with at least one well-formed polygon always has a non-empty
      auxiliary set (the polygon opens an outline of its own), so the anchor
      is always united with it. */
  lemma {:induction false} PolygonForcesUnion(anchor: PadShape, size: Point, shapes: seq<Primitive>, geo: Geometry, i: int)
    requires 0 <= i < |shapes| && shapes[i].shape == Polygon && |shapes[i].poly| >= 2
    ensures |AuxOutlines(shapes, geo)| > 0
    ensures MergedOutlines(anchor, size, shapes, geo)
            == geo.union(AnchorOutlines(anchor, size, geo), AuxOutlines(shapes, geo))
  {
    var init := shapes[..|shapes| - 1];
    if i < |shapes| - 1 {
      assert init[i] == shapes[i];
      PolygonForcesUnion(anchor, size, init, geo, i);
    } else {
      assert Contributes(shapes[i]);
    }
  }

  /** A polygon set (SHAPE_POLY_SET) as its list of outlines. */
  class PolySet {
    var outlines: seq<Outline>

    constructor ()
      ensures outlines == []
    {
      outlines := [];
    }
  }

  /** A point moved to the board: rotated with the pad, then shifted to the
      pad's position. */
  function ToBoard(p: Point, rotate: Point -> Point, position: Point): Point
  {
    Add(rotate(p), position)
  }

  function OutlineToBoard(o: Outline, rotate: Point -> Point, position: Point): (r: Outline)
    ensures |r| == |o|
    ensures forall i :: 0 <= i < |o| ==> r[i] == ToBoard(o[i], rotate, position)
  {
    seq(|o|, i requires 0 <= i < |o| => ToBoard(o[i], rotate, position))
  }

  /** Without rotation and at the origin, moving to the board changes nothing. */
  lemma OutlineToBoardIdentity(o: Outline, rotate: Point -> Point)
    requires forall p :: rotate(p) == p
    ensures OutlineToBoard(o, rotate, Point(0, 0)) == o
  {
  }

  /**
    CustomShapeAsPolygonToBoardPosition: every point of every outline,
    rewritten in place, is moved to the board. The number of outlines and
    the number of points of each outline stay the same; an empty set is
    left alone.
  */
  method CustomShapeAsPolygonToBoardPosition(merged: PolySet, position: Point, rotate: Point -> Point)
    modifies merged
    ensures |merged.outlines| == |old(merged.outlines)|
    ensures forall k :: 0 <= k < |merged.outlines| ==>
              merged.outlines[k] == OutlineToBoard(old(merged.outlines)[k], rotate, position)
  {
    if |merged.outlines| == 0 {
      return;
    }
    var cnt := 0;
    while cnt < |merged.outlines|
      invariant 0 <= cnt <= |merged.outlines| == |old(merged.outlines)|
      invariant forall k :: 0 <= k < cnt ==>
                  merged.outlines[k] == OutlineToBoard(old(merged.outlines)[k], rotate, position)
      invariant forall k :: cnt <= k < |merged.outlines| ==> merged.outlines[k] == old(merged.outlines)[k]
    {
      var ii := 0;
      while ii < |merged.outlines[cnt]|
        invariant |merged.outlines| == |old(merged.outlines)| && cnt < |merged.outlines|
        invariant 0 <= ii <= |merged.outlines[cnt]| == |old(merged.outlines)[cnt]|
        invariant forall k :: 0 <= k < cnt ==>
                    merged.outlines[k] == OutlineToBoard(old(merged.outlines)[k], rotate, position)
        invariant forall k :: cnt < k < |merged.outlines| ==> merged.outlines[k] == old(merged.outlines)[k]
        invariant forall j :: 0 <= j < ii ==>
                    merged.outlines[cnt][j] == ToBoard(old(merged.outlines)[cnt][j], rotate, position)
        invariant forall j :: ii <= j < |merged.outlines[cnt]| ==> merged.outlines[cnt][j] == old(merged.outlines)[cnt][j]
      {
        var corner := merged.outlines[cnt][ii];
        corner := rotate(corner);
        corner := Add(corner, position);
        merged.outlines := merged.outlines[cnt := merged.outlines[cnt][ii := corner]];
        ii := ii + 1;
      }
      cnt := cnt + 1;
    }
  }

  /** The custom-shape part of a pad (D_PAD). */
  class Pad {
    var basicShapes: seq<Primitive>
    const customShapeAsPolygon: PolySet
    var boundingRadius: int
    var anchorShape: PadShape
    var size: Point

    constructor (anchor: PadShape, aSize: Point)
      ensures basicShapes == [] && fresh(customShapeAsPolygon) && customShapeAsPolygon.outlines == []
      ensures anchorShape == anchor && size == aSize
    {
      basicShapes := [];
      customShapeAsPolygon := new PolySet();
      boundingRadius := 0;
      anchorShape := anchor;
      size := aSize;
    }

    /**
      MergePrimitivesAsPolygon: rebuilds the target (the pad's own polygon
      set when none is given) from scratch: the anchor, united with the
      outlines of the contributing primitives. The cached bounding radius is
      invalidated. The result says whether the pad is one copper area, that
      is, at most one outline.
    */
    method MergePrimitivesAsPolygon(target: PolySet?, geo: Geometry) returns (ok: bool)
      modifies this`boundingRadius, if target == null then customShapeAsPolygon else target
      ensures var t := if target == null then customShapeAsPolygon else target;
        && t.outlines == MergedOutlines(anchorShape, size, basicShapes, geo)
        && (ok <==> |t.outlines| <= 1)
      ensures boundingRadius == -1
    {
      var merged := if target == null then customShapeAsPolygon else target;
      merged.outlines := [];
      merged.outlines := merged.outlines + AnchorOutlines(anchorShape, size, geo);
      var aux: seq<Outline> := [];
      var cnt := 0;
      while cnt < |basicShapes|
        invariant 0 <= cnt <= |basicShapes|
        invariant aux == AuxOutlines(basicShapes[..cnt], geo)
        invariant merged.outlines == AnchorOutlines(anchorShape, size, geo)
      {
        assert basicShapes[..cnt + 1][..cnt] == basicShapes[..cnt];
        aux := AppendOutlines(aux, basicShapes[cnt], geo);
        cnt := cnt + 1;
      }
      assert basicShapes[..cnt] == basicShapes;
      if |aux| > 0 {
        merged.outlines := geo.union(merged.outlines, aux);
      }
      boundingRadius := -1;
      ok := |merged.outlines| <= 1;
    }

    /** AddPrimitive for a polygon: appends exactly one polygon primitive
        with these points and thickness, then re-merges the pad. */
    method AddPolygonPrimitive(poly: seq<Point>, thickness: int, geo: Geometry)
      modifies this`basicShapes, this`boundingRadius, customShapeAsPolygon
      ensures basicShapes == old(basicShapes) + [NewPrimitive(Polygon).(poly := poly, thickness := thickness)]
      ensures customShapeAsPolygon.outlines == MergedOutlines(anchorShape, size, basicShapes, geo)
      ensures boundingRadius == -1
    {
      var shape := NewPrimitive(Polygon);
      shape := shape.(poly := poly, thickness := thickness);
      basicShapes := basicShapes + [shape];
      var _ := MergePrimitivesAsPolygon(null, geo);
    }

    /** AddPrimitive for a segment from `start` to `end`. */
    method AddSegmentPrimitive(start: Point, end: Point, thickness: int, geo: Geometry)
      modifies this`basicShapes, this`boundingRadius, customShapeAsPolygon
      ensures basicShapes == old(basicShapes) + [NewPrimitive(Segment).(start := start, end := end, thickness := thickness)]
      ensures customShapeAsPolygon.outlines == MergedOutlines(anchorShape, size, basicShapes, geo)
      ensures boundingRadius == -1
    {
      var shape := NewPrimitive(Segment);
      shape := shape.(start := start, end := end, thickness := thickness);
      basicShapes := basicShapes + [shape];
      var _ := MergePrimitivesAsPolygon(null, geo);
    }

    /** AddPrimitive for an arc: the centre is kept as the start, the arc's
        starting point as the end. */
    method AddArcPrimitive(center: Point, start: Point, arcAngle: int, thickness: int, geo: Geometry)
      modifies this`basicShapes, this`boundingRadius, customShapeAsPolygon
      ensures basicShapes == old(basicShapes) +
                [NewPrimitive(Arc).(start := center, end := start, arcAngle := arcAngle, thickness := thickness)]
      ensures customShapeAsPolygon.outlines == MergedOutlines(anchorShape, size, basicShapes, geo)
      ensures boundingRadius == -1
    {
      var shape := NewPrimitive(Arc);
      shape := shape.(start := center, end := start, arcAngle := arcAngle, thickness := thickness);
      basicShapes := basicShapes + [shape];
      var _ := MergePrimitivesAsPolygon(null, geo);
    }

    /** AddPrimitive for a circle (a ring when the thickness is not zero). */
    method AddCirclePrimitive(center: Point, radius: int, thickness: int, geo: Geometry)
      modifies this`basicShapes, this`boundingRadius, customShapeAsPolygon
      ensures basicShapes == old(basicShapes) + [NewPrimitive(Circle).(start := center, radius := radius, thickness := thickness)]
      ensures customShapeAsPolygon.outlines == MergedOutlines(anchorShape, size, basicShapes, geo)
      ensures boundingRadius == -1
    {
      var shape := NewPrimitive(Circle);
      shape := shape.(start := center, radius := radius, thickness := thickness);
      basicShapes := basicShapes + [shape];
      var _ := MergePrimitivesAsPolygon(null, geo);
    }

    /** SetPrimitives: the list becomes exactly the given one (empty
        included) and the pad is re-merged; the result is the merge's. */
    method SetPrimitives(primitives: seq<Primitive>, geo: Geometry) returns (ok: bool)
      modifies this`basicShapes, this`boundingRadius, customShapeAsPolygon
      ensures basicShapes == primitives
      ensures customShapeAsPolygon.outlines == MergedOutlines(anchorShape, size, primitives, geo)
      ensures ok <==> |customShapeAsPolygon.outlines| <= 1
      ensures boundingRadius == -1
    {
      basicShapes := [];
      if |primitives| > 0 {
        basicShapes := primitives;
      }
      ok := MergePrimitivesAsPolygon(null, geo);
    }

    /** DeletePrimitivesList: no basic shapes and an empty merged polygon. */
    method DeletePrimitivesList()
      modifies this`basicShapes, customShapeAsPolygon
      ensures basicShapes == [] && customShapeAsPolygon.outlines == []
    {
      basicShapes := [];
      customShapeAsPolygon.outlines := [];
    }
  }
}
