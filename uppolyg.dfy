/** grx_user_draw_polygon_with_pixmap: map a polygon from user coordinates to
    context coordinates in scratch storage, hand it to the pixmap polygon
    filler, and release the scratch storage. */
module UserPolygon {

  datatype Point = Point(x: int, y: int)

  /** What the wrapper asks of its collaborators, in order. The line options
      and the pixmap are passed through untouched, so they are type parameters. */
  datatype Event<Options, Pixmap> =
    | SetupAlloc                                   // setup_ALLOC
    | Alloc(count: nat, ok: bool)                  // ALLOC of count points, and whether it succeeded
    | FillPolygon(n: int, points: seq<Point>, o: Options, p: Pixmap)  // grx_draw_polygon_with_pixmap
    | Free                                         // FREE of the scratch copy
    | ResetAlloc                                   // reset_ALLOC

  /** One point mapped to context coordinates: x by U2SX, y by U2SY. */
  function ToScreenPoint(pt: Point, u2sx: int -> int, u2sy: int -> int): Point {
    Point(u2sx(pt.x), u2sy(pt.y))
  }

  /** A polygon mapped to context coordinates, point by point, in the same order. */
  function ToScreen(pts: seq<Point>, u2sx: int -> int, u2sy: int -> int): (r: seq<Point>)
    ensures |r| == |pts|
    ensures forall i :: 0 <= i < |pts| ==> r[i] == ToScreenPoint(pts[i], u2sx, u2sy)
  {
    if pts == [] then [] else [ToScreenPoint(pts[0], u2sx, u2sy)] + ToScreen(pts[1..], u2sx, u2sy)
  }

  /** A polygon whose last point repeats its first stays so after the mapping;
      when the mapping separates points, one that does not repeat it stays open
      too, so the filler sees the same closing edge the caller gave. */
  lemma ToScreenKeepsClosure(pts: seq<Point>, u2sx: int -> int, u2sy: int -> int)
    requires |pts| > 0
    ensures var r := ToScreen(pts, u2sx, u2sy);
      pts[0] == pts[|pts| - 1] ==> r[0] == r[|r| - 1]
    ensures var r := ToScreen(pts, u2sx, u2sy);
      (forall a, b :: u2sx(a) == u2sx(b) ==> a == b) && (forall a, b :: u2sy(a) == u2sy(b) ==> a == b)
      ==> (r[0] == r[|r| - 1] <==> pts[0] == pts[|pts| - 1])
  {
    var r := ToScreen(pts, u2sx, u2sy);
    var n := |pts| - 1;
    assert r[0] == Point(u2sx(pts[0].x), u2sy(pts[0].y));
    assert r[n] == Point(u2sx(pts[n].x), u2sy(pts[n].y));
  }

  /** grx_user_draw_polygon_with_pixmap. The outcome of ALLOC is the parameter
      allocOk; U2SX and U2SY of the current context are u2sx and u2sy. The
      caller's points are only read. On success the filler is called once, with
      the count unchanged (no closing point is added), the mapped copy and the
      same options and pixmap, and the copy is freed after the filler returns;
      when ALLOC fails nothing is drawn. Both paths end with reset_ALLOC. */
  method UserDrawPolygonWithPixmap<Options, Pixmap>(
    numpts: nat, points: array<Point>, o: Options, p: Pixmap,
    u2sx: int -> int, u2sy: int -> int, allocOk: bool)
    returns (events: seq<Event<Options, Pixmap>>)
    requires numpts <= points.Length
    ensures allocOk ==>
      events == [SetupAlloc, Alloc(numpts, true),
                 FillPolygon(numpts, ToScreen(points[..numpts], u2sx, u2sy), o, p),
                 Free, ResetAlloc]
    ensures !allocOk ==> events == [SetupAlloc, Alloc(numpts, false), ResetAlloc]
    ensures unchanged(points)
  {
    events := [SetupAlloc, Alloc(numpts, allocOk)];
    if allocOk {
      var tmp := new Point[numpts];
      var pt := 0;
      while pt < numpts
        invariant 0 <= pt <= numpts
        invariant forall i :: 0 <= i < pt ==> tmp[i] == ToScreenPoint(points[i], u2sx, u2sy)
      {
        tmp[pt] := points[pt];
        tmp[pt] := tmp[pt].(x := u2sx(tmp[pt].x));
        tmp[pt] := tmp[pt].(y := u2sy(tmp[pt].y));
        pt := pt + 1;
      }
      assert tmp[..] == ToScreen(points[..numpts], u2sx, u2sy);
      events := events + [FillPolygon(numpts, tmp[..], o, p)];
      events := events + [Free];
    }
    events := events + [ResetAlloc];
  }
}
