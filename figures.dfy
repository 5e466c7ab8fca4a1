/** `draw` of the shapes built from line segments: `Line`, `Rectangle` and
    `Canvas` of app.py. */
module Figures {
  import opened Errors
  import opened Points
  import opened Grids
  import opened Lines
  import opened Shapes

  // ---------------------------------------------------------------------
  // Line

  /** What `Line.draw` promises: it raises naming Line exactly when the
      segment does not fit, else locks the segment's cells with 'x'. */
  ghost predicate LineDrawn(l: Line, g: Grid, r: Result<Grid>)
  {
    (r.Ok? <==> LineFits(g, l.start, l.end)) &&
    (r.Err? ==> r.error == OutOfCanvas(LineKind)) &&
    (r.Ok? ==> Stamped(g, r.value, LinePositions(l.start, l.end), Locked("x")))
  }

  /** `Line.draw`: the segment with the default symbol 'x'. */
  method LineDraw(l: Line, g: Grid) returns (r: Result<Grid>)
    ensures LineDrawn(l, g, r)
  {
    r := DrawLine(g, l.start, l.end, "x", "x", LineKind);
  }

  // ---------------------------------------------------------------------
  // Rectangle

  /** The index pairs of a list of segments, one segment after the other. */
  function SidesPositions(cs: seq<Line>): seq<Pos>
  {
    if cs == [] then [] else SidesPositions(cs[..|cs| - 1]) + LinePositions(cs[|cs| - 1].start, cs[|cs| - 1].end)
  }

  predicate SidesFit(g: Grid, cs: seq<Line>)
  {
    forall k | 0 <= k < |cs| :: LineFits(g, cs[k].start, cs[k].end)
  }

  /** Stamping one more side extends the stamp of the sides before it. */
  lemma SidesStep(g: Grid, m: Grid, h: Grid, cs: seq<Line>, k: int)
    requires 0 <= k < |cs|
    requires Stamped(g, m, SidesPositions(cs[..k]), Locked("x"))
    requires Stamped(m, h, LinePositions(cs[k].start, cs[k].end), Locked("x"))
    ensures Stamped(g, h, SidesPositions(cs[..k + 1]), Locked("x"))
    ensures SidesFit(g, cs[..k]) && LineFits(g, cs[k].start, cs[k].end) ==> SidesFit(g, cs[..k + 1])
  {
    if SidesFit(g, cs[..k]) {
      SidesFitAt(g, cs, k);
    }
    StampedAppend(g, m, h, SidesPositions(cs[..k]), LinePositions(cs[k].start, cs[k].end), Locked("x"));
    assert cs[..k + 1][..k] == cs[..k];
  }

  /** The sides up to k fit when those before k do and side k does. */
  lemma SidesFitAt(g: Grid, cs: seq<Line>, k: int)
    requires 0 <= k < |cs| && SidesFit(g, cs[..k])
    ensures SidesFit(g, cs[..k + 1]) <==> LineFits(g, cs[k].start, cs[k].end)
    ensures !LineFits(g, cs[k].start, cs[k].end) ==> !SidesFit(g, cs)
  {
    assert cs[..k + 1][k] == cs[k];
    assert forall m | 0 <= m < k :: cs[..k + 1][m] == cs[..k][m];
  }

  /** What `Rectangle.draw` promises: it raises naming Rectangle exactly
      when some side does not fit, else locks every cell of the sides and
      changes nothing else. */
  ghost predicate RectangleDrawn(cs: seq<Line>, g: Grid, r: Result<Grid>)
  {
    (r.Ok? <==> SidesFit(g, cs)) &&
    (r.Err? ==> r.error == OutOfCanvas(RectangleKind)) &&
    (r.Ok? ==> Stamped(g, r.value, SidesPositions(cs), Locked("x")))
  }

  /** `Rectangle.draw`: each side in turn with 'x'. */
  method RectangleDraw(cs: seq<Line>, g: Grid) returns (r: Result<Grid>)
    ensures RectangleDrawn(cs, g, r)
  {
    var matrix := g;
    var k := 0;
    StampedNothing(g, Locked("x"));
    assert cs[..0] == [];
    while k < |cs|
      invariant 0 <= k <= |cs|
      invariant SidesFit(g, cs[..k])
      invariant Stamped(g, matrix, SidesPositions(cs[..k]), Locked("x"))
    {
      var corner := cs[k];
      LineFitsSameShape(g, matrix, corner.start, corner.end);
      var next := DrawLine(matrix, corner.start, corner.end, "x", "x", RectangleKind);
      if next.Err? {
        SidesFitAt(g, cs, k);
        return Err(OutOfCanvas(RectangleKind));
      }
      SidesStep(g, matrix, next.value, cs, k);
      matrix := next.value;
      k := k + 1;
    }
    assert cs[..k] == cs;
    return Ok(matrix);
  }

  /** The outline of the box with corners (x1, y1) and (x2, y2). */
  predicate OnOutline(x1: int, y1: int, x2: int, y2: int, p: Pos)
  {
    ((p.row == y1 || p.row == y2) && x1 <= p.col <= x2) ||
    ((p.col == x1 || p.col == x2) && y1 <= p.row <= y2)
  }

  /** For x1 <= x2 and y1 <= y2 the four sides cover exactly the outline. */
  lemma BoxOutline(x1: int, y1: int, x2: int, y2: int, p: Pos)
    requires x1 <= x2 && y1 <= y2
    ensures p in SidesPositions(BoxSides(x1, y1, x2, y2)) <==> OnOutline(x1, y1, x2, y2, p)
  {
    var cs := BoxSides(x1, y1, x2, y2);
    assert cs[..3][..2][..1][..0] == [];
    assert cs[..3][..2][..1] == [cs[0]] && cs[..3][..2] == cs[..2] && cs[..3] == [cs[0], cs[1], cs[2]];
    assert SidesPositions([cs[0]]) == LinePositions(cs[0].start, cs[0].end);
    assert SidesPositions(cs[..2]) == SidesPositions([cs[0]]) + LinePositions(cs[1].start, cs[1].end);
    assert SidesPositions(cs[..3]) == SidesPositions(cs[..2]) + LinePositions(cs[2].start, cs[2].end);
    assert SidesPositions(cs) == SidesPositions(cs[..3]) + LinePositions(cs[3].start, cs[3].end);
    SegmentCells(cs[0].start, cs[0].end, p);
    SegmentCells(cs[1].start, cs[1].end, p);
    SegmentCells(cs[2].start, cs[2].end, p);
    SegmentCells(cs[3].start, cs[3].end, p);
  }

  /** What `Rectangle.draw` does to a box given corner first: every index pair
      of the outline reads 'x' locked, and a changed cell is one the outline
      designates. */
  lemma RectangleOutline(g: Grid, h: Grid, x1: int, y1: int, x2: int, y2: int)
    requires x1 <= x2 && y1 <= y2
    requires Stamped(g, h, SidesPositions(BoxSides(x1, y1, x2, y2)), Locked("x"))
    ensures forall p | OnOutline(x1, y1, x2, y2, p) :: InGrid(h, p) && CellAt(h, p) == Locked("x")
    ensures forall i, j | 0 <= i < |g| && 0 <= j < |g[i]| && h[i][j] != g[i][j] ::
              exists p :: OnOutline(x1, y1, x2, y2, p) && Resolves(g, p, i, j)
  {
    var ps := SidesPositions(BoxSides(x1, y1, x2, y2));
    forall p | OnOutline(x1, y1, x2, y2, p)
      ensures InGrid(h, p) && CellAt(h, p) == Locked("x")
    {
      BoxOutline(x1, y1, x2, y2, p);
      var k :| 0 <= k < |ps| && ps[k] == p;
      StampedCellAt(g, h, ps, Locked("x"), k);
    }
    forall i, j | 0 <= i < |g| && 0 <= j < |g[i]| && h[i][j] != g[i][j]
      ensures exists p :: OnOutline(x1, y1, x2, y2, p) && Resolves(g, p, i, j)
    {
      assert Hits(g, ps, i, j);
      var k :| 0 <= k < |ps| && Resolves(g, ps[k], i, j);
      BoxOutline(x1, y1, x2, y2, ps[k]);
    }
  }

  // ---------------------------------------------------------------------
  // Canvas

  /** `rows` rows of `cols` cells each. */
  predicate Dims(g: Grid, rows: int, cols: int)
  {
    |g| == rows && forall i | 0 <= i < |g| :: |g[i]| == cols
  }

  predicate AllCells(row: seq<Cell>, c: Cell)
  {
    forall j | 0 <= j < |row| :: row[j] == c
  }

  /** The framed canvas of interior width w and height h: rows 0 and h + 1
      all locked hs, columns 0 and w + 1 of rows 1..h locked vs, blank inside. */
  ghost predicate IsFrame(g: Grid, w: int, h: int, hs: string, vs: string)
  {
    w >= 0 && h >= 0 && Dims(g, h + 2, w + 2) &&
    AllCells(g[0], Locked(hs)) && AllCells(g[h + 1], Locked(hs)) &&
    (forall i | 1 <= i <= h :: g[i][0] == Locked(vs)) &&
    (forall i | 1 <= i <= h :: g[i][w + 1] == Locked(vs)) &&
    (forall i, j | 1 <= i <= h && 1 <= j <= w :: g[i][j] == Plain(" "))
  }

  /** A grid holds at most one frame of given size and symbols. */
  lemma FrameUnique(g1: Grid, g2: Grid, w: int, h: int, hs: string, vs: string)
    requires IsFrame(g1, w, h, hs, vs) && IsFrame(g2, w, h, hs, vs)
    ensures g1 == g2
  {
    forall i | 0 <= i < h + 2
      ensures g1[i] == g2[i]
    {
      forall j | 0 <= j < w + 2
        ensures g1[i][j] == g2[i][j]
      {
        if i == 0 || i == h + 1 {
          assert g1[i][j] == Locked(hs) == g2[i][j];
        } else if j == 0 {
          assert g1[i][0] == Locked(vs) == g2[i][0];
        } else if j == w + 1 {
          assert g1[i][w + 1] == Locked(vs) == g2[i][w + 1];
        } else {
          assert g1[i][j] == Plain(" ") == g2[i][j];
        }
      }
    }
  }

  /** The cell at (i, j) once the first k sides of the frame are drawn. */
  function FrameCell(w: int, h: int, hs: string, vs: string, k: int, i: int, j: int): Cell
  {
    if (i == 0 && k >= 1) || (i == h + 1 && k >= 3) then Locked(hs)
    else if 1 <= i <= h && ((j == w + 1 && k >= 2) || (j == 0 && k >= 4)) then Locked(vs)
    else Plain(" ")
  }

  ghost predicate FramedUpTo(g: Grid, w: int, h: int, hs: string, vs: string, k: int)
  {
    Dims(g, h + 2, w + 2) &&
    forall i, j | 0 <= i < h + 2 && 0 <= j < w + 2 :: g[i][j] == FrameCell(w, h, hs, vs, k, i, j)
  }

  /** Side k of the frame as it is drawn: the vertical sides are first
      shortened by one cell at each end. */
  function FrameSide(w: int, h: int, k: int): (Point, Point)
  {
    if k == 0 then (Point(0, 0), Point(w + 1, 0))
    else if k == 1 then (Point(w + 1, 1), Point(w + 1, h))
    else if k == 2 then (Point(0, h + 1), Point(w + 1, h + 1))
    else (Point(0, 1), Point(0, h))
  }

  /** Drawing side k onto the frame after k sides gives the frame after k + 1. */
  lemma FrameStep(g: Grid, g2: Grid, w: int, h: int, hs: string, vs: string, k: int)
    requires w >= 0 && h >= 0 && 0 <= k < 4
    requires FramedUpTo(g, w, h, hs, vs, k)
    ensures LineFits(g, FrameSide(w, h, k).0, FrameSide(w, h, k).1)
    ensures Stamped(g, g2, LinePositions(FrameSide(w, h, k).0, FrameSide(w, h, k).1),
                    LineCell(FrameSide(w, h, k).0, FrameSide(w, h, k).1, hs, vs))
            ==> FramedUpTo(g2, w, h, hs, vs, k + 1)
  {
    var (s, e) := FrameSide(w, h, k);
    var ps := LinePositions(s, e);
    forall m | 0 <= m < |ps|
      ensures ps[m].row >= 0 && ps[m].col >= 0 && InGrid(g, ps[m])
    {
      SegmentCells(s, e, ps[m]);
    }
    if Stamped(g, g2, ps, LineCell(s, e, hs, vs)) {
      forall i, j | 0 <= i < h + 2 && 0 <= j < w + 2
        ensures g2[i][j] == FrameCell(w, h, hs, vs, k + 1, i, j)
      {
        HitsNonNegative(g, ps, i, j);
        SegmentCells(s, e, Pos(i, j));
      }
    }
  }

  /** The segment the `Canvas.draw` loop draws for one side: a side whose
      ends differ in y is first shortened by one cell at each end. */
  function CanvasSide(c: Line): (Point, Point)
  {
    if c.start.y == c.end.y then (c.start, c.end)
    else (Point(c.start.x, c.start.y + 1), Point(c.end.x, c.end.y - 1))
  }

  /** One pass of the `Canvas.draw` loop: shorten the side if it is vertical
      (the stores go through the y descriptor), then draw it. */
  method CanvasDrawSide(corner: Line, g: Grid, hs: string, vs: string) returns (r: Result<Grid>)
    requires Valid(corner.start)
    ensures var (s, e) := CanvasSide(corner);
            r.Ok? <==> e.y >= -1 && LineFits(g, s, e)
    ensures var (s, e) := CanvasSide(corner);
            r.Ok? ==> Stamped(g, r.value, LinePositions(s, e), LineCell(s, e, hs, vs))
    ensures r.Err? ==> r.error == OutOfCanvas(CanvasKind) || (r.error == BelowMinimum && corner.end.y < 0)
  {
    var start, end := corner.start, corner.end;
    if start.y != end.y {
      var shortStart := SetY(start, start.y + 1);
      assert shortStart.Ok?;
      var shortEnd := SetY(end, end.y - 1);
      if shortEnd.Err? {
        return Err(shortEnd.error);
      }
      start, end := shortStart.value, shortEnd.value;
    }
    r := DrawLine(g, start, end, hs, vs, CanvasKind);
  }

  /** What `Canvas.draw` promises, whatever grid it is given: a
      (h + 2) x (w + 2) result, which for w, h >= 0 is the frame; a
      height of -2 raises naming Canvas, and so does every failure. */
  ghost predicate CanvasDrawn(w: int, h: int, hs: string, vs: string, r: Result<Grid>)
  {
    (r.Ok? ==> Dims(r.value, h + 2, w + 2)) &&
    (w >= 0 && h >= 0 ==> r.Ok? && IsFrame(r.value, w, h, hs, vs)) &&
    (h == -2 ==> r == Err(OutOfCanvas(CanvasKind))) &&
    (r.Err? ==> r.error == OutOfCanvas(CanvasKind))
  }

  /** `Canvas.draw`: ignores the grid it is given and draws the frame on a
      fresh (height + 2) x (width + 2) blank grid. */
  method CanvasDraw(s: Shape, g: Grid) returns (r: Result<Grid>)
    requires s.CanvasShape? && WellFormed(s)
    ensures CanvasDrawn(s.width, s.height, s.hBorder, s.vBorder, r)
  {
    var w, h := s.width, s.height;
    var matrix := seq(h + 2, _ => seq(w + 2, _ => Plain(" ")));
    var k := 0;
    while k < |s.corners|
      invariant 0 <= k <= 4
      invariant Dims(matrix, h + 2, w + 2)
      invariant h == -2 ==> k == 0
      invariant w >= 0 && h >= 0 ==> FramedUpTo(matrix, w, h, s.hBorder, s.vBorder, k)
    {
      var corner := s.corners[k];
      ghost var (start, end) := CanvasSide(corner);
      assert corner.end.y == if k == 0 then 0 else h + 1;
      if w >= 0 && h >= 0 {
        assert (start, end) == FrameSide(w, h, k);
        FrameStep(matrix, matrix, w, h, s.hBorder, s.vBorder, k);
      }
      if h == -2 {
        // the top side on a grid without rows
        assert start == Point(0, 0) && end.y == 0 && |matrix| == 0;
        assert end.x == 0 ==> LinePositions(start, end)[0] == Pos(0, 0);
      }
      var next := CanvasDrawSide(corner, matrix, s.hBorder, s.vBorder);
      if next.Err? {
        return next;
      }
      if w >= 0 && h >= 0 {
        FrameStep(matrix, next.value, w, h, s.hBorder, s.vBorder, k);
      }
      matrix := next.value;
      k := k + 1;
    }
    return Ok(matrix);
  }
}
