/** `Shape.draw_line` of app.py: stamps an axis-aligned segment into the grid
    as locked cells. */
module Lines {
  import opened Errors
  import opened Points
  import opened Grids

  function Min(a: int, b: int): int { if a <= b then a else b }
  function Max(a: int, b: int): int { if a <= b then b else a }

  /** The index pairs `draw_line` assigns, in the order it assigns them:
      `range(start.y, end.y + 1)` down column start.x when the x's agree,
      else `range(min(start.x, end.x + 1), max(start.x, end.x + 1))` along row
      start.y when the y's agree, else none. */
  function LinePositions(start: Point, end: Point): seq<Pos>
  {
    if start.x == end.x then
      seq(Max(end.y + 1 - start.y, 0), k => Pos(start.y + k, start.x))
    else if start.y == end.y then
      var lo := Min(start.x, end.x + 1);
      seq(Max(start.x, end.x + 1) - lo, k => Pos(start.y, lo + k))
    else []
  }

  /** The cell written: a 1-tuple of the vertical symbol down a column, of
      the horizontal symbol along a row. */
  function LineCell(start: Point, end: Point, hsym: string, vsym: string): Cell
  {
    if start.x == end.x then Locked(vsym) else Locked(hsym)
  }

  /** `draw_line` raises no IndexError: the horizontal case fetches its row
      before the loop, so that row must exist even when no column is written. */
  predicate LineFits(g: Grid, start: Point, end: Point)
  {
    (start.x != end.x && start.y == end.y ==> RowInGrid(g, start.y)) &&
    forall k | 0 <= k < |LinePositions(start, end)| :: InGrid(g, LinePositions(start, end)[k])
  }

  /** The order in which `draw_line` assigns: a vertical segment stays in
      column start.x and goes one row down at a time, a horizontal one stays
      in row start.y and goes one column right at a time. */
  lemma LineOrder(start: Point, end: Point)
    ensures var ps := LinePositions(start, end);
            forall k | 0 <= k < |ps| :: if start.x == end.x then ps[k].col == start.x else ps[k].row == start.y
    ensures var ps := LinePositions(start, end);
            forall k | 0 <= k < |ps| - 1 ::
              ps[k + 1] == if start.x == end.x then Pos(ps[k].row + 1, ps[k].col) else Pos(ps[k].row, ps[k].col + 1)
  {
  }

  /** Which cells a segment covers: vertical segments are inclusive and empty
      when upside down; a horizontal segment written right to left covers only
      the columns strictly between its ends; a diagonal covers nothing. */
  lemma SegmentCells(start: Point, end: Point, p: Pos)
    ensures start.x == end.x ==>
              (p in LinePositions(start, end) <==> p.col == start.x && start.y <= p.row <= end.y)
    ensures start.x < end.x && start.y == end.y ==>
              (p in LinePositions(start, end) <==> p.row == start.y && start.x <= p.col <= end.x)
    ensures start.x > end.x && start.y == end.y ==>
              (p in LinePositions(start, end) <==> p.row == start.y && end.x < p.col < start.x)
    ensures start.x != end.x && start.y != end.y ==> LinePositions(start, end) == []
  {
    var ps := LinePositions(start, end);
    if start.x == end.x {
      if p.col == start.x && start.y <= p.row <= end.y {
        assert ps[p.row - start.y] == p;
      }
    } else if start.y == end.y {
      var lo := Min(start.x, end.x + 1);
      if p.row == start.y && lo <= p.col < Max(start.x, end.x + 1) {
        assert ps[p.col - lo] == p;
      }
    }
  }

  /** `draw_line`: either raises IndexError naming the shape `who`, exactly
      when some index it touches is outside the grid, or returns the grid with
      every cell of the segment locked and no other cell changed. */
  method DrawLine(g: Grid, start: Point, end: Point, hsym: string, vsym: string, who: ShapeKind)
    returns (r: Result<Grid>)
    ensures r.Ok? <==> LineFits(g, start, end)
    ensures r.Err? ==> r.error == OutOfCanvas(who)
    ensures r.Ok? ==> Stamped(g, r.value, LinePositions(start, end), LineCell(start, end, hsym, vsym))
    ensures start.x != end.x && start.y != end.y ==> r == Ok(g)
  {
    if start.x == end.x {
      r := DrawColumn(g, start, end, Locked(vsym), who);
    } else if start.y == end.y {
      r := DrawRow(g, start, end, Locked(hsym), who);
    } else {
      StampedNothing(g, LineCell(start, end, hsym, vsym));
      r := Ok(g);
    }
  }

  /** The vertical branch of `draw_line`: rows start.y to end.y of column
      start.x, top to bottom. */
  method DrawColumn(g: Grid, start: Point, end: Point, c: Cell, who: ShapeKind) returns (r: Result<Grid>)
    requires start.x == end.x
    ensures r.Ok? <==> LineFits(g, start, end)
    ensures r.Err? ==> r.error == OutOfCanvas(who)
    ensures r.Ok? ==> Stamped(g, r.value, LinePositions(start, end), c)
  {
    ghost var ps := LinePositions(start, end);
    var matrix := g;
    var position := start.y;
    while position < end.y + 1
      invariant start.y <= position && position - start.y <= |ps|
      invariant Stamped(g, matrix, ps[..position - start.y], c)
    {
      var p := Pos(position, start.x);
      assert p == ps[position - start.y];
      StampedNext(g, matrix, ps, position - start.y, c);
      if !InGrid(matrix, p) {
        return Err(OutOfCanvas(who));
      }
      matrix := SetCell(matrix, p, c);
      position := position + 1;
    }
    assert ps[..position - start.y] == ps;
    return Ok(matrix);
  }

  /** The horizontal branch of `draw_line`: the row is fetched first, then
      columns `min(start.x, end.x + 1)` up to `max(start.x, end.x + 1)`,
      left to right. */
  method DrawRow(g: Grid, start: Point, end: Point, c: Cell, who: ShapeKind) returns (r: Result<Grid>)
    requires start.x != end.x && start.y == end.y
    ensures r.Ok? <==> LineFits(g, start, end)
    ensures r.Err? ==> r.error == OutOfCanvas(who)
    ensures r.Ok? ==> Stamped(g, r.value, LinePositions(start, end), c)
  {
    ghost var ps := LinePositions(start, end);
    var matrix := g;
    if !RowInGrid(matrix, start.y) {
      return Err(OutOfCanvas(who));
    }
    var lo, hi := Min(start.x, end.x + 1), Max(start.x, end.x + 1);
    var position := lo;
    while position < hi
      invariant lo <= position <= hi
      invariant Stamped(g, matrix, ps[..position - lo], c)
    {
      var p := Pos(start.y, position);
      assert p == ps[position - lo];
      StampedNext(g, matrix, ps, position - lo, c);
      if !InGrid(matrix, p) {
        return Err(OutOfCanvas(who));
      }
      matrix := SetCell(matrix, p, c);
      position := position + 1;
    }
    assert ps[..position - lo] == ps;
    return Ok(matrix);
  }

  /** Whether a segment fits depends only on the grid's shape. */
  lemma LineFitsSameShape(g: Grid, h: Grid, start: Point, end: Point)
    requires SameShape(g, h)
    ensures LineFits(g, start, end) <==> LineFits(h, start, end)
  {
    var ps := LinePositions(start, end);
    SameShapeIndices(g, h, Pos(start.y, start.x));
    forall k | 0 <= k < |ps|
      ensures InGrid(g, ps[k]) <==> InGrid(h, ps[k])
    {
      SameShapeIndices(g, h, ps[k]);
    }
  }
}
