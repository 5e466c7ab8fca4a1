/** `Fill` of app.py: the recursive flood fill `_sunshine`, which writes the
    fill symbol into every reachable plain cell and stops at locked cells and
    at cells already holding the symbol. */
module FloodFill {
  import opened Errors
  import opened Points
  import opened Grids
  import opened Figures

  /** `Fill.vectors`, in the order they are tried. The entry commented
      "down-left" repeats (1, -1), so (-1, 1) is never tried. */
  const Vectors: seq<Point> :=
    [Point(0, -1), Point(1, -1), Point(1, 0), Point(1, 1),
     Point(0, 1), Point(1, -1), Point(-1, 0), Point(-1, -1)]

  lemma VectorTable()
    ensures |Vectors| == 8 && Vectors[1] == Vectors[5] == Point(1, -1)
    ensures Point(-1, 1) !in Vectors
    ensures forall k | 0 <= k < |Vectors| :: -1 <= Vectors[k].x <= 1 && -1 <= Vectors[k].y <= 1
  {
  }

  /** `not isinstance(cell, tuple) and cell != symbol`: the fill writes here. */
  predicate Fillable(c: Cell, sym: string)
  {
    c.Plain? && c.text != sym
  }

  /** Index pair p is inside the grid and the fill stops there. */
  predicate DoneAt(g: Grid, p: Pos, sym: string)
  {
    InGrid(g, p) && !Fillable(CellAt(g, p), sym)
  }

  /** The index pair the fill probes from cell (i, j) with vector k. */
  function Neighbour(i: int, j: int, k: int): Pos
    requires 0 <= k < |Vectors|
  {
    Pos(i + Vectors[k].y, j + Vectors[k].x)
  }

  /** h differs from g only where g was fillable, and there h holds the
      symbol as a plain cell: locked cells are never touched. */
  ghost predicate FillStep(g: Grid, h: Grid, sym: string)
  {
    SameShape(g, h) &&
    forall i, j | 0 <= i < |g| && 0 <= j < |g[i]| ::
      h[i][j] == g[i][j] || (Fillable(g[i][j], sym) && h[i][j] == Plain(sym))
  }

  ghost predicate NeighboursDone(g: Grid, i: int, j: int, sym: string)
  {
    forall k | 0 <= k < |Vectors| :: DoneAt(g, Neighbour(i, j, k), sym)
  }

  /** Every cell that changed from g to h has all the neighbours the table
      probes inside h and done: the fill did not stop short. */
  ghost predicate Closed(g: Grid, h: Grid, sym: string)
  {
    forall i, j | 0 <= i < |g| && 0 <= j < |g[i]| && i < |h| && j < |h[i]| && h[i][j] != g[i][j] ::
      NeighboursDone(h, i, j, sym)
  }

  /** A region the fill cannot leave: its index pairs are non-negative cells
      of g, and each neighbour the table probes is in the region or done. */
  ghost predicate Enclosed(g: Grid, region: set<Pos>, sym: string)
  {
    forall q | q in region ::
      q.row >= 0 && q.col >= 0 && InGrid(g, q) &&
      forall k | 0 <= k < |Vectors| :: Neighbour(q.row, q.col, k) in region || DoneAt(g, Neighbour(q.row, q.col, k), sym)
  }

  /** Every cell that changed from g to h lies in the region. */
  ghost predicate ChangedWithin(g: Grid, h: Grid, region: set<Pos>)
  {
    forall i, j | 0 <= i < |g| && 0 <= j < |g[i]| && i < |h| && j < |h[i]| && h[i][j] != g[i][j] ::
      Pos(i, j) in region
  }

  // ---------------------------------------------------------------------
  // The termination measure: the number of fillable cells.

  function RowUnfilled(row: seq<Cell>, sym: string): nat
  {
    if row == [] then 0
    else RowUnfilled(row[..|row| - 1], sym) + (if Fillable(row[|row| - 1], sym) then 1 else 0)
  }

  function Unfilled(g: Grid, sym: string): nat
  {
    if g == [] then 0 else Unfilled(g[..|g| - 1], sym) + RowUnfilled(g[|g| - 1], sym)
  }

  lemma {:induction false} RowUnfilledStep(a: seq<Cell>, b: seq<Cell>, sym: string)
    requires |a| == |b|
    requires forall j | 0 <= j < |a| :: b[j] == a[j] || (Fillable(a[j], sym) && b[j] == Plain(sym))
    ensures RowUnfilled(b, sym) <= RowUnfilled(a, sym)
    ensures a != b ==> RowUnfilled(b, sym) < RowUnfilled(a, sym)
  {
    if a != [] {
      var n := |a| - 1;
      RowUnfilledStep(a[..n], b[..n], sym);
      if a[..n] == b[..n] && a[n] == b[n] {
        assert a == a[..n] + [a[n]] && b == b[..n] + [b[n]];
      }
    }
  }

  /** A fill step never adds fillable cells, and removes one when it changes
      anything. */
  lemma {:induction false} UnfilledStep(g: Grid, h: Grid, sym: string)
    requires FillStep(g, h, sym)
    ensures Unfilled(h, sym) <= Unfilled(g, sym)
    ensures g != h ==> Unfilled(h, sym) < Unfilled(g, sym)
  {
    if g != [] {
      var n := |g| - 1;
      assert FillStep(g[..n], h[..n], sym);
      UnfilledStep(g[..n], h[..n], sym);
      RowUnfilledStep(g[n], h[n], sym);
      if g[..n] == h[..n] && g[n] == h[n] {
        assert g == g[..n] + [g[n]] && h == h[..n] + [h[n]];
      }
    }
  }

  // ---------------------------------------------------------------------
  // Fill steps compose, and what is done stays done.

  lemma FillStepTrans(a: Grid, b: Grid, c: Grid, sym: string)
    requires FillStep(a, b, sym) && FillStep(b, c, sym)
    ensures FillStep(a, c, sym)
  {
  }

  lemma DoneStays(g: Grid, h: Grid, p: Pos, sym: string)
    requires FillStep(g, h, sym) && DoneAt(g, p, sym)
    ensures DoneAt(h, p, sym) && CellAt(h, p) == CellAt(g, p)
  {
    SameShapeIndices(g, h, p);
  }

  lemma EnclosedStays(g: Grid, h: Grid, region: set<Pos>, sym: string)
    requires FillStep(g, h, sym) && Enclosed(g, region, sym)
    ensures Enclosed(h, region, sym)
  {
    forall q | q in region
      ensures InGrid(h, q)
      ensures forall k | 0 <= k < |Vectors| ::
                Neighbour(q.row, q.col, k) in region || DoneAt(h, Neighbour(q.row, q.col, k), sym)
    {
      SameShapeIndices(g, h, q);
      forall k | 0 <= k < |Vectors| && Neighbour(q.row, q.col, k) !in region
        ensures DoneAt(h, Neighbour(q.row, q.col, k), sym)
      {
        DoneStays(g, h, Neighbour(q.row, q.col, k), sym);
      }
    }
  }

  /** The state of `_sunshine` after the seed is written and the first k
      vectors are explored: a fill step of g, the seed holds the symbol,
      every other changed cell is closed, the first k probes are done, and
      nothing changed outside any region enclosing the seed. */
  ghost predicate Progress(g: Grid, m: Grid, p: Point, k: int, sym: string)
  {
    var pos := Pos(p.y, p.x);
    0 <= k <= |Vectors| && InGrid(g, pos) && FillStep(g, m, sym) &&
    InGrid(m, pos) && CellAt(m, pos) == Plain(sym) &&
    (forall i, j | 0 <= i < |g| && 0 <= j < |g[i]| && i < |m| && j < |m[i]| && m[i][j] != g[i][j] && !Resolves(g, pos, i, j) ::
       NeighboursDone(m, i, j, sym)) &&
    (forall n | 0 <= n < k ::
       p.x + Vectors[n].x >= -1 && p.y + Vectors[n].y >= -1 && DoneAt(m, Neighbour(p.y, p.x, n), sym)) &&
    (forall region | Enclosed(g, region, sym) && pos in region :: ChangedWithin(g, m, region))
  }

  lemma Start(g: Grid, p: Point, sym: string)
    requires InGrid(g, Pos(p.y, p.x)) && Fillable(CellAt(g, Pos(p.y, p.x)), sym)
    ensures FillStep(g, SetCell(g, Pos(p.y, p.x), Plain(sym)), sym)
    ensures Progress(g, SetCell(g, Pos(p.y, p.x), Plain(sym)), p, 0, sym)
  {
    var pos := Pos(p.y, p.x);
    var pi := Norm(p.y, |g|);
    var pj := Norm(p.x, |g[pi]|);
    assert Resolves(g, pos, pi, pj);
  }

  /** The k-th probe succeeded with h: the state advances to k + 1. */
  lemma Advance(g: Grid, m: Grid, h: Grid, p: Point, k: int, sym: string)
    requires Progress(g, m, p, k, sym) && k < |Vectors|
    requires p.x + Vectors[k].x >= -1 && p.y + Vectors[k].y >= -1
    requires FillStep(m, h, sym) && Closed(m, h, sym) && DoneAt(h, Neighbour(p.y, p.x, k), sym)
    requires DoneAt(m, Neighbour(p.y, p.x, k), sym) ==> h == m
    requires forall region | Enclosed(m, region, sym) && Neighbour(p.y, p.x, k) in region :: ChangedWithin(m, h, region)
    ensures Progress(g, h, p, k + 1, sym)
  {
    var pos := Pos(p.y, p.x);
    FillStepTrans(g, m, h, sym);
    DoneStays(m, h, pos, sym);
    forall n | 0 <= n < k
      ensures DoneAt(h, Neighbour(p.y, p.x, n), sym)
    {
      DoneStays(m, h, Neighbour(p.y, p.x, n), sym);
    }
    forall i, j | 0 <= i < |g| && 0 <= j < |g[i]| && i < |h| && j < |h[i]| && h[i][j] != g[i][j] && !Resolves(g, pos, i, j)
      ensures NeighboursDone(h, i, j, sym)
    {
      if m[i][j] != g[i][j] {
        forall n | 0 <= n < |Vectors|
          ensures DoneAt(h, Neighbour(i, j, n), sym)
        {
          DoneStays(m, h, Neighbour(i, j, n), sym);
        }
      }
    }
    forall region | Enclosed(g, region, sym) && pos in region
      ensures ChangedWithin(g, h, region)
    {
      EnclosedStays(g, m, region, sym);
      if Neighbour(p.y, p.x, k) !in region {
        DoneStays(g, m, Neighbour(p.y, p.x, k), sym);
      }
      assert ChangedWithin(m, h, region);
      forall i, j | 0 <= i < |g| && 0 <= j < |g[i]| && i < |h| && j < |h[i]| && h[i][j] != g[i][j]
        ensures Pos(i, j) in region
      {
        if m[i][j] == g[i][j] {
          assert h[i][j] != m[i][j];
        }
      }
    }
  }

  /** A region enclosing the seed also encloses the k-th probe when that
      probe is not done: the recursive call inherits the enclosure. */
  lemma Blocked(g: Grid, m: Grid, p: Point, k: int, sym: string, region: set<Pos>)
    requires Progress(g, m, p, k, sym) && k < |Vectors|
    requires !DoneAt(m, Neighbour(p.y, p.x, k), sym)
    requires Enclosed(g, region, sym) && Pos(p.y, p.x) in region
    ensures Enclosed(m, region, sym) && Neighbour(p.y, p.x, k) in region
  {
    EnclosedStays(g, m, region, sym);
  }

  /** All eight probes are done: the seed itself is closed. */
  lemma Finish(g: Grid, m: Grid, p: Point, sym: string)
    requires Progress(g, m, p, |Vectors|, sym)
    ensures FillStep(g, m, sym) && Closed(g, m, sym) && DoneAt(m, Pos(p.y, p.x), sym)
  {
    assert p.x >= 0 && p.y >= 0 by {
      assert Vectors[7] == Point(-1, -1);
    }
  }

  /** What `_sunshine(point, matrix)` promises. It raises IndexError naming
      Fill when a probed index is outside the grid, and ValueError when a
      neighbour would have a coordinate below -1. A seed that is locked or
      holds the symbol leaves the grid. On success only fillable cells
      change, each to the symbol; the seed is done; every changed cell has
      all its probed neighbours done; and inside any region that encloses
      the seed the fill succeeds and changes nothing outside it. */
  ghost predicate Filled(p: Point, g: Grid, sym: string, r: Result<Grid>)
  {
    (r.Err? ==> r.error == OutOfCanvas(FillKind) || r.error == BelowMinimum) &&
    (!InGrid(g, Pos(p.y, p.x)) ==> r == Err(OutOfCanvas(FillKind))) &&
    (DoneAt(g, Pos(p.y, p.x), sym) ==> r == Ok(g)) &&
    (r.Ok? ==> FillStep(g, r.value, sym) && Closed(g, r.value, sym) && DoneAt(r.value, Pos(p.y, p.x), sym)) &&
    (forall region | Enclosed(g, region, sym) && Pos(p.y, p.x) in region ::
       r.Ok? && ChangedWithin(g, r.value, region))
  }

  /** `_sunshine(point, matrix)`: writes the seed, then tries each vector of
      the table in order, recursing into every neighbour. */
  method Sunshine(p: Point, g: Grid, sym: string) returns (r: Result<Grid>)
    decreases Unfilled(g, sym)
    ensures Filled(p, g, sym, r)
  {
    var pos := Pos(p.y, p.x);
    if !InGrid(g, pos) {
      return Err(OutOfCanvas(FillKind));
    }
    if !Fillable(CellAt(g, pos), sym) {
      return Ok(g);
    }
    var matrix := SetCell(g, pos, Plain(sym));
    Start(g, p, sym);
    UnfilledStep(g, matrix, sym);
    var k := 0;
    while k < |Vectors|
      invariant Progress(g, matrix, p, k, sym)
      invariant Unfilled(matrix, sym) < Unfilled(g, sym)
    {
      var next := Add(p, Vectors[k]);
      if next.Err? {
        return Err(next.error);
      }
      assert Pos(next.value.y, next.value.x) == Neighbour(p.y, p.x, k);
      var sub := Sunshine(next.value, matrix, sym);
      if sub.Err? {
        forall region | true
          ensures !(Enclosed(g, region, sym) && pos in region)
        {
          if Enclosed(g, region, sym) && pos in region {
            Blocked(g, matrix, p, k, sym, region);
          }
        }
        return sub;
      }
      Advance(g, matrix, sub.value, p, k, sym);
      UnfilledStep(matrix, sub.value, sym);
      matrix := sub.value;
      k := k + 1;
    }
    Finish(g, matrix, p, sym);
    return Ok(matrix);
  }

  /** Filling a second time from the same seed returns the grid unchanged:
      the first fill leaves the seed holding the symbol. */
  method FillAgain(p: Point, g: Grid, sym: string) returns (first: Result<Grid>, second: Result<Grid>)
    ensures first.Ok? ==> second == first
  {
    first := Sunshine(p, g, sym);
    second := first;
    if first.Ok? {
      second := Sunshine(p, first.value, sym);
    }
  }

  /** The cells a fill writes stay unlocked: a fill with another symbol may
      write them again, one with the same symbol stops there. */
  lemma FilledStaysOpen(g: Grid, h: Grid, sym: string, other: string, i: int, j: int)
    requires FillStep(g, h, sym) && 0 <= i < |g| && 0 <= j < |g[i]| && h[i][j] != g[i][j]
    ensures Fillable(h[i][j], other) <==> other != sym
  {
  }

  // ---------------------------------------------------------------------
  // A canvas border keeps any fill inside the canvas.

  predicate RowLocked(row: seq<Cell>)
  {
    forall j | 0 <= j < |row| :: row[j].Locked?
  }

  /** The outer ring of a (h + 2) x (w + 2) grid is locked. */
  predicate BorderLocked(g: Grid, w: int, h: int)
  {
    w >= 0 && h >= 0 && Dims(g, h + 2, w + 2) &&
    RowLocked(g[0]) && RowLocked(g[h + 1]) &&
    (forall i | 0 <= i < h + 2 :: g[i][0].Locked?) &&
    (forall i | 0 <= i < h + 2 :: g[i][w + 1].Locked?)
  }

  /** The cells inside the border, as index pairs. */
  function Interior(w: int, h: int): set<Pos>
  {
    set i, j | 1 <= i <= h && 1 <= j <= w :: Pos(i, j)
  }

  lemma FrameBorderLocked(g: Grid, w: int, h: int, hs: string, vs: string)
    requires IsFrame(g, w, h, hs, vs)
    ensures BorderLocked(g, w, h)
  {
    assert AllCells(g[0], Locked(hs)) && AllCells(g[h + 1], Locked(hs));
  }

  /** Lines draw locked cells, so the border stays locked. */
  lemma StampKeepsBorder(g: Grid, g2: Grid, ps: seq<Pos>, c: Cell, w: int, h: int)
    requires BorderLocked(g, w, h) && Stamped(g, g2, ps, c) && c.Locked?
    ensures BorderLocked(g2, w, h)
  {
  }

  /** A fill never writes locked cells, so the border stays locked. */
  lemma FillKeepsBorder(g: Grid, g2: Grid, sym: string, w: int, h: int)
    requires BorderLocked(g, w, h) && FillStep(g, g2, sym)
    ensures BorderLocked(g2, w, h)
  {
  }

  /** Behind a locked border the interior is a region the fill cannot leave:
      with `Sunshine`'s contract, a fill seeded inside the canvas succeeds and
      changes nothing on or outside the border. */
  lemma BorderEncloses(g: Grid, w: int, h: int, sym: string)
    requires BorderLocked(g, w, h)
    ensures Enclosed(g, Interior(w, h), sym)
  {
    var region := Interior(w, h);
    forall q | q in region
      ensures q.row >= 0 && q.col >= 0 && InGrid(g, q)
      ensures forall k | 0 <= k < |Vectors| ::
                Neighbour(q.row, q.col, k) in region || DoneAt(g, Neighbour(q.row, q.col, k), sym)
    {
      forall k | 0 <= k < |Vectors|
        ensures Neighbour(q.row, q.col, k) in region || DoneAt(g, Neighbour(q.row, q.col, k), sym)
      {
        var n := Neighbour(q.row, q.col, k);
        assert 0 <= n.row < h + 2 && 0 <= n.col < w + 2;
        if n !in region {
          assert n.row == 0 || n.row == h + 1 || n.col == 0 || n.col == w + 1;
          assert Resolves(g, n, n.row, n.col);
          if n.row == 0 {
            assert g[0][n.col].Locked?;
          } else if n.row == h + 1 {
            var last := g[h + 1];
            assert RowLocked(last) && last[n.col].Locked?;
          } else if n.col == 0 {
            assert g[n.row][0].Locked?;
          } else {
            assert g[n.row][w + 1].Locked?;
          }
        }
      }
    }
  }

  // ---------------------------------------------------------------------
  // The repeated table entry leaves a real neighbour unvisited.

  /** A 5 x 5 grid: locked border, locked cells at (row 1, col 1),
      (2, 2), (3, 1), (3, 2), blank elsewhere. Cell (2, 1) touches (1, 2)
      only through the down-left diagonal. */
  function DiagonalGrid(): Grid
  {
    seq(5, i => seq(5, j =>
      if i == 0 || i == 4 || j == 0 || j == 4 || (i == 1 && j == 1) || (i == 2 && j == 2) || (i == 3 && j <= 2)
      then Locked("x") else Plain(" ")))
  }

  lemma DiagonalGridEnclosed()
    ensures Enclosed(DiagonalGrid(), {Pos(1, 2), Pos(1, 3), Pos(2, 3), Pos(3, 3)}, "o")
  {
    var g := DiagonalGrid();
    var region := {Pos(1, 2), Pos(1, 3), Pos(2, 3), Pos(3, 3)};
    forall q | q in region
      ensures forall k | 0 <= k < |Vectors| ::
                Neighbour(q.row, q.col, k) in region || DoneAt(g, Neighbour(q.row, q.col, k), "o")
    {
      forall k | 0 <= k < |Vectors|
        ensures Neighbour(q.row, q.col, k) in region || DoneAt(g, Neighbour(q.row, q.col, k), "o")
      {
        var n := Neighbour(q.row, q.col, k);
        assert 0 <= n.row < 5 && 0 <= n.col < 5;
      }
    }
  }

  /** Filling from (row 1, col 2) succeeds, yet the blank cell diagonally
      down-left of the seed stays blank: "down-left" probes up-right. */
  method DownLeftSkipped() returns (r: Result<Grid>)
    ensures r.Ok? && |r.value| == 5 && |r.value[1]| == 5 && |r.value[2]| == 5
    ensures r.value[1][2] == Plain("o") && r.value[2][1] == Plain(" ")
  {
    DiagonalGridEnclosed();
    r := Sunshine(Point(2, 1), DiagonalGrid(), "o");
  }
}
