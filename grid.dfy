/** The character grid the shapes draw on: a list of rows, each a list of
    cells, indexed the Python way (a negative index counts from the end). */
module Grids {

  /** A cell holds a plain string, or a 1-tuple around a string; the tuple is
      what line drawing writes, and flood fill treats it as a wall. */
  datatype Cell = Plain(text: string) | Locked(text: string)

  type Grid = seq<seq<Cell>>

  /** A (row, column) index pair as the code writes it: `matrix[row][col]`. */
  datatype Pos = Pos(row: int, col: int)

  /** The list position Python reads for index i of a list of length n. */
  function Norm(i: int, n: nat): int
  {
    if i < 0 then i + n else i
  }

  /** `matrix[row]` does not raise. */
  predicate RowInGrid(g: Grid, row: int)
  {
    0 <= Norm(row, |g|) < |g|
  }

  /** `matrix[p.row][p.col]` does not raise. */
  predicate InGrid(g: Grid, p: Pos)
  {
    RowInGrid(g, p.row) && 0 <= Norm(p.col, |g[Norm(p.row, |g|)]|) < |g[Norm(p.row, |g|)]|
  }

  /** Index pair p designates cell (i, j). */
  predicate Resolves(g: Grid, p: Pos, i: int, j: int)
  {
    0 <= i < |g| && Norm(p.row, |g|) == i && Norm(p.col, |g[i]|) == j
  }

  function CellAt(g: Grid, p: Pos): Cell
    requires InGrid(g, p)
  {
    g[Norm(p.row, |g|)][Norm(p.col, |g[Norm(p.row, |g|)]|)]
  }

  /** Same number of rows, and row by row the same length. */
  predicate SameShape(g: Grid, h: Grid)
  {
    |g| == |h| && forall i | 0 <= i < |g| :: |g[i]| == |h[i]|
  }

  /** `matrix[p.row][p.col] = c`: that one cell changes, nothing else does. */
  function SetCell(g: Grid, p: Pos, c: Cell): (h: Grid)
    requires InGrid(g, p)
    ensures SameShape(g, h) && InGrid(h, p) && CellAt(h, p) == c
    ensures forall i, j | 0 <= i < |g| && 0 <= j < |g[i]| && !Resolves(g, p, i, j) :: h[i][j] == g[i][j]
  {
    var i := Norm(p.row, |g|);
    g[i := g[i][Norm(p.col, |g[i]|) := c]]
  }

  /** Grids of the same shape accept the same indices and resolve them alike. */
  lemma SameShapeIndices(g: Grid, h: Grid, p: Pos)
    requires SameShape(g, h)
    ensures RowInGrid(g, p.row) <==> RowInGrid(h, p.row)
    ensures InGrid(g, p) <==> InGrid(h, p)
    ensures forall i, j :: Resolves(g, p, i, j) <==> Resolves(h, p, i, j)
  {
  }

  /** Some index pair of ps designates cell (i, j). */
  ghost predicate Hits(g: Grid, ps: seq<Pos>, i: int, j: int)
  {
    exists k | 0 <= k < |ps| :: Resolves(g, ps[k], i, j)
  }

  /** h is g with every cell designated by ps set to c, and no other cell
      changed; every index of ps is inside g. */
  ghost predicate Stamped(g: Grid, h: Grid, ps: seq<Pos>, c: Cell)
  {
    SameShape(g, h) &&
    (forall k | 0 <= k < |ps| :: InGrid(g, ps[k])) &&
    forall i, j | 0 <= i < |g| && 0 <= j < |g[i]| :: h[i][j] == if Hits(g, ps, i, j) then c else g[i][j]
  }

  lemma StampedNothing(g: Grid, c: Cell)
    ensures Stamped(g, g, [], c)
  {
  }

  /** One more assignment extends a stamp by one index. */
  lemma StampedSnoc(g0: Grid, g: Grid, ps: seq<Pos>, p: Pos, c: Cell)
    requires Stamped(g0, g, ps, c) && InGrid(g, p)
    ensures Stamped(g0, SetCell(g, p, c), ps + [p], c)
  {
    var h := SetCell(g, p, c);
    var qs := ps + [p];
    SameShapeIndices(g0, g, p);
    forall k | 0 <= k < |qs|
      ensures InGrid(g0, qs[k])
    {
      if k < |ps| { assert qs[k] == ps[k]; }
    }
    forall i, j | 0 <= i < |g0| && 0 <= j < |g0[i]|
      ensures h[i][j] == if Hits(g0, qs, i, j) then c else g0[i][j]
    {
      if Resolves(g0, p, i, j) {
        assert qs[|ps|] == p;
        assert Hits(g0, qs, i, j);
      } else {
        assert h[i][j] == g[i][j];
        if Hits(g0, ps, i, j) {
          var k :| 0 <= k < |ps| && Resolves(g0, ps[k], i, j);
          assert qs[k] == ps[k];
        }
      }
    }
  }

  /** Stamping a prefix of ps one index further; an index outside the
      current grid is outside the original one too. */
  lemma StampedNext(g0: Grid, g: Grid, ps: seq<Pos>, n: int, c: Cell)
    requires 0 <= n < |ps| && Stamped(g0, g, ps[..n], c)
    ensures InGrid(g, ps[n]) <==> InGrid(g0, ps[n])
    ensures InGrid(g, ps[n]) ==> Stamped(g0, SetCell(g, ps[n], c), ps[..n + 1], c)
  {
    SameShapeIndices(g0, g, ps[n]);
    if InGrid(g, ps[n]) {
      StampedSnoc(g0, g, ps[..n], ps[n], c);
      assert ps[..n] + [ps[n]] == ps[..n + 1];
    }
  }

  /** Two stamps with the same cell make one stamp over both index lists. */
  lemma StampedAppend(g0: Grid, g1: Grid, g2: Grid, ps: seq<Pos>, qs: seq<Pos>, c: Cell)
    requires Stamped(g0, g1, ps, c) && Stamped(g1, g2, qs, c)
    ensures Stamped(g0, g2, ps + qs, c)
  {
    var rs := ps + qs;
    forall k | 0 <= k < |rs|
      ensures InGrid(g0, rs[k])
    {
      if k < |ps| {
        assert rs[k] == ps[k];
      } else {
        assert rs[k] == qs[k - |ps|];
        SameShapeIndices(g0, g1, rs[k]);
      }
    }
    forall i, j | 0 <= i < |g0| && 0 <= j < |g0[i]|
      ensures g2[i][j] == if Hits(g0, rs, i, j) then c else g0[i][j]
    {
      if Hits(g1, qs, i, j) {
        var k :| 0 <= k < |qs| && Resolves(g1, qs[k], i, j);
        SameShapeIndices(g0, g1, qs[k]);
        assert rs[|ps| + k] == qs[k];
      } else if Hits(g0, ps, i, j) {
        var k :| 0 <= k < |ps| && Resolves(g0, ps[k], i, j);
        assert rs[k] == ps[k];
      }
    }
  }

  /** After a stamp, every stamped index reads back the stamped cell. */
  lemma StampedCellAt(g: Grid, h: Grid, ps: seq<Pos>, c: Cell, k: int)
    requires Stamped(g, h, ps, c) && 0 <= k < |ps|
    ensures InGrid(h, ps[k]) && CellAt(h, ps[k]) == c
  {
    var p := ps[k];
    SameShapeIndices(g, h, p);
    var i := Norm(p.row, |g|);
    var j := Norm(p.col, |g[i]|);
    assert Resolves(g, p, i, j);
    assert Hits(g, ps, i, j);
  }

  /** When no index of ps is negative, an index pair designates exactly the
      cell it names. */
  lemma HitsNonNegative(g: Grid, ps: seq<Pos>, i: int, j: int)
    requires forall k | 0 <= k < |ps| :: ps[k].row >= 0 && ps[k].col >= 0
    requires 0 <= i < |g| && 0 <= j < |g[i]|
    ensures Hits(g, ps, i, j) <==> Pos(i, j) in ps
  {
    if Pos(i, j) in ps {
      var k :| 0 <= k < |ps| && ps[k] == Pos(i, j);
      assert Resolves(g, ps[k], i, j);
    }
  }
}
