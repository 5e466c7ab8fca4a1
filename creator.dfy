/** `Creator` of app.py: reads drawing commands line by line, keeps the
    current grid, and renders it as text after every command. */
module Drawing {
  import opened Errors
  import opened Points
  import opened Grids
  import opened Lines
  import opened Shapes
  import opened Figures
  import opened FloodFill
  import opened Text

  // ---------------------------------------------------------------------
  // Dispatch

  /** The command letter of each shape class in `MAP_SHAPES`. */
  function Key(k: ShapeKind): string
  {
    match k
    case CanvasKind => "C"
    case LineKind => "L"
    case RectangleKind => "R"
    case FillKind => "B"
  }

  /** `MAP_SHAPES.get(key)`: the class a command letter names, if any. */
  function ShapeFor(key: string): (r: Option<ShapeKind>)
    ensures forall k :: r == Some(k) <==> key == Key(k)
  {
    if key == "C" then Some(CanvasKind)
    else if key == "L" then Some(LineKind)
    else if key == "R" then Some(RectangleKind)
    else if key == "B" then Some(FillKind)
    else None
  }

  /** What `obj.draw(matrix)` promises: the contract of the class drawn. */
  ghost predicate Drawn(s: Shape, g: Grid, r: Result<Grid>)
  {
    match s
    case LineShape(l) => LineDrawn(l, g, r)
    case RectangleShape(cs) => RectangleDrawn(cs, g, r)
    case FillShape(p, sym) => Filled(p, g, sym, r)
    case CanvasShape(w, h, hs, vs, _) => CanvasDrawn(w, h, hs, vs, r)
  }

  /** `obj.draw(matrix)` for whichever class obj is. */
  method Draw(s: Shape, g: Grid) returns (r: Result<Grid>)
    requires WellFormed(s)
    ensures Drawn(s, g, r)
  {
    match s
    case LineShape(l) =>
      r := LineDraw(l, g);
    case RectangleShape(cs) =>
      r := RectangleDraw(cs, g);
    case FillShape(p, sym) =>
      r := Sunshine(p, g, sym);
    case CanvasShape(_, _, _, _, _) =>
      r := CanvasDraw(s, g);
  }

  /** What `process_line(line)` does to a grid g: the first space-separated
      word picks the class (NO_FIGURE otherwise); the rest are its
      parameters; the object is built, and only then is a missing canvas
      refused for anything but a Canvas; the drawing either fails, leaving
      the grid, or gives the new grid. */
  ghost predicate Processed(g: Grid, line: string, err: Option<Error>, h: Grid)
  {
    var words := Split(line, ' ');
    match ShapeFor(words[0])
    case None => err == Some(NoFigure(words[0])) && h == g
    case Some(k) =>
      match ValidateAndCreate(k, words[1..])
      case Err(e) => err == Some(e) && h == g
      case Ok(s) =>
        if k != CanvasKind && |g| == 0 then err == Some(NoCanvas) && h == g
        else Drawn(s, g, if err.None? then Ok(h) else Err(err.value)) && (err.Some? ==> h == g)
  }

  /** `Processed` unfolded for a command naming a known class whose object
      was built: it draws on any grid once a canvas exists (always, for a
      Canvas). A convenience for reasoning about whole command files. */
  lemma ProcessedDraws(g: Grid, line: string, err: Option<Error>, h: Grid, k: ShapeKind, args: seq<string>, s: Shape)
    requires Processed(g, line, err, h)
    requires Split(line, ' ') == [Key(k)] + args && ValidateAndCreate(k, args) == Ok(s)
    requires k == CanvasKind || |g| > 0
    ensures Drawn(s, g, if err.None? then Ok(h) else Err(err.value)) && (err.Some? ==> h == g)
  {
    assert Split(line, ' ')[1..] == args;
  }

  /** `Processed` unfolded for a command refused before drawing: the grid
      is kept. A convenience for reasoning about whole command files. */
  lemma ProcessedRefused(g: Grid, line: string, err: Option<Error>, h: Grid, k: ShapeKind, args: seq<string>)
    requires Processed(g, line, err, h)
    requires Split(line, ' ') == [Key(k)] + args
    ensures ValidateAndCreate(k, args).Err? ==> err == Some(ValidateAndCreate(k, args).error) && h == g
    ensures ValidateAndCreate(k, args).Ok? && k != CanvasKind && |g| == 0 ==> err == Some(NoCanvas) && h == g
  {
    assert Split(line, ' ')[1..] == args;
  }

  // ---------------------------------------------------------------------
  // Rendering

  /** `''.join(row)`: a plain cell contributes its string, a locked one the
      string inside its tuple. */
  function RowText(row: seq<Cell>): string
  {
    if row == [] then "" else RowText(row[..|row| - 1]) + row[|row| - 1].text
  }

  function RowTexts(g: Grid): (rows: seq<string>)
    ensures |rows| == |g|
  {
    if g == [] then [] else RowTexts(g[..|g| - 1]) + [RowText(g[|g| - 1])]
  }

  /** The text written for a grid: its rows, one per line, each line ending
      in a newline; an empty grid gives a lone newline. */
  function Snapshot(g: Grid): string
  {
    Join(RowTexts(g), '\n') + "\n"
  }

  /** `prepare_write_to_file(matrix)`: joins each row into a string, then the
      rows with newlines, and adds a final newline. */
  method PrepareWriteToFile(matrix: Grid) returns (text: string)
    ensures text == Snapshot(matrix)
  {
    var rows: seq<string> := [];
    for i := 0 to |matrix|
      invariant rows == RowTexts(matrix[..i])
    {
      var row := matrix[i];
      var line := "";
      for j := 0 to |row|
        invariant line == RowText(row[..j])
      {
        assert row[..j + 1][..j] == row[..j];
        line := line + row[j].text;
      }
      assert row[..|row|] == row;
      assert matrix[..i + 1][..i] == matrix[..i];
      rows := rows + [line];
    }
    assert matrix[..|matrix|] == matrix;
    text := Join(rows, '\n') + "\n";
  }

  lemma {:induction false} RowTextsAt(g: Grid, i: int)
    requires 0 <= i < |g|
    ensures RowTexts(g)[i] == RowText(g[i])
  {
    if i < |g| - 1 {
      RowTextsAt(g[..|g| - 1], i);
    }
  }

  lemma {:induction false} RowTextNoNewline(row: seq<Cell>)
    requires forall j | 0 <= j < |row| :: '\n' !in row[j].text
    ensures '\n' !in RowText(row)
  {
    if row != [] {
      RowTextNoNewline(row[..|row| - 1]);
    }
  }

  /** The written text reads back as the grid's rows: drop the final newline
      and split at the others, provided no cell holds a newline. */
  lemma SnapshotRows(g: Grid)
    requires |g| >= 1
    requires forall i, j | 0 <= i < |g| && 0 <= j < |g[i]| :: '\n' !in g[i][j].text
    ensures var s := Snapshot(g);
            s[|s| - 1] == '\n' && Split(s[..|s| - 1], '\n') == RowTexts(g)
  {
    var rows := RowTexts(g);
    forall i | 0 <= i < |rows|
      ensures '\n' !in rows[i]
    {
      RowTextsAt(g, i);
      RowTextNoNewline(g[i]);
    }
    JoinSplit(rows, '\n');
    var s := Snapshot(g);
    assert s[..|s| - 1] == Join(rows, '\n');
  }

  /** A row of one-character cells renders as exactly those characters. */
  lemma {:induction false} RowTextChars(row: seq<Cell>)
    requires forall j | 0 <= j < |row| :: |row[j].text| == 1
    ensures |RowText(row)| == |row|
    ensures forall j | 0 <= j < |row| :: RowText(row)[j] == row[j].text[0]
  {
    if row != [] {
      RowTextChars(row[..|row| - 1]);
    }
  }

  // ---------------------------------------------------------------------
  // The creator

  /** One call of `process_line`: the grid before, the stripped line, the
      error raised if any, and the grid after. */
  datatype Step = Step(before: Grid, line: string, err: Option<Error>, after: Grid)

  ghost predicate Done(step: Step)
  {
    Processed(step.before, step.line, step.err, step.after)
  }

  ghost predicate AllDone(steps: seq<Step>)
  {
    forall k | 0 <= k < |steps| :: Done(steps[k])
  }

  lemma AllDoneSnoc(steps: seq<Step>, step: Step)
    requires AllDone(steps) && Done(step)
    ensures AllDone(steps + [step])
  {
  }

  /** The steps follow one another from init to last. */
  predicate Chained(init: Grid, steps: seq<Step>, last: Grid)
  {
    (steps == [] ==> last == init) &&
    (steps != [] ==> steps[0].before == init && steps[|steps| - 1].after == last) &&
    forall k | 0 <= k < |steps| - 1 :: steps[k].after == steps[k + 1].before
  }

  lemma ChainedSnoc(init: Grid, steps: seq<Step>, last: Grid, step: Step)
    requires Chained(init, steps, last) && step.before == last
    ensures Chained(init, steps + [step], step.after)
  {
  }

  /** The k-th step handled the k-th line, stripped. */
  predicate Follows(steps: seq<Step>, lines: seq<string>)
  {
    |steps| <= |lines| && forall k | 0 <= k < |steps| :: steps[k].line == RStrip(lines[k])
  }

  lemma FollowsSnoc(steps: seq<Step>, lines: seq<string>, step: Step)
    requires Follows(steps, lines) && |steps| < |lines| && step.line == RStrip(lines[|steps|])
    ensures Follows(steps + [step], lines)
  {
  }

  /** Each text written is the snapshot after a step that succeeded. */
  predicate Rendered(steps: seq<Step>, written: seq<string>)
  {
    |written| <= |steps| &&
    forall k | 0 <= k < |written| :: steps[k].err == None && written[k] == Snapshot(steps[k].after)
  }

  lemma RenderedSnoc(steps: seq<Step>, written: seq<string>, step: Step, text: string)
    requires Rendered(steps, written) && |written| == |steps|
    ensures Rendered(steps + [step], written)
    ensures step.err == None && text == Snapshot(step.after) ==> Rendered(steps + [step], written + [text])
  {
  }

  /** A run of `execute` from grid init over the given lines: one step per
      line read, each processed from the grid the previous one left and
      ending on grid last; one text written per success, and either every
      line succeeded or the run stopped at the first failure, whose error it
      reports. */
  ghost predicate Ran(init: Grid, lines: seq<string>, written: seq<string>, err: Option<Error>, steps: seq<Step>, last: Grid)
  {
    Follows(steps, lines) && AllDone(steps) && Chained(init, steps, last) && Rendered(steps, written) &&
    (err.None? ==> |written| == |steps| == |lines|) &&
    (err.Some? ==> |written| + 1 == |steps| && steps[|written|].err == err)
  }

  class Creator {
    /** `self.matrix`: the grid drawn so far; empty until a canvas exists. */
    var matrix: Grid

    constructor ()
      ensures matrix == []
    {
      matrix := [];
    }

    /** `process_line(line)`: on success the grid becomes the drawing, on
        failure the grid is kept and the error is returned. */
    method ProcessLine(line: string) returns (err: Option<Error>)
      modifies this
      ensures Processed(old(matrix), line, err, matrix)
    {
      var words := Split(line, ' ');
      var key := words[0];
      var kind := ShapeFor(key);
      if kind.None? {
        return Some(NoFigure(key));
      }
      var created := ValidateAndCreate(kind.value, words[1..]);
      if created.Err? {
        return Some(created.error);
      }
      if kind.value != CanvasKind && |matrix| == 0 {
        return Some(NoCanvas);
      }
      var r := Draw(created.value, matrix);
      if r.Err? {
        return Some(r.error);
      }
      matrix := r.value;
      return None;
    }

    /** `execute()` with the input file's text given and the texts written to
        the output file returned: each line `readline` yields is stripped on
        the right and processed, and after each success the grid is written
        out; the first failure ends the run. */
    method Execute(input: string) returns (written: seq<string>, err: Option<Error>, ghost steps: seq<Step>)
      modifies this
      ensures Ran(old(matrix), ReadLines(input), written, err, steps, matrix)
    {
      var lines := ReadLines(input);
      written, err, steps := [], None, [];
      for k := 0 to |lines|
        invariant |written| == |steps| == k && err == None
        invariant Follows(steps, lines) && AllDone(steps) && Chained(old(matrix), steps, matrix)
        invariant Rendered(steps, written)
      {
        ghost var before := matrix;
        var line := RStrip(lines[k]);
        err := ProcessLine(line);
        ghost var step := Step(before, line, err, matrix);
        AllDoneSnoc(steps, step);
        ChainedSnoc(old(matrix), steps, before, step);
        FollowsSnoc(steps, lines, step);
        var ready := "";
        if err.None? {
          ready := PrepareWriteToFile(matrix);
        }
        RenderedSnoc(steps, written, step, ready);
        steps := steps + [step];
        if err.Some? {
          return;
        }
        written := written + [ready];
      }
    }
  }
}
