/** The command files of tests/test_creator.py, run through the model: each
    method states how the run ends and how many texts it writes. */
module Scenarios {
  import opened Errors
  import opened Utils
  import opened Points
  import opened Grids
  import opened Lines
  import opened Shapes
  import opened Figures
  import opened FloodFill
  import opened Text
  import opened Drawing

  // ---------------------------------------------------------------------
  // One command at a time

  lemma Numerals()
    ensures FormatInt(1) == "1" && FormatInt(2) == "2" && FormatInt(3) == "3" && FormatInt(4) == "4"
    ensures FormatInt(6) == "6" && FormatInt(8) == "8" && FormatInt(10) == "10"
    ensures FormatInt(16) == "16" && FormatInt(20) == "20" && FormatInt(111) == "111"
  {
  }

  /** "C 20 4" draws a locked 22 x 6 frame whatever the grid was. */
  lemma CanvasCommand(g: Grid, line: string, e: Option<Error>, h: Grid)
    requires Processed(g, line, e, h) && Split(line, ' ') == ["C", "20", "4"]
    ensures e == None && BorderLocked(h, 20, 4)
  {
    var args := [FormatInt(20), FormatInt(4)];
    Numerals();
    CanvasFromText(20, 4);
    ProcessedDraws(g, line, e, h, CanvasKind, args, CanvasShape(20, 4, "-", "|", BoxSides(0, 0, 21, 5)));
    FrameBorderLocked(h, 20, 4, "-", "|");
  }

  /** A Line before any canvas is refused once it is built. */
  lemma LineBeforeCanvas(line: string, e: Option<Error>, h: Grid)
    requires Processed([], line, e, h) && Split(line, ' ') == ["L", "1", "2", "1", "8"]
    ensures e == Some(NoCanvas) && h == []
  {
    var args := [FormatInt(1), FormatInt(2), FormatInt(1), FormatInt(8)];
    Numerals();
    LineFromText(1, 2, 1, 8);
    ProcessedRefused([], line, e, h, LineKind, args);
  }

  /** A command naming no shape is refused with the key it read. */
  lemma UnknownCommand(g: Grid, line: string, e: Option<Error>, h: Grid)
    requires Processed(g, line, e, h) && ShapeFor(Split(line, ' ')[0]) == None
    ensures e == Some(NoFigure(Split(line, ' ')[0])) && h == g
  {
  }

  /** Both ends of a segment inside the grid: `draw_line` raises nothing. */
  lemma FitsInside(g: Grid, rows: int, cols: int, a: Point, b: Point)
    requires Dims(g, rows, cols)
    requires 0 <= a.x < cols && 0 <= b.x < cols && 0 <= a.y < rows && 0 <= b.y < rows
    ensures LineFits(g, a, b)
  {
  }

  /** All four sides of a box with its corners inside the grid fit. */
  lemma BoxInside(g: Grid, rows: int, cols: int, a: int, b: int, c: int, d: int)
    requires Dims(g, rows, cols)
    requires 0 <= a < cols && 0 <= c < cols && 0 <= b < rows && 0 <= d < rows
    ensures SidesFit(g, BoxSides(a, b, c, d))
  {
    FitsInside(g, rows, cols, Point(a, b), Point(c, b));
    FitsInside(g, rows, cols, Point(c, b), Point(c, d));
    FitsInside(g, rows, cols, Point(a, d), Point(c, d));
    FitsInside(g, rows, cols, Point(a, b), Point(a, d));
  }

  /** A Line whose ends lie on or inside the frame is drawn and keeps the
      frame locked. */
  lemma LineInside(g: Grid, line: string, e: Option<Error>, h: Grid, w: int, ht: int, a: int, b: int, c: int, d: int)
    requires Processed(g, line, e, h) && BorderLocked(g, w, ht)
    requires Split(line, ' ') == ["L", FormatInt(a), FormatInt(b), FormatInt(c), FormatInt(d)]
    requires 0 <= a <= w + 1 && 0 <= c <= w + 1 && 0 <= b <= ht + 1 && 0 <= d <= ht + 1
    ensures e == None && BorderLocked(h, w, ht)
  {
    LineFromText(a, b, c, d);
    var l := Line(Point(a, b), Point(c, d));
    ProcessedDraws(g, line, e, h, LineKind, [FormatInt(a), FormatInt(b), FormatInt(c), FormatInt(d)], LineShape(l));
    FitsInside(g, ht + 2, w + 2, l.start, l.end);
    StampKeepsBorder(g, h, LinePositions(l.start, l.end), Locked("x"), w, ht);
  }

  /** A Rectangle whose corners lie on or inside the frame is drawn and keeps
      the frame locked. */
  lemma RectangleInside(g: Grid, line: string, e: Option<Error>, h: Grid, w: int, ht: int, a: int, b: int, c: int, d: int)
    requires Processed(g, line, e, h) && BorderLocked(g, w, ht)
    requires Split(line, ' ') == ["R", FormatInt(a), FormatInt(b), FormatInt(c), FormatInt(d)]
    requires 0 <= a <= w + 1 && 0 <= c <= w + 1 && 0 <= b <= ht + 1 && 0 <= d <= ht + 1
    ensures e == None && BorderLocked(h, w, ht)
  {
    RectangleFromText(a, b, c, d);
    var cs := BoxSides(a, b, c, d);
    ProcessedDraws(g, line, e, h, RectangleKind, [FormatInt(a), FormatInt(b), FormatInt(c), FormatInt(d)], RectangleShape(cs));
    BoxInside(g, ht + 2, w + 2, a, b, c, d);
    StampKeepsBorder(g, h, SidesPositions(cs), Locked("x"), w, ht);
  }

  /** A Fill seeded inside the frame succeeds, keeps the frame locked and
      changes nothing outside the interior. */
  lemma FillInside(g: Grid, line: string, e: Option<Error>, h: Grid, w: int, ht: int, a: int, b: int, sym: string)
    requires Processed(g, line, e, h) && BorderLocked(g, w, ht)
    requires Split(line, ' ') == ["B", FormatInt(a), FormatInt(b), sym]
    requires 1 <= a <= w && 1 <= b <= ht
    ensures e == None && BorderLocked(h, w, ht) && ChangedWithin(g, h, Interior(w, ht))
  {
    FillFromText(a, b, sym);
    ProcessedDraws(g, line, e, h, FillKind, [FormatInt(a), FormatInt(b), sym], FillShape(Point(a, b), sym));
    BorderEncloses(g, w, ht, sym);
    assert Pos(b, a) in Interior(w, ht);
    FillKeepsBorder(g, h, sym, w, ht);
  }

  /** A Fill seeded right of the frame is refused and keeps the grid. */
  lemma FillRightOfFrame(g: Grid, line: string, e: Option<Error>, h: Grid, w: int, ht: int, a: int, b: int, sym: string)
    requires Processed(g, line, e, h) && BorderLocked(g, w, ht)
    requires Split(line, ' ') == ["B", FormatInt(a), FormatInt(b), sym]
    requires a > w + 1 && 0 <= b <= ht + 1
    ensures e == Some(OutOfCanvas(FillKind)) && h == g
  {
    FillFromText(a, b, sym);
    ProcessedDraws(g, line, e, h, FillKind, [FormatInt(a), FormatInt(b), sym], FillShape(Point(a, b), sym));
    assert !InGrid(g, Pos(b, a));
  }

  // ---------------------------------------------------------------------
  // Input files

  /** A word of a command: nonempty and free of whitespace. */
  predicate Word(w: string)
  {
    w != [] && forall i | 0 <= i < |w| :: !IsSpace(w[i])
  }

  /** A command: one or more words. */
  predicate Command(ws: seq<string>)
  {
    ws != [] && forall k | 0 <= k < |ws| :: Word(ws[k])
  }

  /** A word holds neither a space nor a newline and does not end in
      whitespace. */
  lemma WordChars(w: string)
    requires Word(w)
    ensures ' ' !in w && '\n' !in w && !IsSpace(w[|w| - 1])
  {
    assert forall i | 0 <= i < |w| :: w[i] != ' ' && w[i] != '\n';
  }

  /** An input file: each command's words joined by spaces, the commands
      joined by newlines, no trailing newline. */
  function Script(cmds: seq<seq<string>>): string
  {
    Join(seq(|cmds|, k requires 0 <= k < |cmds| => Join(cmds[k], ' ')), '\n')
  }

  /** A command line holds no newline, does not end in whitespace and splits
      back into its words. */
  lemma {:induction false} CommandLine(ws: seq<string>)
    requires Command(ws)
    ensures Join(ws, ' ') != [] && '\n' !in Join(ws, ' ')
    ensures !IsSpace(Join(ws, ' ')[|Join(ws, ' ')| - 1])
    ensures Split(Join(ws, ' '), ' ') == ws
  {
    WordChars(ws[0]);
    if |ws| == 1 {
      SplitPiece(ws[0], ' ');
    } else {
      CommandLine(ws[1..]);
      assert Join(ws, ' ') == ws[0] + [' '] + Join(ws[1..], ' ');
      SplitFirst(ws[0], Join(ws[1..], ' '), ' ');
      assert ws == [ws[0]] + ws[1..];
    }
  }

  /** Lines that, once stripped and split, are the given commands. */
  ghost predicate Reads(lines: seq<string>, cmds: seq<seq<string>>)
  {
    |lines| == |cmds| && forall k | 0 <= k < |lines| :: Split(RStrip(lines[k]), ' ') == cmds[k]
  }

  /** The lines `execute` reads from a script, once stripped and split, are
      the script's commands. */
  lemma ScriptLines(cmds: seq<seq<string>>)
    requires cmds != [] && forall k | 0 <= k < |cmds| :: Command(cmds[k])
    ensures Reads(ReadLines(Script(cmds)), cmds)
  {
    var ls := seq(|cmds|, k requires 0 <= k < |cmds| => Join(cmds[k], ' '));
    forall k | 0 <= k < |cmds|
      ensures ls[k] != [] && '\n' !in ls[k] && !IsSpace(ls[k][|ls[k]| - 1]) && Split(ls[k], ' ') == cmds[k]
    {
      CommandLine(cmds[k]);
    }
    ReadLinesJoin(ls);
    var lines := ReadLines(Script(cmds));
    forall k | 0 <= k < |cmds|
      ensures Split(RStrip(lines[k]), ' ') == cmds[k]
    {
      RStripLine(ls[k]);
    }
  }

  // ---------------------------------------------------------------------
  // Whole runs

  /** A run gets past lines that all succeeded to the next one. */
  lemma RunReaches(lines: seq<string>, written: seq<string>, err: Option<Error>, steps: seq<Step>, last: Grid, n: nat)
    requires Ran([], lines, written, err, steps, last)
    requires n < |lines| && n <= |steps| && forall k | 0 <= k < n :: steps[k].err == None
    ensures n < |steps|
  {
  }

  /** A run stops at the first line that fails, having written one text per
      line before it. */
  lemma RunStops(lines: seq<string>, written: seq<string>, err: Option<Error>, steps: seq<Step>, last: Grid, n: nat)
    requires Ran([], lines, written, err, steps, last)
    requires n < |steps| && steps[n].err.Some? && forall k | 0 <= k < n :: steps[k].err == None
    ensures err == steps[n].err && |written| == n
  {
  }

  /** A run whose every line succeeds writes one text per line. */
  lemma RunCompletes(lines: seq<string>, written: seq<string>, err: Option<Error>, steps: seq<Step>, last: Grid)
    requires Ran([], lines, written, err, steps, last)
    requires |steps| == |lines| && forall k | 0 <= k < |steps| :: steps[k].err == None
    ensures err == None && |written| == |lines|
  {
  }

  /** The first step of a script reads its first command, from an empty grid. */
  lemma FirstStep(lines: seq<string>, cmds: seq<seq<string>>, written: seq<string>, err: Option<Error>, steps: seq<Step>, last: Grid)
    requires |cmds| >= 1 && Reads(lines, cmds) && Ran([], lines, written, err, steps, last)
    ensures 0 < |steps| && steps[0].before == [] && Done(steps[0]) && Split(steps[0].line, ' ') == cmds[0]
  {
    RunReaches(lines, written, err, steps, last, 0);
  }

  /** A script opening with "C 20 4" reaches its second command with the
      frame drawn. */
  lemma AfterCanvas(lines: seq<string>, cmds: seq<seq<string>>, written: seq<string>, err: Option<Error>, steps: seq<Step>, last: Grid)
    requires |cmds| >= 2 && cmds[0] == ["C", "20", "4"] && Reads(lines, cmds) && Ran([], lines, written, err, steps, last)
    ensures 1 < |steps| && steps[0].err == None && BorderLocked(steps[1].before, 20, 4)
    ensures Done(steps[1]) && Split(steps[1].line, ' ') == cmds[1]
  {
    FirstStep(lines, cmds, written, err, steps, last);
    CanvasCommand(steps[0].before, steps[0].line, steps[0].err, steps[0].after);
    RunReaches(lines, written, err, steps, last, 1);
  }

  /** A fresh creator executing a script. */
  method RunScript(cmds: seq<seq<string>>) returns (written: seq<string>, err: Option<Error>, ghost steps: seq<Step>, ghost lines: seq<string>, ghost last: Grid)
    requires cmds != [] && forall k | 0 <= k < |cmds| :: Command(cmds[k])
    ensures Reads(lines, cmds) && Ran([], lines, written, err, steps, last)
  {
    var creator := new Creator();
    written, err, steps := creator.Execute(Script(cmds));
    lines := ReadLines(Script(cmds));
    last := creator.matrix;
    ScriptLines(cmds);
  }

  /** '\n': the blank line names no shape, so nothing is written. */
  method BlankLine() returns (written: seq<string>, err: Option<Error>)
    ensures err == Some(NoFigure("")) && written == []
  {
    var creator := new Creator();
    ghost var steps;
    written, err, steps := creator.Execute("\n");
    BlankLineRun(written, err, steps, creator.matrix);
  }

  lemma BlankLineRun(written: seq<string>, err: Option<Error>, steps: seq<Step>, last: Grid)
    requires Ran([], ReadLines("\n"), written, err, steps, last)
    ensures err == Some(NoFigure("")) && written == []
  {
    ReadLinesFirst("", "");
    assert ReadLines("\n") == ["\n"];
    RStripLine("");
    RunReaches(["\n"], written, err, steps, last, 0);
    assert steps[0].line == "" && Split("", ' ') == [""];
    UnknownCommand(steps[0].before, steps[0].line, steps[0].err, steps[0].after);
    RunStops(["\n"], written, err, steps, last, 0);
  }

  /** 'L 1 2 1 8\nC 20 4': the Line comes first, so nothing is written. */
  method NoCanvasFirst() returns (written: seq<string>, err: Option<Error>)
    ensures err == Some(NoCanvas) && written == []
  {
    ghost var steps, lines, last;
    written, err, steps, lines, last := RunScript([["L", "1", "2", "1", "8"], ["C", "20", "4"]]);
    NoCanvasRun(lines, [["L", "1", "2", "1", "8"], ["C", "20", "4"]], written, err, steps, last);
  }

  lemma NoCanvasRun(lines: seq<string>, cmds: seq<seq<string>>, written: seq<string>, err: Option<Error>, steps: seq<Step>, last: Grid)
    requires cmds == [["L", "1", "2", "1", "8"], ["C", "20", "4"]]
    requires Reads(lines, cmds) && Ran([], lines, written, err, steps, last)
    ensures err == Some(NoCanvas) && written == []
  {
    FirstStep(lines, cmds, written, err, steps, last);
    LineBeforeCanvas(steps[0].line, steps[0].err, steps[0].after);
    RunStops(lines, written, err, steps, last, 0);
  }

  /** 'C 20 4\nD 1 2 6 2': D names no shape; the canvas alone is written. */
  method UnknownShapeName() returns (written: seq<string>, err: Option<Error>)
    ensures err == Some(NoFigure("D")) && |written| == 1
  {
    ghost var steps, lines, last;
    written, err, steps, lines, last := RunScript([["C", "20", "4"], ["D", "1", "2", "6", "2"]]);
    UnknownShapeRun(lines, [["C", "20", "4"], ["D", "1", "2", "6", "2"]], written, err, steps, last);
  }

  lemma UnknownShapeRun(lines: seq<string>, cmds: seq<seq<string>>, written: seq<string>, err: Option<Error>, steps: seq<Step>, last: Grid)
    requires cmds == [["C", "20", "4"], ["D", "1", "2", "6", "2"]]
    requires Reads(lines, cmds) && Ran([], lines, written, err, steps, last)
    ensures err == Some(NoFigure("D")) && |written| == 1
  {
    AfterCanvas(lines, cmds, written, err, steps, last);
    UnknownCommand(steps[1].before, steps[1].line, steps[1].err, steps[1].after);
    RunStops(lines, written, err, steps, last, 1);
  }

  /** 'C 20 4\nL 1 2': a Line needs four numbers; the canvas alone is written. */
  method MissingParams() returns (written: seq<string>, err: Option<Error>)
    ensures err == Some(WrongArity(LineKind, 4, 2)) && |written| == 1
  {
    ghost var steps, lines, last;
    written, err, steps, lines, last := RunScript([["C", "20", "4"], ["L", "1", "2"]]);
    MissingParamsRun(lines, [["C", "20", "4"], ["L", "1", "2"]], written, err, steps, last);
  }

  lemma MissingParamsRun(lines: seq<string>, cmds: seq<seq<string>>, written: seq<string>, err: Option<Error>, steps: seq<Step>, last: Grid)
    requires cmds == [["C", "20", "4"], ["L", "1", "2"]]
    requires Reads(lines, cmds) && Ran([], lines, written, err, steps, last)
    ensures err == Some(WrongArity(LineKind, 4, 2)) && |written| == 1
  {
    AfterCanvas(lines, cmds, written, err, steps, last);
    ProcessedRefused(steps[1].before, steps[1].line, steps[1].err, steps[1].after, LineKind, ["1", "2"]);
    RunStops(lines, written, err, steps, last, 1);
  }

  /** "L 1 2 a f": the first point is built, the second fails on its x. */
  lemma LetterCoordinate()
    ensures ValidateAndCreate(LineKind, ["1", "2", "a", "f"]) == Err(FailedParam(LineKind, WrongType("x", "int", "str")))
  {
    Numerals();
    NewPointFromText(1, 2);
    assert ParseInt("a") == None;
  }

  /** 'C 20 4\nL 1 2 a f': the second point's x is not a number, reported as
      a failed Line parameter; the canvas alone is written. */
  method WrongParams() returns (written: seq<string>, err: Option<Error>)
    ensures err == Some(FailedParam(LineKind, WrongType("x", "int", "str"))) && |written| == 1
  {
    ghost var steps, lines, last;
    written, err, steps, lines, last := RunScript([["C", "20", "4"], ["L", "1", "2", "a", "f"]]);
    WrongParamsRun(lines, [["C", "20", "4"], ["L", "1", "2", "a", "f"]], written, err, steps, last);
  }

  lemma WrongParamsRun(lines: seq<string>, cmds: seq<seq<string>>, written: seq<string>, err: Option<Error>, steps: seq<Step>, last: Grid)
    requires cmds == [["C", "20", "4"], ["L", "1", "2", "a", "f"]]
    requires Reads(lines, cmds) && Ran([], lines, written, err, steps, last)
    ensures err == Some(FailedParam(LineKind, WrongType("x", "int", "str"))) && |written| == 1
  {
    AfterCanvas(lines, cmds, written, err, steps, last);
    LetterCoordinate();
    ProcessedRefused(steps[1].before, steps[1].line, steps[1].err, steps[1].after, LineKind, ["1", "2", "a", "f"]);
    RunStops(lines, written, err, steps, last, 1);
  }

  /** 'C 20 4\nB 111 2 o': the seed lies right of the 22-column grid; the
      canvas alone is written. */
  method FillOutOfCanvas() returns (written: seq<string>, err: Option<Error>)
    ensures err == Some(OutOfCanvas(FillKind)) && |written| == 1
  {
    ghost var steps, lines, last;
    written, err, steps, lines, last := RunScript([["C", "20", "4"], ["B", "111", "2", "o"]]);
    FillOutOfCanvasRun(lines, [["C", "20", "4"], ["B", "111", "2", "o"]], written, err, steps, last);
  }

  lemma FillOutOfCanvasRun(lines: seq<string>, cmds: seq<seq<string>>, written: seq<string>, err: Option<Error>, steps: seq<Step>, last: Grid)
    requires cmds == [["C", "20", "4"], ["B", "111", "2", "o"]]
    requires Reads(lines, cmds) && Ran([], lines, written, err, steps, last)
    ensures err == Some(OutOfCanvas(FillKind)) && |written| == 1
  {
    AfterCanvas(lines, cmds, written, err, steps, last);
    Numerals();
    FillRightOfFrame(steps[1].before, steps[1].line, steps[1].err, steps[1].after, 20, 4, 111, 2, "o");
    RunStops(lines, written, err, steps, last, 1);
  }

  /** 'C 20 4\nL 1 2 6 2\nL 6 3 6 4\nR 16 1 20 3\nB 10 3 o': every command
      fits the canvas, so the run ends cleanly with one text per line. */
  method AllDrawn() returns (written: seq<string>, err: Option<Error>)
    ensures err == None && |written| == 5
  {
    ghost var steps, lines, last;
    written, err, steps, lines, last := RunScript(
      [["C", "20", "4"], ["L", "1", "2", "6", "2"], ["L", "6", "3", "6", "4"], ["R", "16", "1", "20", "3"], ["B", "10", "3", "o"]]);
    AllDrawnRun(lines, [["C", "20", "4"], ["L", "1", "2", "6", "2"], ["L", "6", "3", "6", "4"], ["R", "16", "1", "20", "3"], ["B", "10", "3", "o"]],
      written, err, steps, last);
  }

  /** The two Lines of the clean run are drawn inside the frame. */
  lemma LinesDrawn(lines: seq<string>, cmds: seq<seq<string>>, written: seq<string>, err: Option<Error>, steps: seq<Step>, last: Grid)
    requires |cmds| == 5 && cmds[0] == ["C", "20", "4"]
    requires cmds[1] == ["L", "1", "2", "6", "2"] && cmds[2] == ["L", "6", "3", "6", "4"]
    requires Reads(lines, cmds) && Ran([], lines, written, err, steps, last)
    ensures 3 < |steps| && forall k | 0 <= k < 3 :: steps[k].err == None
    ensures BorderLocked(steps[3].before, 20, 4) && Done(steps[3]) && Split(steps[3].line, ' ') == cmds[3]
  {
    AfterCanvas(lines, cmds, written, err, steps, last);
    Numerals();
    LineInside(steps[1].before, steps[1].line, steps[1].err, steps[1].after, 20, 4, 1, 2, 6, 2);
    RunReaches(lines, written, err, steps, last, 2);
    LineInside(steps[2].before, steps[2].line, steps[2].err, steps[2].after, 20, 4, 6, 3, 6, 4);
    RunReaches(lines, written, err, steps, last, 3);
  }

  /** The Rectangle and the Fill of the clean run succeed too. */
  lemma BoxAndFillDrawn(lines: seq<string>, cmds: seq<seq<string>>, written: seq<string>, err: Option<Error>, steps: seq<Step>, last: Grid)
    requires |cmds| == 5 && cmds[3] == ["R", "16", "1", "20", "3"] && cmds[4] == ["B", "10", "3", "o"]
    requires Reads(lines, cmds) && Ran([], lines, written, err, steps, last)
    requires 3 < |steps| && forall k | 0 <= k < 3 :: steps[k].err == None
    requires BorderLocked(steps[3].before, 20, 4)
    ensures |steps| == 5 && forall k | 0 <= k < 5 :: steps[k].err == None
  {
    Numerals();
    RectangleInside(steps[3].before, steps[3].line, steps[3].err, steps[3].after, 20, 4, 16, 1, 20, 3);
    RunReaches(lines, written, err, steps, last, 4);
    FillInside(steps[4].before, steps[4].line, steps[4].err, steps[4].after, 20, 4, 10, 3, "o");
  }

  lemma AllDrawnRun(lines: seq<string>, cmds: seq<seq<string>>, written: seq<string>, err: Option<Error>, steps: seq<Step>, last: Grid)
    requires cmds == [["C", "20", "4"], ["L", "1", "2", "6", "2"], ["L", "6", "3", "6", "4"], ["R", "16", "1", "20", "3"], ["B", "10", "3", "o"]]
    requires Reads(lines, cmds) && Ran([], lines, written, err, steps, last)
    ensures err == None && |written| == 5
  {
    LinesDrawn(lines, cmds, written, err, steps, last);
    BoxAndFillDrawn(lines, cmds, written, err, steps, last);
    RunCompletes(lines, written, err, steps, last);
  }
}
