# draw_on_python, modelled in Dafny

draw_on_python is a small interpreter for drawing commands on a character
grid. An input file holds one command per line:

- `C w h` — a canvas: a fresh `(h + 2) x (w + 2)` grid with a `-`/`|` frame;
- `L x1 y1 x2 y2` — a horizontal or vertical line of `x`;
- `R x1 y1 x2 y2` — a rectangle outline of `x`;
- `B x y c` — a flood fill with symbol `c` from the seed `(x, y)`.

After each command that succeeds, the whole grid is written out as text. The
first command that fails ends the run.

This project models the engine of `app.py`:

- `Point` and its `+`;
- the shape classes and `Shape.validate_and_create`;
- `draw_line`, `Line.draw`, `Rectangle.draw` and `Canvas.draw`;
- the flood fill `Fill._sunshine`;
- `Creator.process_line`, `Creator.prepare_write_to_file`, and the
  one-snapshot-per-line loop of `Creator.execute`.

It also models the attribute descriptor `Attr` of `utils/utils.py` and its
validator `validate_int`.

The model keeps to the shape of the code:

- Pure code (`validate_int`, `_validate_value`, `Point.__add__`, the
  constructors, `validate_and_create`) becomes functions over datatypes.
- The loops that assign grid cells (`draw_line`, `Rectangle.draw`,
  `Canvas.draw`, `prepare_write_to_file`) become methods with loop
  invariants.
- The recursive fill becomes a recursive method.
- `Creator` becomes a class whose `matrix` field `ProcessLine` and `Execute`
  reassign.
- The per-instance dictionary behind `Attr.__set__`/`__get__` becomes the
  `fields` map of an `Instance` object.

A grid is a sequence of rows of cells. A cell is `Plain(s)` (a Python string:
a blank or a fill symbol) or `Locked(s)` (a Python 1-tuple, as written by
`draw_line`). Python's negative indices are modelled: `-1` reaches the last
row or column. Every exception the code raises becomes an `Err` value, tagged
with its kind and the class it names.

Modules, one per file:

- `Errors` (errors.dfy)
- `Utils` (utils.dfy)
- `Points` (points.dfy)
- `Grids` (grid.dfy)
- `Lines` (lines.dfy)
- `Shapes` (shapes.dfy)
- `Figures` (figures.dfy)
- `FloodFill` (fill.dfy)
- `Text` (text.dfy): the `str.split`, `str.rstrip` and `readline` behaviour
  the driver relies on
- `Drawing` (creator.dfy)
- `Scenarios` (scenarios.dfy): the command files of `tests/test_creator.py`,
  run through the model

## Behaviour worth knowing

- **Horizontal segments.** Both branches of `draw_line` write 1-tuples, so
  horizontal cells are locked just like vertical ones. For
  `start.x <= end.x`, the horizontal range
  `range(min(start.x, end.x + 1), max(start.x, end.x + 1))` covers
  `start.x..end.x` inclusive. Written right to left, it covers only the
  columns strictly between the two ends.
- **Adding points.** `Point.__add__` builds a new `Point` through the
  validating descriptors. A fill neighbour with a coordinate below -1
  therefore raises `ValueError` from `validate_int`, before any index is
  tried.
- **The neighbour table.** The fill's table lists `(1, -1)` twice and never
  `(-1, 1)`, so the fill never steps down-left. `FloodFill.DownLeftSkipped`
  shows a blank cell reachable only that way, which the fill leaves blank.

## Model

| member | source | states |
|---|---|---|
| Utils.ValidateInt | utils/utils.py:34-38 | an integer comes back unchanged exactly when it is at least -1; below that the result is the ValueError (BelowMinimum) |
| Utils.ValidateIntThreshold | utils/utils.py:35-36 | -1 is accepted and -2 rejected: -1 is the smallest accepted coordinate |
| Utils.ValidateValue | utils/utils.py:17-27 | with `modify_type`, succeeds exactly when the coercion does and returns `var_type(value)`; without it, fails exactly on a truthy value of another type and otherwise returns the value itself; every failure is the TypeError naming the field, the expected type and the received type |
| Utils.ParseFormat | utils/utils.py:19-20 | `int()` reads back every integer `str()` prints |
| Utils.Store | utils/utils.py:17-31 | with `modify_type`, a failed coercion, and only that, is a TypeError naming the field, the expected type and the received type; otherwise the validator runs on the coerced value and its own error is not wrapped; without `modify_type`, falsy values skip the type check and truthy values of another type fail; the stored value is the coerced input, at least -1 under `validate_int` |
| Utils.Get | utils/utils.py:12-15 | reading a field succeeds exactly when it was stored, and fails with a KeyError otherwise |
| Utils.Set | utils/utils.py:29-31 | on success the instance dictionary gains the stored value under the field's name and nothing else changes, and reading the field gives exactly that value; on failure the error is returned and the dictionary is unchanged |
| Points.NewPoint | app.py:9-12 | a point is built exactly when `int()` of both values succeeds and is at least -1, and then holds those integers; otherwise x is stored first: its TypeError or ValueError comes before any of y |
| Points.LenientText | app.py:9-12 | `int()` accepts `"07"` and `"+3"`, so those texts build (7, 3); `("1", "q")` fails as a TypeError of field `y` |
| Points.Add | app.py:14-15 | succeeds exactly when both component sums are at least -1 and then is the component-wise sum; otherwise BelowMinimum |
| Points.SetY | app.py:146-147 | assigning y succeeds exactly when the new value is at least -1, and changes y only |
| Points.NewPointFromText | app.py:9-12 | the decimal texts of two integers build that point, or fail with BelowMinimum when one is below -1 |
| Shapes.NewLine | app.py:61-63 | a Line is built exactly when all four values are accepted coordinates, its end points holding `int()` of them; otherwise the start point's error comes first, then the end point's |
| Shapes.NewRectangle | app.py:72-76 | a Rectangle is built exactly when all four values are accepted coordinates, and is then the sides top, right, bottom, left of the box with corners `int()` of them; otherwise the error is that of the first failing point in the order (x1, y1), (x2, y1), (x2, y2) |
| Shapes.NewCanvas | app.py:121-126 | a Canvas is built exactly when width and height are at least -2; it keeps the given width and height, the symbols `-` and `|`, and the Rectangle from (0, 0) to (width + 1, height + 1); otherwise BelowMinimum |
| Shapes.Construct | app.py:128-135 | `cls.constructor(*args)`: a Canvas runs `int()` on the width, then on the height, and the first text that is not an integer is the ValueError naming it; with two integers it is built exactly when both are at least -2, keeping them as width and height; for Line, Rectangle and Fill, the shape is built exactly when every coordinate text is an integer of at least -1, and holds those integers (and the Fill symbol); their errors are BelowMinimum or the TypeError of field `x` or `y`, a non-integer first text being the one of `x`; a success is a well-formed shape of the class |
| Shapes.ValidateAndCreate | app.py:25-36 | a wrong argument count fails with the expected count (4, 4, 3, 2) and the given one; with the right count every failure is FAILED_PARAM naming the class; a success is a well-formed shape of the class asked for |
| Shapes.LineFromText | app.py:58-63 | the texts of four integers build the Line between the two points, or FAILED_PARAM(BelowMinimum) |
| Shapes.RectangleFromText | app.py:69-76 | the texts of four integers build the Rectangle with those corners, or FAILED_PARAM(BelowMinimum) |
| Shapes.FillFromText | app.py:84-99 | two integer texts and a symbol build the Fill seeded there, or FAILED_PARAM(BelowMinimum) |
| Shapes.CanvasFromText | app.py:118-135 | a Canvas accepts any width and height from -2 up, with the frame `BoxSides(0, 0, w + 1, h + 1)` and symbols `-` and `|` |
| Shapes.NonNumericRejected | app.py:26-31 | a first parameter that is not an integer is FAILED_PARAM of a TypeError on `x`, or for a Canvas of `int()`'s ValueError |
| Grids.SetCell | app.py:44-45 | assigning one cell changes that cell, resolving negative indices, and no other |
| Lines.LineOrder | app.py:43-50 | the indices `draw_line` assigns (`LinePositions`, the two `range`s), in order: a vertical segment stays in column start.x and steps one row down each time; a horizontal one stays in row start.y and steps one column right |
| Lines.SegmentCells | app.py:43-50 | a vertical segment covers rows start.y..end.y inclusive (none when upside down); a horizontal one covers start.x..end.x inclusive, or only the columns strictly between when written right to left; a diagonal covers nothing |
| Lines.DrawLine | app.py:41-55 | fails, naming the shape, exactly when an index it touches is outside the grid (the horizontal branch also fetches its row first); otherwise locks every cell of the segment and changes nothing else; a diagonal returns the grid unchanged |
| Lines.DrawColumn | app.py:43-45 | the vertical branch: fails exactly when a cell of the segment (its row or its column) is missing, else locks the column cells |
| Lines.DrawRow | app.py:47-51 | the horizontal branch: fails exactly when the row or a column is missing, else locks the row cells |
| Figures.LineDraw | app.py:65-66 | `Line.draw` is `draw_line` with `x`, failing as Line |
| Figures.RectangleDraw | app.py:78-81 | fails as Rectangle exactly when some side does not fit; otherwise locks the cells of all four sides and nothing else |
| Figures.BoxOutline | app.py:72-76 | for x1 <= x2 and y1 <= y2 the four sides cover exactly the outline of the box |
| Figures.RectangleOutline | app.py:72-81 | after drawing such a box, every outline cell is locked `x`, and every changed cell is on the outline |
| Figures.FrameUnique | app.py:137-150 | a grid holds at most one frame of a given size and symbols |
| Figures.FrameStep | app.py:141-149 | each side the canvas loop draws fits the fresh grid and extends the frame by that side |
| Figures.CanvasDrawSide | app.py:142-149 | a vertical side is shortened by one cell at each end through the y descriptor, then drawn: it succeeds exactly when the shortened end stays at least -1 and the segment fits, and then locks its cells; it fails only as Canvas, or as BelowMinimum when the end is above row 0 |
| Figures.CanvasDraw | app.py:137-150 | ignores the grid it is given; the result has h + 2 rows of w + 2 cells; for w, h >= 0 it is the frame: rows 0 and h + 1 locked `-`, columns 0 and w + 1 of rows 1..h locked `|`, blank inside; h = -2 fails as Canvas |
| FloodFill.VectorTable | app.py:86-95 | the table has 8 entries, (1, -1) twice, never (-1, 1), all within one step |
| FloodFill.UnfilledStep | app.py:107-108 | the number of fillable cells drops when a fill writes one: the recursion terminates |
| FloodFill.Sunshine | app.py:104-115 | a seed outside the grid is an IndexError naming Fill; the only other failure is the ValueError of a neighbour coordinate below -1; a seed that is locked or holds the symbol returns the grid unchanged; on success only fillable cells change, each to the symbol as a plain cell, the seed is done, and every changed cell has every neighbour in the table inside the grid and done; inside any region that encloses the seed the fill succeeds and changes nothing outside that region |
| FloodFill.FillAgain | app.py:104-113 | a second fill from the same seed returns the grid of the first unchanged |
| FloodFill.FilledStaysOpen | app.py:107-108 | a cell a fill wrote can be filled again exactly by a fill with another symbol |
| FloodFill.FrameBorderLocked | app.py:137-150 | a canvas frame has its whole border locked |
| FloodFill.StampKeepsBorder | app.py:41-53 | drawing segments keeps the border locked |
| FloodFill.FillKeepsBorder | app.py:104-113 | a fill keeps the border locked |
| FloodFill.BorderEncloses | app.py:104-113 | behind a locked border the interior is a region the fill cannot leave |
| FloodFill.DownLeftSkipped | app.py:86-95 | on a concrete grid a fill succeeds yet leaves blank the cell diagonally down-left of its seed, reachable only through the missing (-1, 1) |
| Text.SplitJoin | app.py:177 | joining the pieces of `split(sep)` gives the text back |
| Text.SplitPieces | app.py:177 | no piece of `split(sep)` holds the separator |
| Text.JoinSplit | app.py:177 | separator-free pieces, joined and split again, come back |
| Text.RStrip | app.py:170 | `rstrip()` gives the longest prefix that does not end in whitespace |
| Text.ReadLinesShape | app.py:169 | `readline` yields nonempty lines, each ending at its only newline, except possibly the last |
| Text.ReadLinesConcat | app.py:169 | the lines `readline` yields make up the whole text |
| Text.ReadLinesJoin | app.py:169 | newline-free lines joined by newlines are read back one by one, each but the last with its newline |
| Drawing.ShapeFor | app.py:154-159 | a command letter names a class exactly when it is that class's key |
| Drawing.Draw | app.py:190 | `obj.draw(matrix)` keeps the contract of the class drawn |
| Drawing.PrepareWriteToFile | app.py:195-200 | the text is the snapshot: the rows' cell texts concatenated, joined by newlines, with a final newline |
| Drawing.SnapshotRows | app.py:195-200 | a snapshot ends in a newline and, before it, splits at newlines back into the rows' texts |
| Drawing.RowTextChars | app.py:199 | a row of one-character cells renders as exactly those characters |
| Drawing.Creator.constructor | app.py:161-165 | a new creator has an empty grid |
| Drawing.Creator.ProcessLine | app.py:175-193 | the first word picks the class or the result is NO_FIGURE; then the object is built or its error raised; then a non-Canvas on an empty grid is NO_CANVAS; then the grid becomes the draw result, or the draw error is raised with the grid kept |
| Drawing.Creator.Execute | app.py:167-173 | one step per line read, each processing the right-stripped line from the grid the previous step left; one snapshot per success; either every line succeeds or the run stops at the first failure and reports it |
| Scenarios.CanvasCommand | app.py:137-150 | `C 20 4` succeeds on any grid and leaves a 22 x 6 grid with a locked border |
| Scenarios.LineBeforeCanvas | app.py:187-188 | `L 1 2 1 8` on an empty grid is NO_CANVAS |
| Scenarios.LetterCoordinate | app.py:26-31 | `L 1 2 a f` fails as FAILED_PARAM of Line on a TypeError for field `x` |
| Scenarios.LineInside | app.py:65-66 | a Line with both ends inside a framed grid is drawn and keeps the border locked |
| Scenarios.RectangleInside | app.py:78-81 | a Rectangle with its corners inside a framed grid is drawn and keeps the border locked |
| Scenarios.FillInside | app.py:104-113 | a Fill seeded inside the frame succeeds, keeps the border locked and changes only interior cells |
| Scenarios.FillRightOfFrame | app.py:104-115 | a Fill seeded right of the grid is an IndexError naming Fill |
| Scenarios.ScriptLines | app.py:169-177 | the lines read from a file of commands, right-stripped and split at spaces, are those commands |
| Scenarios.RunStops | app.py:167-173 | a run stops at the first failing line, having written one text per line before it |
| Scenarios.RunCompletes | app.py:167-173 | a run whose every line succeeds writes one text per line |
| Scenarios.RunScript | app.py:161-173 | a fresh creator executing a file of commands reads them back as those commands |
| Scenarios.AllDrawn | tests/test_creator.py:14-21 | the five-command file succeeds and writes 5 texts |
| Scenarios.BlankLine | tests/test_creator.py:23-32 | `\n` fails with NO_FIGURE for the empty word, writing nothing |
| Scenarios.UnknownShapeName | tests/test_creator.py:34-43 | `C 20 4` then `D 1 2 6 2` fails with NO_FIGURE `D` after 1 text |
| Scenarios.MissingParams | tests/test_creator.py:45-54 | `C 20 4` then `L 1 2` fails as "expected 4 params, but 2 were given" after 1 text |
| Scenarios.WrongParams | tests/test_creator.py:56-65 | `C 20 4` then `L 1 2 a f` fails as FAILED_PARAM of Line after 1 text |
| Scenarios.FillOutOfCanvas | tests/test_creator.py:67-76 | `C 20 4` then `B 111 2 o` fails as an IndexError naming Fill after 1 text |
| Scenarios.NoCanvasFirst | tests/test_creator.py:78-87 | `L 1 2 1 8` then `C 20 4` fails with NO_CANVAS, writing nothing |

## Left out

- File handling in `Creator.execute`:
  - Opening, reading and writing files is left out. `Execute` takes the input
    text and returns the texts it would write.
  - A missing input file (`FileNotFoundError`) is therefore not modelled.
  - Text-mode newline translation (`\r\n`) is not modelled.
- `copy.deepcopy` before rendering has no counterpart. The Python
  `prepare_write_to_file` destroys its argument: it overwrites each row, and
  each cell, with its joined text, which is why `execute` renders a deep copy.
  `Drawing.PrepareWriteToFile` takes the grid as a value and returns the
  text, so the grid cannot be changed and needs no copy.
- The `__main__` block is left out.
- Python's recursion limit is left out. On a large canvas the fill could run
  out of stack; that is a runtime limit, not behaviour the code specifies.
- Drawing.Creator.ProcessLine and Drawing.Creator.Execute: a draw that
  fails part way is modelled as changing nothing. In Python, `draw_line` and
  `_sunshine` write into `self.matrix` in place. A Line, Rectangle or Fill
  that raises after writing some cells leaves those cells written. The model
  keeps the grid exactly as it was before the command.
  - Within one `execute` no later snapshot shows the difference, because the
    error ends the run.
  - `execute` never resets `self.matrix` (it is set only in `__init__`). A
    second `Execute` on the same `Creator` therefore starts, in Python, from
    the partly drawn grid, and the model diverges there.
- Shared mutable objects:
  - `Canvas.draw` shortens the vertical sides by changing the corner
    `Point`s inside the Canvas object.
  - The model computes the shortened segment without changing the shape
    value. Each command builds a fresh object, so nothing else sees those
    points.
- Python's `int()` on strings is modelled only in part: an optional sign
  followed by ASCII digits. Surrounding whitespace, underscores and non-ASCII
  digits are not modelled.
- The message texts come from a constants module that is not part of this
  model. Each error is a tag with its kind and arguments.
- Descriptor machinery is left out:
  - `__set_name__`;
  - the class-access branch of `__get__`;
  - the `dataclass` and `fields` reflection.
  `Point` is a record whose constructor stores x and then y through
  `Store`.
- FloodFill.Sunshine: does not state the exact set of cells a fill writes.
  It states only the bounds that set must meet, which are listed under
  "## Model".
- Figures.CanvasDraw: for a width or height between -2 and -1 (other than
  height -2), it states only the result's size and the error's kind, not the
  cells.
