/** The shape classes of app.py (`Line`, `Rectangle`, `Fill`, `Canvas`) as
    values, and `Shape.validate_and_create`, which builds one from the text
    parameters of a command. */
module Shapes {
  import opened Errors
  import opened Utils
  import opened Points

  /** A `Line` object: its start and end points. */
  datatype Line = Line(start: Point, end: Point)

  datatype Shape =
    | LineShape(line: Line)
    | RectangleShape(corners: seq<Line>)
    | FillShape(seed: Point, symbol: string)
    | CanvasShape(width: int, height: int, hBorder: string, vBorder: string, corners: seq<Line>)

  function KindOf(s: Shape): ShapeKind
  {
    match s
    case LineShape(_) => LineKind
    case RectangleShape(_) => RectangleKind
    case FillShape(_, _) => FillKind
    case CanvasShape(_, _, _, _, _) => CanvasKind
  }

  /** `EXPECTED_ATTRS_QUANTITY` of each class. */
  function Arity(k: ShapeKind): nat
  {
    match k
    case LineKind => 4
    case RectangleKind => 4
    case FillKind => 3
    case CanvasKind => 2
  }

  /** The sides `Rectangle.__init__` builds, in order: top, right, bottom, left. */
  function BoxSides(x1: int, y1: int, x2: int, y2: int): seq<Line>
  {
    [Line(Point(x1, y1), Point(x2, y1)),
     Line(Point(x2, y1), Point(x2, y2)),
     Line(Point(x1, y2), Point(x2, y2)),
     Line(Point(x1, y1), Point(x1, y2))]
  }

  /** What every constructed shape satisfies. */
  predicate WellFormed(s: Shape)
  {
    match s
    case LineShape(l) => Valid(l.start) && Valid(l.end)
    case RectangleShape(cs) =>
      |cs| == 4 && Valid(cs[0].start) && Valid(cs[1].end) &&
      cs == BoxSides(cs[0].start.x, cs[0].start.y, cs[1].end.x, cs[1].end.y)
    case FillShape(p, _) => Valid(p)
    case CanvasShape(w, h, _, _, cs) => w >= -2 && h >= -2 && cs == BoxSides(0, 0, w + 1, h + 1)
  }

  /** `Line(x1, y1, x2, y2)` */
  function NewLine(x1: PyValue, y1: PyValue, x2: PyValue, y2: PyValue): (r: Result<Line>)
    ensures r.Ok? ==> Valid(r.value.start) && Valid(r.value.end)
    ensures r.Ok? ==> Coerce(IntType, x1) == Some(PInt(r.value.start.x)) && Coerce(IntType, y1) == Some(PInt(r.value.start.y))
    ensures r.Ok? ==> Coerce(IntType, x2) == Some(PInt(r.value.end.x)) && Coerce(IntType, y2) == Some(PInt(r.value.end.y))
    ensures Coerce(IntType, x1).None? ==> r == Err(WrongType("x", "int", TypeName(x1)))
    // built exactly when all four values are coordinates; the start point is built first
    ensures r.Ok? <==> Coordinate(x1) && Coordinate(y1) && Coordinate(x2) && Coordinate(y2)
    ensures NewPoint(x1, y1).Err? ==> r == Err(NewPoint(x1, y1).error)
    ensures NewPoint(x1, y1).Ok? && NewPoint(x2, y2).Err? ==> r == Err(NewPoint(x2, y2).error)
  {
    var start :- NewPoint(x1, y1);
    var end :- NewPoint(x2, y2);
    Ok(Line(start, end))
  }

  /** `Rectangle(x1, y1, x2, y2)`: its four sides, built in order. */
  function NewRectangle(x1: PyValue, y1: PyValue, x2: PyValue, y2: PyValue): (r: Result<Shape>)
    ensures r.Ok? ==> r.value.RectangleShape? && WellFormed(r.value)
    ensures r.Ok? ==> Coerce(IntType, x1) == Some(PInt(r.value.corners[0].start.x)) &&
                      Coerce(IntType, y1) == Some(PInt(r.value.corners[0].start.y))
    ensures r.Ok? ==> Coerce(IntType, x2) == Some(PInt(r.value.corners[1].end.x)) &&
                      Coerce(IntType, y2) == Some(PInt(r.value.corners[1].end.y))
    ensures Coerce(IntType, x1).None? ==> r == Err(WrongType("x", "int", TypeName(x1)))
    // built exactly when all four values are coordinates; the top side's
    // points (x1, y1) and (x2, y1) are built first, then (x2, y2)
    ensures r.Ok? <==> Coordinate(x1) && Coordinate(y1) && Coordinate(x2) && Coordinate(y2)
    ensures r.Ok? ==> r.value == RectangleShape(BoxSides(IntOf(x1).value, IntOf(y1).value, IntOf(x2).value, IntOf(y2).value))
    ensures NewPoint(x1, y1).Err? ==> r == Err(NewPoint(x1, y1).error)
    ensures NewPoint(x1, y1).Ok? && NewPoint(x2, y1).Err? ==> r == Err(NewPoint(x2, y1).error)
    ensures NewPoint(x1, y1).Ok? && NewPoint(x2, y1).Ok? && NewPoint(x2, y2).Err? ==> r == Err(NewPoint(x2, y2).error)
  {
    var top :- NewLine(x1, y1, x2, y1);
    var right :- NewLine(x2, y1, x2, y2);
    // the bottom and left sides reuse coordinates the first two sides
    // already stored, so building them cannot fail
    var bottom := NewLine(x1, y2, x2, y2).value;
    var left := NewLine(x1, y1, x1, y2).value;
    Ok(RectangleShape([top, right, bottom, left]))
  }

  /** `Canvas(width, height)`: the Rectangle from (0, 0) to
      (width + 1, height + 1), with the default border symbols. */
  function NewCanvas(width: int, height: int): (r: Result<Shape>)
    ensures r.Ok? ==> r.value.CanvasShape? && WellFormed(r.value)
    ensures r.Ok? <==> width >= -2 && height >= -2
    ensures r.Ok? ==> r.value.width == width && r.value.height == height
    ensures r.Ok? ==> r.value.hBorder == "-" && r.value.vBorder == "|"
    ensures r.Err? ==> r.error == BelowMinimum
  {
    var frame :- NewRectangle(PInt(0), PInt(0), PInt(width + 1), PInt(height + 1));
    Ok(CanvasShape(width, height, "-", "|", frame.corners))
  }

  /** `cls.constructor(*args)`: Canvas parses both texts with `int` first;
      the other classes hand the texts to their `__init__`. */
  function Construct(k: ShapeKind, args: seq<string>): (r: Result<Shape>)
    requires |args| == Arity(k)
    ensures r.Ok? ==> KindOf(r.value) == k && WellFormed(r.value)
    // Canvas: `int()` of the width first, then of the height
    ensures k == CanvasKind && ParseInt(args[0]).None? ==> r == Err(NotAnInt(args[0]))
    ensures k == CanvasKind && ParseInt(args[0]).Some? && ParseInt(args[1]).None? ==> r == Err(NotAnInt(args[1]))
    ensures k == CanvasKind && ParseInt(args[0]).Some? && ParseInt(args[1]).Some? ==>
              (r.Ok? <==> ParseInt(args[0]).value >= -2 && ParseInt(args[1]).value >= -2)
    ensures k == CanvasKind && r.Ok? ==>
              Some(r.value.width) == ParseInt(args[0]) && Some(r.value.height) == ParseInt(args[1])
    // the other classes: a non-numeric first coordinate is the TypeError of field x
    ensures k != CanvasKind && ParseInt(args[0]).None? ==> r == Err(WrongType("x", "int", "str"))
    // the other classes: built exactly when every coordinate text is an
    // integer of at least -1, with those integers as coordinates
    ensures k == FillKind ==> (r.Ok? <==> Coordinate(PStr(args[0])) && Coordinate(PStr(args[1])))
    ensures k == FillKind && r.Ok? ==> r.value == FillShape(Point(ParseInt(args[0]).value, ParseInt(args[1]).value), args[2])
    ensures k == LineKind || k == RectangleKind ==>
              (r.Ok? <==> Coordinate(PStr(args[0])) && Coordinate(PStr(args[1])) &&
                          Coordinate(PStr(args[2])) && Coordinate(PStr(args[3])))
    ensures k == LineKind && r.Ok? ==>
              r.value == LineShape(Line(Point(ParseInt(args[0]).value, ParseInt(args[1]).value),
                                        Point(ParseInt(args[2]).value, ParseInt(args[3]).value)))
    ensures k == RectangleKind && r.Ok? ==>
              r.value == RectangleShape(BoxSides(ParseInt(args[0]).value, ParseInt(args[1]).value,
                                                 ParseInt(args[2]).value, ParseInt(args[3]).value))
    ensures k != CanvasKind && r.Err? ==>
              r.error in {BelowMinimum, WrongType("x", "int", "str"), WrongType("y", "int", "str")}
  {
    match k
    case LineKind =>
      var l :- NewLine(PStr(args[0]), PStr(args[1]), PStr(args[2]), PStr(args[3]));
      Ok(LineShape(l))
    case RectangleKind => NewRectangle(PStr(args[0]), PStr(args[1]), PStr(args[2]), PStr(args[3]))
    case FillKind =>
      var p :- NewPoint(PStr(args[0]), PStr(args[1]));
      Ok(FillShape(p, args[2]))
    case CanvasKind =>
      match ParseInt(args[0])
      case None => Err(NotAnInt(args[0]))
      case Some(w) =>
        match ParseInt(args[1])
        case None => Err(NotAnInt(args[1]))
        case Some(h) => NewCanvas(w, h)
  }

  /** `validate_and_create`: a wrong parameter count is refused with the
      expected and the given count; with the right count every construction
      failure comes back tagged FAILED_PARAM with the class. */
  function ValidateAndCreate(k: ShapeKind, args: seq<string>): (r: Result<Shape>)
    ensures |args| != Arity(k) ==> r == Err(WrongArity(k, Arity(k), |args|))
    ensures |args| == Arity(k) && r.Err? ==> r.error.FailedParam? && r.error.shape == k
    ensures r.Ok? ==> |args| == Arity(k) && KindOf(r.value) == k && WellFormed(r.value)
  {
    if |args| == Arity(k) then
      match Construct(k, args)
      case Ok(s) => Ok(s)
      case Err(e) => Err(FailedParam(k, e))
    else
      Err(WrongArity(k, Arity(k), |args|))
  }

  /** Formatted integers read back as the points of a Line. */
  lemma LineFromText(a: int, b: int, c: int, d: int)
    ensures ValidateAndCreate(LineKind, [FormatInt(a), FormatInt(b), FormatInt(c), FormatInt(d)])
            == if a < -1 || b < -1 || c < -1 || d < -1 then Err(FailedParam(LineKind, BelowMinimum))
               else Ok(LineShape(Line(Point(a, b), Point(c, d))))
  {
    NewPointFromText(a, b);
    NewPointFromText(c, d);
  }

  /** Formatted integers read back as the four sides of a Rectangle. */
  lemma RectangleFromText(a: int, b: int, c: int, d: int)
    ensures ValidateAndCreate(RectangleKind, [FormatInt(a), FormatInt(b), FormatInt(c), FormatInt(d)])
            == if a < -1 || b < -1 || c < -1 || d < -1 then Err(FailedParam(RectangleKind, BelowMinimum))
               else Ok(RectangleShape(BoxSides(a, b, c, d)))
  {
    NewPointFromText(a, b);
    NewPointFromText(c, b);
    NewPointFromText(c, d);
    NewPointFromText(a, d);
  }

  /** Formatted integers and a symbol read back as a Fill. */
  lemma FillFromText(a: int, b: int, symbol: string)
    ensures ValidateAndCreate(FillKind, [FormatInt(a), FormatInt(b), symbol])
            == if a < -1 || b < -1 then Err(FailedParam(FillKind, BelowMinimum))
               else Ok(FillShape(Point(a, b), symbol))
  {
    NewPointFromText(a, b);
  }

  /** A Canvas accepts any width and height from -2 up (the frame's far
      corner must pass `validate_int`) and uses the default border symbols. */
  lemma CanvasFromText(w: int, h: int)
    ensures ValidateAndCreate(CanvasKind, [FormatInt(w), FormatInt(h)])
            == if w < -2 || h < -2 then Err(FailedParam(CanvasKind, BelowMinimum))
               else Ok(CanvasShape(w, h, "-", "|", BoxSides(0, 0, w + 1, h + 1)))
  {
    ParseFormat(w);
    ParseFormat(h);
  }

  /** A coordinate that is not an integer literal fails as a TypeError of the
      field `x`, tagged with the class; a Canvas size fails in `int` itself. */
  lemma NonNumericRejected(k: ShapeKind, args: seq<string>)
    requires |args| == Arity(k) && ParseInt(args[0]).None?
    ensures k != CanvasKind ==> ValidateAndCreate(k, args) == Err(FailedParam(k, WrongType("x", "int", "str")))
    ensures k == CanvasKind ==> ValidateAndCreate(k, args) == Err(FailedParam(k, NotAnInt(args[0])))
  {
  }
}
