/** `Point` of app.py: a pair of coordinates, each held by an attribute
    descriptor that coerces with `int` and validates with `validate_int`. */
module Points {
  import opened Errors
  import opened Utils

  datatype Point = Point(x: int, y: int)

  const XField: Attr := Attr("x", IntType, ValidateIntFunc, true)
  const YField: Attr := Attr("y", IntType, ValidateIntFunc, true)

  /** What every stored coordinate satisfies. */
  predicate Valid(p: Point) { p.x >= -1 && p.y >= -1 }

  /** `int(value)`, as a coordinate descriptor computes it, when it succeeds. */
  function IntOf(v: PyValue): (n: Option<int>)
    ensures n.Some? <==> Coerce(IntType, v).Some?
    ensures n.Some? ==> Coerce(IntType, v) == Some(PInt(n.value))
  {
    match Coerce(IntType, v)
    case Some(PInt(i)) => Some(i)
    case _ => None
  }

  /** A value a coordinate descriptor accepts: `int()` of it is at least -1. */
  predicate Coordinate(v: PyValue)
  {
    IntOf(v).Some? && IntOf(v).value >= -1
  }

  /** `Point(x, y)`: stores x, then y, each through its descriptor. It is
      built exactly when both values are coordinates; otherwise the first
      failing store raises, x before y. */
  function NewPoint(x: PyValue, y: PyValue): (r: Result<Point>)
    ensures r.Ok? <==> Coordinate(x) && Coordinate(y)
    ensures r.Ok? ==> Valid(r.value) && r.value == Point(IntOf(x).value, IntOf(y).value)
    ensures r.Ok? ==> Coerce(IntType, x) == Some(PInt(r.value.x)) && Coerce(IntType, y) == Some(PInt(r.value.y))
    ensures Coerce(IntType, x).None? ==> r == Err(WrongType("x", "int", TypeName(x)))
    ensures IntOf(x).Some? && IntOf(x).value < -1 ==> r == Err(BelowMinimum)
    ensures Coordinate(x) && IntOf(y).None? ==> r == Err(WrongType("y", "int", TypeName(y)))
    ensures Coordinate(x) && IntOf(y).Some? && IntOf(y).value < -1 ==> r == Err(BelowMinimum)
    ensures r.Err? ==> r.error == BelowMinimum || r.error.WrongType?
  {
    var sx :- Store(XField, x);
    var sy :- Store(YField, y);
    Ok(Point(sx.i, sy.i))
  }

  /** `a + b`: the component-wise sum, built as a new Point, so a sum below
      -1 fails validation. */
  function Add(a: Point, b: Point): (r: Result<Point>)
    ensures r.Ok? <==> a.x + b.x >= -1 && a.y + b.y >= -1
    ensures r.Ok? ==> r.value == Point(a.x + b.x, a.y + b.y)
    ensures r.Err? ==> r.error == BelowMinimum
  {
    NewPoint(PInt(a.x + b.x), PInt(a.y + b.y))
  }

  /** `p.y = v` (as in `corner.start.y += 1`): the y descriptor validates v. */
  function SetY(p: Point, v: int): (r: Result<Point>)
    ensures r.Ok? <==> v >= -1
    ensures r.Ok? ==> r.value == Point(p.x, v)
    ensures r.Err? ==> r.error == BelowMinimum
  {
    var sy :- Store(YField, PInt(v));
    Ok(Point(p.x, sy.i))
  }

  /** `int()` also reads leading zeros and an explicit plus sign. */
  lemma LenientText()
    ensures NewPoint(PStr("07"), PStr("+3")) == Ok(Point(7, 3))
    ensures NewPoint(PStr("1"), PStr("q")) == Err(WrongType("y", "int", "str"))
  {
    assert ParseInt("07") == Some(7) by {
      assert DigitsValue("07") == DigitsValue("0") * 10 + 7;
    }
    assert ParseInt("+3") == Some(3) by {
      assert "+3"[1..] == "3";
    }
    assert ParseInt("1") == Some(1);
    assert ParseInt("q") == None by {
      assert !IsDigit('q');
    }
  }

  /** A point read from the decimal texts of two integers is those integers,
      or BelowMinimum when one is below -1. */
  lemma NewPointFromText(x: int, y: int)
    ensures NewPoint(PStr(FormatInt(x)), PStr(FormatInt(y)))
            == if x < -1 || y < -1 then Err(BelowMinimum) else Ok(Point(x, y))
  {
    ParseFormat(x);
    ParseFormat(y);
  }
}
