/** The attribute descriptor of utils/utils.py: a field that coerces or
    type-checks the value it is given, runs an optional validator on it and
    stores the outcome in the owning instance; and `validate_int`, the
    validator every coordinate goes through. */
module Utils {
  import opened Errors

  /** The Python values an attribute can be handed. `bool` is a subclass of
      `int` in Python, which IsInstance reflects. */
  datatype PyValue = PInt(i: int) | PBool(b: bool) | PStr(s: string) | PNone

  /** The types an attribute can be declared with (`var_type`). */
  datatype PyType = IntType | StrType

  /** `type(value).__name__` */
  function TypeName(v: PyValue): string
  {
    match v
    case PInt(_) => "int"
    case PBool(_) => "bool"
    case PStr(_) => "str"
    case PNone => "NoneType"
  }

  /** `var_type.__name__` */
  function PyTypeName(t: PyType): string
  {
    match t
    case IntType => "int"
    case StrType => "str"
  }

  /** Python truthiness: zero, False, the empty string and None are falsy. */
  predicate Truthy(v: PyValue)
  {
    match v
    case PInt(i) => i != 0
    case PBool(b) => b
    case PStr(s) => s != ""
    case PNone => false
  }

  /** `isinstance(value, var_type)` */
  predicate IsInstance(v: PyValue, t: PyType)
  {
    match t
    case IntType => v.PInt? || v.PBool?
    case StrType => v.PStr?
  }

  // ---------------------------------------------------------------------
  // Decimal literals: what `int(text)` accepts and what `str(n)` produces.

  predicate IsDigit(c: char) { '0' <= c <= '9' }

  predicate AllDigits(s: string) { forall k | 0 <= k < |s| :: IsDigit(s[k]) }

  /** The value of a string of decimal digits, most significant first. */
  function DigitsValue(s: string): nat
    requires AllDigits(s)
  {
    if s == [] then 0
    else DigitsValue(s[..|s| - 1]) * 10 + (s[|s| - 1] as int - '0' as int)
  }

  /** `int(text)` on a plain decimal literal with an optional sign. */
  function ParseInt(s: string): Option<int>
  {
    if |s| > 0 && AllDigits(s) then Some(DigitsValue(s))
    else if |s| > 1 && s[0] == '-' && AllDigits(s[1..]) then Some(-(DigitsValue(s[1..]) as int))
    else if |s| > 1 && s[0] == '+' && AllDigits(s[1..]) then Some(DigitsValue(s[1..]))
    else None
  }

  function DigitChar(d: nat): char
    requires d < 10
  {
    ('0' as int + d) as char
  }

  /** `str(n)` for a natural number: its decimal digits, which read back as n. */
  function FormatNat(n: nat): (s: string)
    ensures |s| > 0 && AllDigits(s) && DigitsValue(s) == n
  {
    if n < 10 then [DigitChar(n)]
    else
      var prefix := FormatNat(n / 10);
      var s := prefix + [DigitChar(n % 10)];
      assert s[..|s| - 1] == prefix;
      s
  }

  /** `str(i)` for any integer. */
  function FormatInt(i: int): string
  {
    if i < 0 then "-" + FormatNat(-i) else FormatNat(i)
  }

  /** Parsing reads back every integer that `str` prints. */
  lemma ParseFormat(i: int)
    ensures ParseInt(FormatInt(i)) == Some(i)
  {
    if i < 0 {
      var s := FormatInt(i);
      assert s[1..] == FormatNat(-i);
    }
  }

  /** `int(value)` (`var_type` int) or `str(value)` (`var_type` str); None
      when Python raises. */
  function Coerce(t: PyType, v: PyValue): Option<PyValue>
  {
    match t
    case IntType =>
      (match v
       case PInt(i) => Some(v)
       case PBool(b) => Some(PInt(if b then 1 else 0))
       case PStr(s) => (match ParseInt(s) case Some(n) => Some(PInt(n)) case None => None)
       case PNone => None)
    case StrType =>
      (match v
       case PInt(i) => Some(PStr(FormatInt(i)))
       case PBool(b) => Some(PStr(if b then "True" else "False"))
       case PStr(s) => Some(v)
       case PNone => Some(PStr("None")))
  }

  // ---------------------------------------------------------------------
  // validate_int

  /** `validate_int`: hands back its argument when it is not below -1.
      A string or None cannot be compared with -1 at all. */
  function ValidateInt(v: PyValue): (r: Result<PyValue>)
    ensures r.Ok? ==> r.value == v
    ensures v.PInt? ==> (r.Ok? <==> v.i >= -1)
    ensures v.PInt? && r.Err? ==> r.error == BelowMinimum
  {
    match v
    case PInt(i) => if i < -1 then Err(BelowMinimum) else Ok(v)
    case PBool(_) => Ok(v)
    case _ => Err(Unorderable)
  }

  /** -1 is the smallest value `validate_int` lets through. */
  lemma ValidateIntThreshold(i: int)
    ensures ValidateInt(PInt(i)).Ok? <==> i >= -1
    ensures ValidateInt(PInt(-1)) == Ok(PInt(-1))
    ensures ValidateInt(PInt(-2)) == Err(BelowMinimum)
  {
  }

  // ---------------------------------------------------------------------
  // Attr

  /** The optional validator (`func`) an attribute runs on its value. */
  datatype Validator = NoValidator | ValidateIntFunc

  function ApplyValidator(f: Validator, v: PyValue): Result<PyValue>
  {
    match f
    case NoValidator => Ok(v)
    case ValidateIntFunc => ValidateInt(v)
  }

  /** `Attr(var_type, func, modify_type)` bound to the field `name`. */
  datatype Attr = Attr(name: string, varType: PyType, func: Validator, modifyType: bool)

  /** `_validate_value`: coerce with `var_type` when `modify_type` is set,
      otherwise reject a truthy value of the wrong type; any failure becomes a
      TypeError naming the field, the expected and the received type. */
  function ValidateValue(a: Attr, v: PyValue): (r: Result<PyValue>)
    ensures a.modifyType ==> (r.Ok? <==> Coerce(a.varType, v).Some?)
    ensures !a.modifyType ==> (r.Err? <==> Truthy(v) && !IsInstance(v, a.varType))
    ensures r.Err? ==> r.error == WrongType(a.name, PyTypeName(a.varType), TypeName(v))
    // what passes is of the field's type, unless it is a falsy value let through unchecked
    ensures r.Ok? ==> IsInstance(r.value, a.varType) || (!a.modifyType && !Truthy(v) && r.value == v)
    // what passes is `var_type(value)` under `modify_type`, else the value itself
    ensures r.Ok? ==> r.value == if a.modifyType then Coerce(a.varType, v).value else v
  {
    var failure := WrongType(a.name, PyTypeName(a.varType), TypeName(v));
    if a.modifyType then
      match Coerce(a.varType, v)
      case Some(c) => Ok(c)
      case None => Err(failure)
    else if Truthy(v) && !IsInstance(v, a.varType) then Err(failure)
    else Ok(v)
  }

  /** What `__set__` stores: the validated value passed through `func`. */
  function Store(a: Attr, v: PyValue): (r: Result<PyValue>)
    // a TypeError comes only from the coercion stage and names field and types
    ensures r.Err? && r.error.WrongType? ==>
              ValidateValue(a, v).Err? && r.error == WrongType(a.name, PyTypeName(a.varType), TypeName(v))
    ensures a.modifyType ==> (Coerce(a.varType, v).None? <==> r.Err? && r.error.WrongType?)
    // the validator runs on the coerced value, and its own error is not wrapped
    ensures a.modifyType && Coerce(a.varType, v).Some? ==> r == ApplyValidator(a.func, Coerce(a.varType, v).value)
    // without coercion, falsy values skip the type check and truthy ones of another type fail
    ensures !a.modifyType && !Truthy(v) ==> r == ApplyValidator(a.func, v)
    ensures !a.modifyType && Truthy(v) && !IsInstance(v, a.varType) ==> r.Err? && r.error.WrongType?
    // the value stored is the (coerced) input itself: both validators return their argument
    ensures r.Ok? ==> r.value == if a.modifyType then Coerce(a.varType, v).value else v
    ensures a.modifyType && a.varType == IntType && r.Ok? ==> r.value.PInt?
    ensures a.func == ValidateIntFunc && r.Ok? && r.value.PInt? ==> r.value.i >= -1
  {
    var c :- ValidateValue(a, v);
    ApplyValidator(a.func, c)
  }

  /** An object whose fields are attribute descriptors: its `__dict__`. */
  class Instance {
    var fields: map<string, PyValue>

    constructor ()
      ensures fields == map[]
    {
      fields := map[];
    }
  }

  /** `__get__` on an instance: the entry stored under the field's name. */
  function Get(a: Attr, inst: Instance): (r: Result<PyValue>)
    reads inst
    ensures r.Ok? <==> a.name in inst.fields
    ensures r.Err? ==> r.error == MissingField(a.name)
  {
    if a.name in inst.fields then Ok(inst.fields[a.name]) else Err(MissingField(a.name))
  }

  /** `__set__`: validate, then store under the field's name; reading the
      field afterwards gives back exactly what was stored. */
  method Set(a: Attr, inst: Instance, v: PyValue) returns (err: Option<Error>)
    modifies inst
    ensures Store(a, v).Ok? ==> err == None && inst.fields == old(inst.fields)[a.name := Store(a, v).value]
    ensures Store(a, v).Ok? ==> Get(a, inst) == Store(a, v)
    ensures Store(a, v).Err? ==> err == Some(Store(a, v).error) && inst.fields == old(inst.fields)
  {
    var stored := Store(a, v);
    if stored.Err? {
      return Some(stored.error);
    }
    inst.fields := inst.fields[a.name := stored.value];
    return None;
  }
}
