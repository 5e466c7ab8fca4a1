/** Error kinds raised by the drawing engine, and the Option/Result wrappers
    that carry them through the model in place of Python exceptions. */
module Errors {

  /** The four shape classes the dispatcher knows; errors name the class. */
  datatype ShapeKind = CanvasKind | LineKind | RectangleKind | FillKind

  /** The class name (`cls.__name__`) an error message carries. */
  function ClassName(k: ShapeKind): string
  {
    match k
    case CanvasKind => "Canvas"
    case LineKind => "Line"
    case RectangleKind => "Rectangle"
    case FillKind => "Fill"
  }

  /** Message texts come from a constants module that is not part of this
      model, so each error is a tag carrying its kind and its arguments. */
  datatype Error =
    | NotAnInt(text: string)                                  // ValueError of int() on a string
    | WrongType(field: string, expectedType: string, receivedType: string)  // TypeError raised by an Attr
    | BelowMinimum                                            // ValueError raised by validate_int
    | Unorderable                                             // TypeError of `<` between a non-number and -1
    | MissingField(field: string)                             // KeyError of an Attr read before any store
    | WrongArity(shape: ShapeKind, expected: nat, given: nat) // "Invalid {Class} input data - expected N params, but M were given"
    | FailedParam(shape: ShapeKind, cause: Error)             // FAILED_PARAM prefix, class name and the cause
    | OutOfCanvas(shape: ShapeKind)                           // IndexError naming the drawing shape
    | NoFigure(key: string)                                   // NO_FIGURE: unknown shape key
    | NoCanvas                                                // NO_CANVAS: drawing before any canvas

  datatype Option<+T> = None | Some(value: T)

  datatype Result<+T> = Ok(value: T) | Err(error: Error)
  {
    predicate IsFailure() { Err? }

    function PropagateFailure<U>(): Result<U>
      requires Err?
    {
      Err(error)
    }

    function Extract(): T
      requires Ok?
    {
      value
    }
  }
}
