/** The Go values that tasks exchange: errors, dynamic values and results. */
module Values {

  datatype Option<+T> = None | Some(value: T)

  /** A Go pair of a value and an error. */
  datatype Outcome<+T> = Ok(value: T) | Err(error: GoError)

  /** The errors of the pipeline package, up to their message. `TaskError` is any error a task
      returns; `Restored` is what a saved error string becomes when a run is resumed. */
  datatype GoError =
    | Cancelled
    | Panicked(detail: string)
    | TaskError(text: string)
    | Restored(text: string)
    | KeypathNotFound
    | WrongKeypath
    | IndexOutOfRange
    | VarsRoot
    | VarsSetNested
    | BadInput
    | ParameterEmpty
    | TooManyErrors

  /** What `Error()` prints. */
  function Message(e: GoError): string {
    match e
    case Cancelled => "task run cancelled (fail early)"
    case Panicked(detail) => "goroutine panicked when executing run: " + detail
    case TaskError(text) => text
    case Restored(text) => text
    case KeypathNotFound => "keypath not found"
    case WrongKeypath => "wrong keypath format"
    case IndexOutOfRange => "index out of range"
    case VarsRoot => "cannot get/set the root of a pipeline.Vars"
    case VarsSetNested => "cannot set a nested key of a pipeline.Vars"
    case BadInput => "bad input for task"
    case ParameterEmpty => "parameter is empty"
    case TooManyErrors => "too many errors"
  }

  /** A scalar. `NilPointer` is a non-nil interface that holds a nil pointer. */
  datatype Atom =
    | Nil
    | NilPointer
    | Text(text: string)
    | Number(n: int)
    | Bool(b: bool)
    | Failure(error: GoError)

  /** Maps, slices of any, and the rows of a database query (`[]map[string]any`). */
  datatype Kind = GoMap | GoSlice | GoRows

  datatype Key = Field(name: string) | Index(i: nat)

  /** A finite value. The elements of a slice are the children under `Index(0)`, `Index(1)`, ... */
  datatype Value = Scalar(atom: Atom) | Node(kind: Kind, kids: map<Key, Value>)

  const NIL_VALUE := Scalar(Nil)

  datatype Result = Result(value: Value, error: Option<GoError>)

  /** The zero value of a Go `Result`. */
  const NO_RESULT := Result(NIL_VALUE, None)

  /** What the scheduler stores as a task's variable: its error if there is one, else its value. */
  function VarValue(r: Result): Value {
    match r.error
    case Some(e) => Scalar(Failure(e))
    case None => r.value
  }
}
