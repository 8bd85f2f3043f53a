/** The exceptions the figure raises, one constructor per check that can
    fail, and the Python exception class each check raises. */
module Errors {
  import opened PyValues

  datatype PyException = ValueError | TypeError

  datatype Error =
    | ShowTitleNotBool(received: Value)
    | Unhashable(received: Value)
    | InvalidAxisScale(property: string, received: Value)
    | InvalidAspect(received: Value)
    | UnknownProperty(key: string)
    | UnsupportedOptions(keys: set<string>)
    | NotIterable
    | LengthMismatch(lenX: nat, lenY: nat)
    | ZlabelNotString(received: Value)
    | InvalidZlim
    | RaggedArray(argument: string)
    | NotOneDimensional(xNdim: nat, yNdim: nat)
    | NotTwoDimensional(zNdim: nat)
    | ShapeMismatch(zShape: seq<nat>, lenY: nat, lenX: nat)

  /** The class of the exception raised for each error. */
  function Raised(e: Error): PyException {
    match e
    case ShowTitleNotBool(_) => TypeError
    case Unhashable(_) => TypeError
    case ZlabelNotString(_) => TypeError
    case _ => ValueError
  }
}
