/** The Python exceptions the services raise or catch, with the text `str(e)` gives
    for each: callers choose their error message by looking into that text. */
module Errors {
  datatype PyError =
    | KeyError(key: string)
    | ValueError(message: string)
    | ZeroDivisionError
    | IndexError
    | AttributeError
    | TypeError(message: string)
  {
    /** `str(e)`. */
    function Str(): string {
      match this
      case KeyError(key) => "'" + key + "'"
      case ValueError(message) => message
      case ZeroDivisionError => "float division by zero"
      case IndexError => "list index out of range"
      case AttributeError => "object has no attribute 'get'"
      case TypeError(message) => message
    }
  }
}
