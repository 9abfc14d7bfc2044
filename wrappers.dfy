/** Option and Result values, and the errors a converter raises. */
module Wrappers {

  datatype Option<+T> = None | Some(value: T) {
    /** The wrapped value, or `default` when there is none (Python's `x if x is not None else d`). */
    function GetOr(default: T): T {
      match this
      case Some(v) => v
      case None => default
    }
  }

  /** The exceptions the converters raise. Each aborts the conversion of the node. */
  datatype ConvertError =
    | StepSlicingUnsupported(step: int)   // ValueError: a slice with a step other than 1
    | IndexTypeUnsupported                // ValueError: an index specifier of another kind
    | PadModeUnsupported(mode: string)    // ValueError: a pad mode outside constant/reflect/edge
    | MultipleConstantValues              // ValueError: more than one pad fill value
    | ElementwiseRepeatUnsupported        // NotImplementedError: more than one repeat count
    | IndexOutOfRange                     // IndexError raised by Python list indexing
    | KeyNotFound                         // KeyError raised by a dictionary lookup
    | DivisionByZero                      // ZeroDivisionError raised by `//`
    | TypeMismatch                        // TypeError: `len` of a non-int scalar, `float` of a non-number

  datatype Result<+T> = Ok(value: T) | Err(error: ConvertError)
}
