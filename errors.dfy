/** The Python exceptions the modelled code raises, and a simplified rendering of what `str(e)` shows for each. */
module Errors {

  datatype PyError =
    | TypeError(msg: string)
    | ValueError(msg: string)
    | KeyError(key: string)
    | AttributeError(msg: string)
    | IndexError(msg: string)
    | NotImplementedError(msg: string)
    | ValidationError(model: string, field: string, reason: string)

  /**
   * A simplified `str(e)`: the message; a `KeyError` shows the quoted key.
   * A pydantic validation error is rendered as one error naming the model,
   * the first offending field and a reason; pydantic's own text counts every
   * error, lists every failing field with a `[type=..., input_value=...,
   * input_type=...]` suffix and ends with a documentation link.
   */
  function Message(e: PyError): (r: string)
    ensures e.KeyError? ==> r == "'" + e.key + "'"
    ensures !e.KeyError? && !e.ValidationError? ==> r == e.msg
    ensures e.ValidationError? ==> r == "1 validation error for " + e.model + "\n" + e.field + "\n  " + e.reason
  {
    match e
    case KeyError(k) => "'" + k + "'"
    case TypeError(m) => m
    case ValueError(m) => m
    case AttributeError(m) => m
    case IndexError(m) => m
    case NotImplementedError(m) => m
    case ValidationError(model, field, reason) => "1 validation error for " + model + "\n" + field + "\n  " + reason
  }
}
