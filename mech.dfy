// What a tool's `run` hands back: the response 4-tuple
// (response, prompt, transaction, cost) or a raised exception.

module Mech {
  import opened Values

  /**
   * A raised Python exception: its class name, the `status_code` attribute
   * when it has one, and `str(e)`.
   */
  datatype Exception = Exception(className: string, statusCode: Option<int>, message: string)

  /** The 4-tuple `(response, prompt, transaction, cost)` a tool's `run` returns. */
  datatype Reply = Reply(response: string, prompt: Value, transaction: Value, cost: Value)

  /** How one call of a tool's `run` ends. */
  datatype Outcome = Returned(reply: Reply) | Raised(error: Exception)

  /** A computation that produces a value or raises. */
  datatype Result<T> = Ok(value: T) | Err(error: Exception)

  /** `error_response(msg)`: the message with None in the other three slots. */
  function ErrorResponse(msg: string): Reply
  {
    Reply(msg, NoneV, NoneV, NoneV)
  }

  /** The reply for a successful command whose response renders as `text`. */
  function Success(text: string): Reply
  {
    Reply(text, NoneV, NoneV, NoneV)
  }

  /** The reply of an `except Exception as e:` clause that reports `f"An error occurred: {str(e)}"`. */
  function ErrorOccurred(e: Exception): Reply
  {
    ErrorResponse("An error occurred: " + e.message)
  }

  function TypeError(message: string): Exception
  {
    Exception("TypeError", None, message)
  }

  function ValueError(message: string): Exception
  {
    Exception("ValueError", None, message)
  }

  /** `KeyError(key)`, whose `str` is the repr of the key. */
  function KeyError(key: string): Exception
  {
    Exception("KeyError", None, QuoteStr(key))
  }

  /** The error raised when an attribute is looked up on an object whose type lacks it. */
  function AttributeError(v: Value, attribute: string): Exception
  {
    Exception("AttributeError", None, "'" + TypeName(v) + "' object has no attribute '" + attribute + "'")
  }

  /** The error raised when an unhashable value is used as a dictionary key. */
  function Unhashable(v: Value): Exception
  {
    TypeError("unhashable type: '" + TypeName(v) + "'")
  }

  /** The error raised when a local variable is read before any assignment (Python 3.11 wording). */
  function UnboundLocal(name: string): Exception
  {
    Exception("UnboundLocalError", None,
      "cannot access local variable '" + name + "' where it is not associated with a value")
  }
}
