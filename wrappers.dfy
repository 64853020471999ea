/** Small value types shared by every module of the model. */
module Wrappers {

  /** Python's `Optional[T]`: `None` or a present value. */
  datatype Option<+T> = None | Some(value: T)

  /** What a call into code outside the model did: it returned a value, or it
      raised an exception whose `str(e)` is `error`. */
  datatype Attempt<+T> = Returned(value: T) | Raised(error: string)

  /** A value, or the text of the `ToolError` a tool raised instead. */
  datatype Result<+T> = Ok(value: T) | Err(error: string)

  /** The `{"success", "message", "data"}` dictionary most tools return;
      `data` is absent on failure and on tools that return no payload. */
  datatype Response<+D> = Response(success: bool, message: string, data: Option<D>)

  function Min(a: int, b: int): (m: int)
  {
    if a <= b then a else b
  }
}
