/** Outcomes of calls that may fail: `Option` for a value that may be
    missing (JavaScript `null`/`undefined`), `Attempt` for a call that returns
    a value or throws (an async call that resolves or rejects). */
module Results {

  datatype Option<+T> = None | Some(value: T)
  {
    function GetOr(default: T): T
    {
      match this
      case Some(v) => v
      case None => default
    }
  }

  datatype Attempt<+T> = Ok(value: T) | Fail(error: string)
}
