/** Values shared by every module: optional values and the outcome of a call
    into Python code that may raise. */
module Outcomes {

  datatype Option<T> = None | Some(value: T)

  /** What a Python call can raise. `Exception` is any subclass of Python's
      `Exception` (caught by `except Exception`); `KeyboardInterrupt` derives
      from `BaseException` only, so `except Exception` lets it through. */
  datatype Failure = Exception(message: string) | KeyboardInterrupt

  /** The result of a call that returns a value or raises. */
  datatype Outcome<T> = Ok(value: T) | Fail(failure: Failure)

  /** The exception Python's `input()` raises once standard input is exhausted. */
  const EOFError: Failure := Exception("EOF when reading a line")
}
