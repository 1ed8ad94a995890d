/** Values shared by every part of the model: optional values, Python
    exceptions and the way a call can end. */
module Outcomes {

  datatype Option<+T> = None | Some(value: T)

  /** An instance of Python's `Exception` class (the kind an
      `except Exception` clause catches), by class name and message. */
  datatype Exc = Exc(name: string, detail: string)

  /** How an awaited call ends: it returns a value, raises an `Exception`,
      or is cancelled. asyncio's `CancelledError` derives from
      `BaseException`, not from `Exception`, so it passes through every
      `except Exception` clause of the core. */
  datatype Outcome<+T> = Return(value: T) | Raise(error: Exc) | Cancel

  /** What `await func(...)` leaves when its value is dropped: the same
      ending, with `None` in place of the returned value. */
  function Discard<T>(o: Outcome<T>): (r: Outcome<()>)
    ensures r.Return? <==> o.Return?
    ensures r.Raise? <==> o.Raise?
    ensures r.Raise? ==> r.error == o.error
  {
    match o
    case Return(_) => Return(())
    case Raise(e) => Raise(e)
    case Cancel => Cancel
  }
}
