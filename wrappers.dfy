/** Small shared datatypes: C#'s nullable references and the exceptions the core throws. */
module Wrappers {

  /** A C# reference or nullable value: `Null` or a present value. */
  datatype Nullable<+T> = Null | Some(value: T) {
    /** The value, or `default` when null (C#'s `??`). */
    function GetOr(default: T): T {
      match this
      case Some(v) => v
      case Null => default
    }
  }

  /** The .NET exception types the modelled code can throw. */
  datatype Exception =
    | NotSupported        // System.NotSupportedException
    | NotImplemented      // System.NotImplementedException
    | InvalidOperation    // System.InvalidOperationException
    | InvalidCast         // System.InvalidCastException
    | NullReference       // System.NullReferenceException
    | IndexOutOfRange     // System.IndexOutOfRangeException
    | ArgumentOutOfRange  // System.ArgumentOutOfRangeException
    | Argument            // System.ArgumentException

  /** A call that either returns a value or throws. */
  datatype Result<+T> = Success(value: T) | Failure(error: Exception)

  /** A call that returns nothing or throws. */
  datatype Outcome = Pass | Fail(error: Exception)
}
