/**
 * The second-generation null test (ToolUI/Converters/IsNullConverter.cs): the same test
 * as the first generation's, written as an if statement.
 */
module IsNullConverter {
  import opened Wrappers
  import opened Values
  import NullConverter

  function Convert(invert: bool, value: Value): (r: bool)
    ensures !invert ==> (r <==> value == NullValue)
    ensures invert ==> (r <==> value != NullValue)
  {
    NullConverter.Convert(invert, value)
  }

  /** ConvertBack always throws NotSupported. */
  function ConvertBack(value: Value, targetType: TargetType): (r: Result<Value>)
    ensures r == Failure(NotSupported)
  {
    Failure(NotSupported)
  }
}
