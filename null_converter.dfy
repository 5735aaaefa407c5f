/** The first-generation null test (src/Converters/NullConverter.cs). */
module NullConverter {
  import opened Wrappers
  import opened Values

  /**
   * Convert: whether the value is null, or with Invert whether it is not. The target type,
   * parameter and culture are not inputs.
   */
  function Convert(invert: bool, value: Value): (r: bool)
    ensures !invert ==> (r <==> value == NullValue)
    ensures invert ==> (r <==> value != NullValue)
  {
    if invert then value != NullValue else value == NullValue
  }

  /** ConvertBack always throws NotSupported. */
  function ConvertBack(value: Value, targetType: TargetType): (r: Result<Value>)
    ensures r == Failure(NotSupported)
  {
    Failure(NotSupported)
  }

  /** Toggling Invert flips the result for every value. */
  lemma ToggleInvert(invert: bool, value: Value)
    ensures Convert(!invert, value) == !Convert(invert, value)
  {
  }
}
