/** The first-generation boolean negation converter (src/Converters/NotConverter.cs). */
module NotConverter {
  import opened Wrappers
  import opened Values

  /** Convert: a bool is negated; null or any other value gives DefaultValue. */
  function Convert(defaultValue: bool, value: Value): (r: bool)
    ensures value.Bool? ==> r != value.b
    ensures !value.Bool? ==> r == defaultValue
  {
    if value.NullValue? || !value.Bool? then defaultValue else !value.b
  }

  /** ConvertBack: a bool converted back to bool is negated; anything else throws InvalidOperation. */
  function ConvertBack(value: Value, targetType: TargetType): (r: Result<Value>)
    ensures r.Success? <==> value.Bool? && targetType == BoolType
    ensures r.Success? ==> r.value == Bool(!value.b)
    ensures r.Failure? ==> r.error == InvalidOperation
  {
    if value.Bool? && targetType == BoolType then Success(Bool(!value.b))
    else Failure(InvalidOperation)
  }

  /** A bool sent through Convert and back comes back unchanged, whatever the default. */
  lemma RoundTrip(defaultValue: bool, b: bool)
    ensures ConvertBack(Bool(Convert(defaultValue, Bool(b))), BoolType) == Success(Bool(b))
    ensures Convert(defaultValue, ConvertBack(Bool(b), BoolType).value) == b
  {
  }
}
