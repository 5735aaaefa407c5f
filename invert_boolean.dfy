/**
 * The second-generation boolean negation converter
 * (ToolUI/Converters/InvertBooleanConverter.cs): its Convert is the first generation's,
 * and its ConvertBack always throws.
 */
module InvertBooleanConverter {
  import opened Wrappers
  import opened Values
  import NotConverter

  /** Convert: a bool is negated; null or any other value gives DefaultValue. */
  function Convert(defaultValue: bool, value: Value): (r: bool)
    ensures value.Bool? ==> r != value.b
    ensures !value.Bool? ==> r == defaultValue
  {
    NotConverter.Convert(defaultValue, value)
  }

  /** ConvertBack always throws NotSupported. */
  function ConvertBack(value: Value, targetType: TargetType): (r: Result<Value>)
    ensures r == Failure(NotSupported)
  {
    Failure(NotSupported)
  }

  /** Converting a bool twice gives the bool back, whatever the default. */
  lemma Involution(defaultValue: bool, b: bool)
    ensures Convert(defaultValue, Bool(Convert(defaultValue, Bool(b)))) == b
  {
  }
}
