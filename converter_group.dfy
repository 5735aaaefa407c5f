/**
 * The converter group (src/Converters/ConverterGroup.cs): a list of value converters
 * run in succession, each one's output being the next one's input, all with the same
 * target type, parameter and culture. A converter that throws ends the chain with its
 * exception. ConvertBack is not supported.
 */
module ConverterGroup {
  import opened Wrappers
  import opened Values

  /** One member's Convert, given the shared target type, parameter and culture. */
  type Converter = (Value, Context) -> Result<Value>

  /** `this.Aggregate(value, (current, converter) => converter.Convert(current, ...))`: a left fold. */
  function Convert(group: seq<Converter>, value: Value, ctx: Context): (r: Result<Value>)
    ensures group == [] ==> r == Success(value)
    decreases |group|
  {
    if group == [] then Success(value)
    else
      match group[0](value, ctx)
      case Success(next) => Convert(group[1..], next, ctx)
      case Failure(e) => Failure(e)
  }

  /** Running `r` and, if it succeeded, the group `rest` on its value, with the same context. */
  function Then(r: Result<Value>, rest: seq<Converter>, ctx: Context): Result<Value> {
    match r
    case Success(v) => Convert(rest, v, ctx)
    case Failure(e) => Failure(e)
  }

  /** A one-member group behaves exactly as its member. */
  lemma Single(c: Converter, value: Value, ctx: Context)
    ensures Convert([c], value, ctx) == c(value, ctx)
  {
    assert [c][1..] == [];
  }

  /** The group `a + b` is group `b` run on the result of group `a`; a failure in `a` skips `b`. */
  lemma {:induction false} Append(a: seq<Converter>, b: seq<Converter>, value: Value, ctx: Context)
    ensures Convert(a + b, value, ctx) == Then(Convert(a, value, ctx), b, ctx)
    decreases |a|
  {
    if a == [] {
      assert a + b == b;
    } else {
      assert (a + b)[0] == a[0];
      assert (a + b)[1..] == a[1..] + b;
      match a[0](value, ctx)
      case Success(next) => Append(a[1..], b, next, ctx);
      case Failure(e) =>
    }
  }

  /** Members run in list order: the group is its first member followed by the rest. */
  lemma Order(c: Converter, rest: seq<Converter>, value: Value, ctx: Context)
    ensures Convert([c] + rest, value, ctx) == Then(c(value, ctx), rest, ctx)
  {
    assert ([c] + rest)[0] == c;
    assert ([c] + rest)[1..] == rest;
  }

  /** ConvertBack: always throws NotSupported. */
  function ConvertBack(group: seq<Converter>, value: Value, ctx: Context): (r: Result<Value>)
    ensures r == Failure(NotSupported)
  {
    Failure(NotSupported)
  }
}
