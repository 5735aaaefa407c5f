/**
 * The multi-value logical converters (src/Converters/LogicalConverters.cs): the bound
 * values are cast to bools, folded left to right with And, Or or Xor starting from the
 * first one, and the result is converted to the target type. ConvertBack is not
 * implemented.
 */
module LogicalConverters {
  import opened Wrappers
  import opened Values

  datatype Operation = And | Or | Xor

  /** Every value is true. */
  predicate AllTrue(x: seq<bool>) {
    forall i :: 0 <= i < |x| ==> x[i]
  }

  /** Some value is true. */
  predicate AnyTrue(x: seq<bool>) {
    exists i :: 0 <= i < |x| && x[i]
  }

  /** How many of the values are true. */
  function CountTrue(x: seq<bool>): (n: nat)
    ensures n <= |x|
    ensures n == 0 <==> !AnyTrue(x)
    ensures n == |x| <==> AllTrue(x)
  {
    if x == [] then 0 else CountTrue(x[..|x| - 1]) + (if x[|x| - 1] then 1 else 0)
  }

  /** What the operation computes over the values, independently of how the loop folds them. */
  predicate Meaning(op: Operation, x: seq<bool>) {
    match op
    case And => AllTrue(x)
    case Or => AnyTrue(x)
    case Xor => CountTrue(x) % 2 == 1
  }

  /**
   * DoConversion: starts from x[0] (which throws IndexOutOfRange when there are no values)
   * and folds the rest in with the operation. The result is true iff all values are true
   * (And), some value is true (Or), or an odd number of them are true (Xor).
   */
  method DoConversion(op: Operation, x: seq<bool>) returns (r: Result<bool>)
    ensures x == [] <==> r == Failure(IndexOutOfRange)
    ensures x != [] ==> r == Success(Meaning(op, x))
  {
    if |x| == 0 {
      return Failure(IndexOutOfRange);
    }
    var acc := x[0];
    var i := 1;
    while i < |x|
      invariant 1 <= i <= |x|
      invariant acc == Meaning(op, x[..i])
    {
      assert x[..i + 1][..i] == x[..i];
      match op {
        case And => acc := acc && x[i];
        case Or => acc := acc || x[i];
        case Xor => acc := acc != x[i];
      }
      i := i + 1;
    }
    assert x[..i] == x;
    r := Success(acc);
  }

  /** A single value is returned as it is, whatever the operation. */
  lemma SingleValue(op: Operation, b: bool)
    ensures Meaning(op, [b]) == b
  {
    match op
    case And =>
      assert [b][0] == b;
    case Or =>
      if b {
        assert [b][0];
      }
    case Xor =>
      assert [b][..0] == [];
  }

  /**
   * `values.Cast<bool>().ToArray()`: unboxes the values in order; the first null throws
   * NullReference and the first value that is not a bool throws InvalidCast.
   */
  function CastBools(values: seq<Value>): (r: Result<seq<bool>>)
    ensures r.Success? <==> forall i :: 0 <= i < |values| ==> values[i].Bool?
    ensures r.Success? ==> |r.value| == |values| && forall i :: 0 <= i < |values| ==> r.value[i] == values[i].b
    ensures r.Failure? ==> r.error in {NullReference, InvalidCast}
    ensures forall i :: 0 <= i < |values| && !values[i].Bool? && (forall j :: 0 <= j < i ==> values[j].Bool?) ==>
      r == Failure(if values[i].NullValue? then NullReference else InvalidCast)
  {
    if values == [] then Success([])
    else if values[0].NullValue? then Failure(NullReference)
    else if !values[0].Bool? then Failure(InvalidCast)
    else
      match CastBools(values[1..])
      case Success(rest) => Success([values[0].b] + rest)
      case Failure(e) => Failure(e)
  }

  /**
   * System.Convert.ChangeType of a bool: to bool or object it stays a bool, to string it
   * becomes "True" or "False", to a numeric type it becomes 1 or 0 (bool's IConvertible);
   * any other target type (Char, DateTime, an enum, …) throws InvalidCast.
   */
  function ChangeType(b: bool, t: TargetType): (r: Result<Value>)
    ensures t.BoolType? || t.ObjectType? ==> r == Success(Bool(b))
    ensures t.StringType? ==> r.Success? && r.value.Str? && (r.value.s == "True" <==> b)
    ensures t.NumberType? ==> r.Success? && r.value.Number? && (r.value.n == 1 <==> b) && (r.value.n == 0 <==> !b)
    ensures r.Failure? <==> t.EnumType? || t.OtherType?
    ensures r.Failure? ==> r.error == InvalidCast
  {
    match t
    case BoolType => Success(Bool(b))
    case ObjectType => Success(Bool(b))
    case StringType => Success(Str(if b then "True" else "False"))
    case NumberType(_) => Success(Number(if b then 1 else 0))
    case _ => Failure(InvalidCast)
  }

  /** The shared body of the three Convert overrides: cast, fold with `op`, change type. */
  method ConvertWith(op: Operation, values: seq<Value>, targetType: TargetType) returns (r: Result<Value>)
    ensures CastBools(values).Failure? ==> r == Failure(CastBools(values).error)
    ensures values == [] ==> r == Failure(IndexOutOfRange)
    ensures CastBools(values).Success? && values != [] ==> r == ChangeType(Meaning(op, CastBools(values).value), targetType)
  {
    var bools := CastBools(values);
    if bools.Failure? {
      return Failure(bools.error);
    }
    var folded := DoConversion(op, bools.value);
    if folded.Failure? {
      return Failure(folded.error);
    }
    r := ChangeType(folded.value, targetType);
  }

  /** AndConverter.Convert: true iff every bound value is true. */
  method AndConvert(values: seq<Value>, ctx: Context) returns (r: Result<Value>)
    ensures values != [] && (forall i :: 0 <= i < |values| ==> values[i].Bool?) ==>
      r == ChangeType(forall i :: 0 <= i < |values| ==> values[i].b, ctx.targetType)
    ensures values == [] ==> r == Failure(IndexOutOfRange)
    ensures CastBools(values).Failure? ==> r.Failure? && r.error in {NullReference, InvalidCast}
  {
    r := ConvertWith(And, values, ctx.targetType);
  }

  /** OrConverter.Convert: true iff some bound value is true. */
  method OrConvert(values: seq<Value>, ctx: Context) returns (r: Result<Value>)
    ensures values != [] && (forall i :: 0 <= i < |values| ==> values[i].Bool?) ==>
      r == ChangeType(exists i :: 0 <= i < |values| && values[i].b, ctx.targetType)
    ensures values == [] ==> r == Failure(IndexOutOfRange)
    ensures CastBools(values).Failure? ==> r.Failure? && r.error in {NullReference, InvalidCast}
  {
    r := ConvertWith(Or, values, ctx.targetType);
  }

  /** XorConverter.Convert: true iff an odd number of the bound values are true. */
  method XorConvert(values: seq<Value>, ctx: Context) returns (r: Result<Value>)
    ensures values != [] && (forall i :: 0 <= i < |values| ==> values[i].Bool?) ==>
      r == ChangeType(CountTrue(CastBools(values).value) % 2 == 1, ctx.targetType)
    ensures values == [] ==> r == Failure(IndexOutOfRange)
    ensures CastBools(values).Failure? ==> r.Failure? && r.error in {NullReference, InvalidCast}
  {
    r := ConvertWith(Xor, values, ctx.targetType);
  }

  /** LogicalConverter.ConvertBack: always throws NotImplemented. */
  function ConvertBack(value: Value, targetTypes: seq<TargetType>, ctx: Context): (r: Result<seq<Value>>)
    ensures r == Failure(NotImplemented)
  {
    Failure(NotImplemented)
  }
}
