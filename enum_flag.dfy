/**
 * The flags-enum converter (src/Converters/EnumFlagConverter.cs): Convert tests whether a
 * flag is set in an enum value and remembers that value as the target; ConvertBack sets
 * or clears the flag in the remembered target. Enum values are int-backed, kept as 32
 * bits.
 */
module EnumFlagConverter {
  import opened Wrappers
  import opened Values

  /** Enum.HasFlag on the bits: every bit of `flag` is set in `e`. */
  predicate HasFlag(e: bv32, flag: bv32) {
    e & flag == flag
  }

  /** No bit of `flag` is set in `e`. */
  predicate FlagClear(e: bv32, flag: bv32) {
    e & flag == 0
  }

  /** `v ? (e | f) : (e & ~f)`: sets or clears the bits of `f` in `e`. */
  function FlagApply(e: bv32, f: bv32, v: bool): bv32 {
    if v then e | f else e & !f
  }

  /** ConvertBack(true): the bits of `f` become set and every other bit is kept. */
  lemma SetFlag(e: bv32, f: bv32)
    ensures FlagApply(e, f, true) & f == f
    ensures FlagApply(e, f, true) & !f == e & !f
  {
  }

  /** ConvertBack(false): the bits of `f` become clear and every other bit is kept. */
  lemma ClearFlag(e: bv32, f: bv32)
    ensures FlagApply(e, f, false) & f == 0
    ensures FlagApply(e, f, false) & !f == e & !f
  {
  }

  /** Testing the flag on what ConvertBack wrote gives back the bool it was given (a flag with no bits always tests as set). */
  lemma {:induction false} FlagApplyTest(e: bv32, f: bv32, v: bool)
    ensures v ==> HasFlag(FlagApply(e, f, v), f)
    ensures !v ==> (HasFlag(FlagApply(e, f, v), f) <==> f == 0)
  {
    if v {
      SetFlag(e, f);
    } else {
      ClearFlag(e, f);
    }
  }

  /** Setting a flag that is already set, or clearing one that is already clear, changes nothing. */
  lemma {:induction false} FlagApplyNoChange(e: bv32, f: bv32, v: bool)
    requires if v then HasFlag(e, f) else FlagClear(e, f)
    ensures FlagApply(e, f, v) == e
  {
    if v {
      assert e | f == e;
    } else {
      assert e & !f == e;
    }
  }

  /** Setting or clearing the same flag twice is the same as doing it once. */
  lemma {:induction false} FlagApplyIdempotent(e: bv32, f: bv32, v: bool)
    ensures FlagApply(FlagApply(e, f, v), f, v) == FlagApply(e, f, v)
  {
    var r := FlagApply(e, f, v);
    if v {
      FlagApplyTest(e, f, v);
      FlagApplyNoChange(r, f, true);
    } else {
      ClearFlag(e, f);
      FlagApplyNoChange(r, f, false);
    }
  }

  /** Clearing a flag that is partly or wholly set changes the value: the set part is lost. */
  lemma {:induction false} FlagCleared(e: bv32, f: bv32)
    requires !FlagClear(e, f)
    ensures FlagApply(e, f, false) != e
  {
    ClearFlag(e, f);
  }

  class EnumFlagConverter {
    /** m_target, as the integer ConvertBack reads from it: the bits of the enum value last seen by Convert (null before the first one). */
    var target: Nullable<bv32>

    constructor ()
      ensures target == Null
    {
      target := Null;
    }

    /**
     * Convert: for an enum value and an enum parameter, the value is remembered as the
     * target and the result is whether the flag is set in it; HasFlag throws when the two
     * are of different enum types, after the target has been stored. Any other value or
     * parameter gives UnsetValue and leaves the target alone.
     */
    method Convert(value: Value, ctx: Context) returns (r: Result<Value>)
      modifies this
      ensures value.Enum? && ctx.parameter.Enum? ==> target == Some(value.bits)
      ensures value.Enum? && ctx.parameter.Enum? && value.enumType == ctx.parameter.enumType ==>
        r == Success(Bool(HasFlag(value.bits, ctx.parameter.bits)))
      ensures value.Enum? && ctx.parameter.Enum? && value.enumType != ctx.parameter.enumType ==>
        r == Failure(Argument)
      ensures !(value.Enum? && ctx.parameter.Enum?) ==> r == Success(Unset) && target == old(target)
    {
      if value.Enum? && ctx.parameter.Enum? {
        target := Some(value.bits);
        if value.enumType != ctx.parameter.enumType {
          return Failure(Argument);
        }
        return Success(Bool(HasFlag(value.bits, ctx.parameter.bits)));
      }
      return Success(Unset);
    }

    /**
     * ConvertBack: for a bool and an enum parameter, the flag is set (true) or cleared
     * (false) in the target and the bits are parsed as the target type. A missing target
     * throws NullReference; a target type that is not an enum makes Enum.Parse throw
     * Argument; any other value or parameter throws NotSupported.
     */
    function ConvertBack(value: Value, ctx: Context): (r: Result<Value>)
      reads this
      ensures !(value.Bool? && ctx.parameter.Enum?) ==> r == Failure(NotSupported)
      ensures value.Bool? && ctx.parameter.Enum? && target.Null? ==> r == Failure(NullReference)
      ensures value.Bool? && ctx.parameter.Enum? && target.Some? ==>
        if ctx.targetType.EnumType? then
          r == Success(Enum(ctx.targetType.id, FlagApply(target.value, ctx.parameter.bits, value.b)))
        else r == Failure(Argument)
    {
      if value.Bool? && ctx.parameter.Enum? then
        if target.Null? then Failure(NullReference)
        else
          var result := FlagApply(target.value, ctx.parameter.bits, value.b);
          if ctx.targetType.EnumType? then Success(Enum(ctx.targetType.id, result))
          else Failure(Argument)
      else Failure(NotSupported)
    }
  }

  /**
   * Writing back the flag test of `e`: the value comes back unchanged exactly when the
   * flag is wholly set or wholly clear in it (always the case for a one-bit flag); a
   * multi-bit flag that is only partly set tests false, and clearing it loses the set part.
   */
  lemma {:induction false} WriteBackRead(e: bv32, f: bv32)
    ensures FlagApply(e, f, HasFlag(e, f)) == e <==> HasFlag(e, f) || FlagClear(e, f)
  {
    if HasFlag(e, f) {
      FlagApplyNoChange(e, f, true);
    } else if FlagClear(e, f) {
      FlagApplyNoChange(e, f, false);
    } else {
      FlagCleared(e, f);
    }
  }

  /**
   * Convert followed by ConvertBack on a fresh converter, with the enum's own type as the
   * target type: the flag read from `e` is written back into `e`, which leaves it as it
   * was exactly when the flag is wholly set or wholly clear in it.
   */
  method RoundTrip(e: Value, flag: Value) returns (back: Result<Value>)
    requires e.Enum? && flag.Enum? && e.enumType == flag.enumType
    ensures back.Success? && back.value.Enum? && back.value.enumType == e.enumType
    ensures back == Success(e) <==> HasFlag(e.bits, flag.bits) || FlagClear(e.bits, flag.bits)
  {
    var c := new EnumFlagConverter();
    var ctx := Context(EnumType(e.enumType), flag, 0);
    var read := c.Convert(e, ctx);
    var isSet := HasFlag(e.bits, flag.bits);
    assert read == Success(Bool(isSet)) && c.target == Some(e.bits);
    back := c.ConvertBack(read.value, ctx);
    assert back == Success(Enum(e.enumType, FlagApply(e.bits, flag.bits, isSet)));
    WriteBackRead(e.bits, flag.bits);
  }
}
