/**
 * The boxed values a WPF value converter receives and returns, reduced to the kinds the
 * converters here tell apart, and the context every Convert call is given.
 */
module Values {
  /** A 32-bit float, kept as its bit pattern; no arithmetic is done on it here. */
  type Float32 = bv32

  datatype Value =
    | NullValue                                        // null
    | Bool(b: bool)                                    // a boxed bool
    | Str(s: string)                                   // a string
    | Enum(enumType: nat, bits: bv32)                  // a boxed int-backed enum value of the given enum type
    | Vector2(x: Float32, y: Float32)                  // System.Numerics.Vector2
    | Vector3(x: Float32, y: Float32, z: Float32)      // System.Numerics.Vector3
    | Number(n: int)                                   // a boxed integral or floating-point number holding a whole value
    | Unset                                            // DependencyProperty.UnsetValue
    | Other(tag: nat)                                  // any other object

  /**
   * The targetType argument of Convert/ConvertBack. NumberType stands for the primitive
   * numeric types (Int32, Double, Decimal, …); OtherType for any other type.
   */
  datatype TargetType = BoolType | StringType | ObjectType | NumberType(kind: nat) | EnumType(id: nat) | OtherType(tag: nat)

  /** What WPF passes alongside the value: target type, converter parameter and culture. */
  datatype Context = Context(targetType: TargetType, parameter: Value, culture: nat)
}
