/** Types and small facts shared by every part of the model. */
module Base {
  datatype Option<+T> = None | Some(value: T)

  const U32_MAX: nat := 0xFFFF_FFFF
  const U64_MAX: nat := 0xFFFF_FFFF_FFFF_FFFF

  type Byte = x: nat | x < 256

  /** Generation-checked handle of one scheduler slot. */
  datatype ThreadId = ThreadId(index: nat, generation: nat)

  function SaturatingSub(a: nat, b: nat): nat {
    if a >= b then a - b else 0
  }
}
