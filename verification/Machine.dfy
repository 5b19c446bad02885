/** Fixed-width integers and checked arithmetic, as the two programs use them. */
module Machine {
  const U8_MAX: int := 0xFF
  const U16_MAX: int := 0xFFFF
  const U32_MAX: int := 0xFFFF_FFFF
  const U64_MAX: int := 0xFFFF_FFFF_FFFF_FFFF
  const U128_MAX: int := 0xFFFF_FFFF_FFFF_FFFF_FFFF_FFFF_FFFF_FFFF
  const I64_MIN: int := -0x8000_0000_0000_0000
  const I64_MAX: int := 0x7FFF_FFFF_FFFF_FFFF

  type u8 = x: int | 0 <= x <= U8_MAX
  type u16 = x: int | 0 <= x <= U16_MAX
  type u32 = x: int | 0 <= x <= U32_MAX
  type u64 = x: int | 0 <= x <= U64_MAX
  type i64 = x: int | I64_MIN <= x <= I64_MAX

  /** An account address. */
  type Key = nat

  /** The address no one holds the key to. */
  const NO_KEY: Key := 0

  datatype Option<+T> = None | Some(value: T)

  /** The outcome of an instruction or of a checked operation; the error code is not modelled. */
  datatype Result<+T> = Err | Ok(value: T) {
    predicate IsFailure() {
      Err?
    }

    function PropagateFailure<U>(): Result<U>
      requires Err?
    {
      Err
    }

    function Extract(): T
      requires Ok?
    {
      value
    }
  }

  datatype Check = Pass | Fail {
    predicate IsFailure() {
      Fail?
    }

    function PropagateFailure<U>(): Result<U>
      requires Fail?
    {
      Err
    }
  }

  /** `require!`: stop with an error unless the condition holds. */
  function Need(condition: bool): Check {
    if condition then Pass else Fail
  }

  function CheckedAdd(a: nat, b: nat, max: int): Result<nat> {
    if a + b <= max then Ok(a + b) else Err
  }

  function CheckedSub(a: nat, b: nat): Result<nat> {
    if b <= a then Ok(a - b) else Err
  }

  function CheckedMul(a: nat, b: nat, max: int): Result<nat> {
    if a * b <= max then Ok(a * b) else Err
  }

  function SaturatingSub(a: nat, b: nat): nat {
    if b <= a then a - b else 0
  }

  /** `checked_add` on times. */
  function AddTime(a: i64, b: i64): Result<i64> {
    if I64_MIN <= a + b <= I64_MAX then Ok(a + b) else Err
  }

  /** Clamp to the range of a signed 64-bit integer: `saturating_add` and `saturating_sub` on times. */
  function Clamp(x: int): i64 {
    if x < I64_MIN then I64_MIN else if x > I64_MAX then I64_MAX else x
  }
}
