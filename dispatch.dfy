/** Dispatch vocabulary shared by both pallets: who calls, and what a call returns. */
module Dispatch {

  /** Accounts are opaque, already-authenticated identifiers. */
  type AccountId = nat

  /** Block timestamps, passed in by the caller of each operation. */
  type Moment = nat

  const U64_MAX: nat := 0xFFFF_FFFF_FFFF_FFFF
  const U32_MAX: nat := 0xFFFF_FFFF

  /** An unsigned 64-bit value. */
  type U64 = x: nat | x <= U64_MAX

  /** An unsigned 32-bit value. */
  type U32 = x: nat | x <= U32_MAX

  /** The origin of a call: the privileged root origin or a signed account. */
  datatype Origin = Root | Signed(who: AccountId)

  /** The result of a dispatchable call: success, or the error it was rejected with. */
  datatype DispatchResult<+E> = Ok | Err(error: E)

  /** A result that carries a value on success. */
  datatype Result<+T, +E> = Success(value: T) | Failure(error: E)

  datatype Option<+T> = None | Some(value: T)

  /** `saturating_add` on u64. */
  function SaturatingAdd(a: U64, b: U64): (r: U64)
    ensures a + b <= U64_MAX ==> r == a + b
    ensures a + b > U64_MAX ==> r == U64_MAX
  {
    if a + b <= U64_MAX then a + b else U64_MAX
  }

  /** `saturating_sub` on u64. */
  function SaturatingSub(a: U64, b: U64): (r: U64)
    ensures b <= a ==> r == a - b
    ensures a < b ==> r == 0
  {
    if b <= a then a - b else 0
  }

  /** `saturating_mul` on u64. */
  function SaturatingMul(a: U64, b: nat): (r: U64)
    ensures a * b <= U64_MAX ==> r == a * b
    ensures a * b > U64_MAX ==> r == U64_MAX
  {
    if a * b <= U64_MAX then a * b else U64_MAX
  }

  /** A guard chain's verdict turned into a call result: no failure means `Ok`. */
  function OkUnless<E>(failure: Option<E>): (r: DispatchResult<E>)
    ensures r.Ok? <==> failure.None?
    ensures r.Err? ==> r.error == failure.value
  {
    if failure.None? then Ok else Err(failure.value)
  }

  /** `saturating_inc` on u32. */
  function SaturatingInc(a: U32): (r: U32)
    ensures a < U32_MAX ==> r == a + 1
    ensures a == U32_MAX ==> r == a
  {
    if a < U32_MAX then a + 1 else a
  }

  /** `saturating_dec` on u32. */
  function SaturatingDec(a: U32): (r: U32)
    ensures a > 0 ==> r == a - 1
    ensures a == 0 ==> r == 0
  {
    if a > 0 then a - 1 else 0
  }
}
