/** Fixed-width integers of the program, its checked arithmetic and its result type. */
module Numeric {
  const U64_MAX: int := 0xFFFF_FFFF_FFFF_FFFF
  const U128_MAX: int := 0xFFFF_FFFF_FFFF_FFFF_FFFF_FFFF_FFFF_FFFF
  const I64_MIN: int := -0x8000_0000_0000_0000
  const I64_MAX: int := 0x7FFF_FFFF_FFFF_FFFF

  type u8 = x: int | 0 <= x <= 0xFF
  type u16 = x: int | 0 <= x <= 0xFFFF
  type u64 = x: int | 0 <= x <= 0xFFFF_FFFF_FFFF_FFFF
  type u128 = x: int | 0 <= x <= 0xFFFF_FFFF_FFFF_FFFF_FFFF_FFFF_FFFF_FFFF
  type i64 = x: int | -0x8000_0000_0000_0000 <= x <= 0x7FFF_FFFF_FFFF_FFFF

  type byte = u8
  type Pubkey = seq<byte>

  datatype Option<+T> = None | Some(value: T)

  datatype Error =
    // errors.rs
    | Unauthorized | PoolPaused | BelowMinStake | AboveMaxStake | ZeroAmount | MathOverflow
    | InsufficientRewards | RentExemptViolation | InvalidFee | InvalidMinStake
    | BelowMinRewardDeposit | NoActiveStakers
    | ProposalNotActive | VotingPeriodEnded | VotingPeriodNotStarted | VotingPeriodNotEnded
    | InvalidOptionIndex | InvalidVotingPeriod | TooFewOptions | TooManyOptions | TitleTooLong
    | NoVotingPower | ProposalNotPassed | InvalidProposalType | InvalidProposalState
    | ProposalAlreadyExecuted | ExitAlreadyActive | ExitNotActive | InvalidState
    // raised by the runtime, by Anchor's account resolution or by the token and system programs
    | AccountNotInitialized | AccountAlreadyInUse | InsufficientFunds | BalanceOverflow | Panicked

  datatype Result<+T> = Ok(value: T) | Err(error: Error) {
    predicate IsFailure() { Err? }
    function PropagateFailure<U>(): Result<U> requires Err? { Err(error) }
    function Extract(): T requires Ok? { value }
  }

  function CheckedAdd64(a: u64, b: u64): (r: Result<u64>)
    ensures r.Ok? <==> a + b <= U64_MAX
  {
    if a + b <= U64_MAX then Ok(a + b) else Err(MathOverflow)
  }

  function CheckedSub64(a: u64, b: u64): (r: Result<u64>)
    ensures r.Ok? <==> b <= a
  {
    if b <= a then Ok(a - b) else Err(MathOverflow)
  }

  function CheckedMul64(a: u64, b: u64): (r: Result<u64>)
    ensures r.Ok? <==> a * b <= U64_MAX
  {
    if 0 <= a * b <= U64_MAX then Ok(a * b) else Err(MathOverflow)
  }

  function CheckedAdd128(a: u128, b: u128): (r: Result<u128>)
    ensures r.Ok? <==> a + b <= U128_MAX
  {
    if a + b <= U128_MAX then Ok(a + b) else Err(MathOverflow)
  }

  function CheckedSub128(a: u128, b: u128): (r: Result<u128>)
    ensures r.Ok? <==> b <= a
  {
    if b <= a then Ok(a - b) else Err(MathOverflow)
  }

  function CheckedMul128(a: u128, b: u128): (r: Result<u128>)
    ensures r.Ok? <==> a * b <= U128_MAX
  {
    if 0 <= a * b <= U128_MAX then Ok(a * b) else Err(MathOverflow)
  }

  /** `u64::try_from`, with the error every caller maps it to. */
  function TryU64(a: u128): (r: Result<u64>)
    ensures r.Ok? <==> a <= U64_MAX
  {
    if a <= U64_MAX then Ok(a) else Err(MathOverflow)
  }

  /** `i64::saturating_sub`. */
  function SaturatingSub(a: i64, b: i64): (r: i64)
    ensures I64_MIN <= a - b <= I64_MAX ==> r == a - b
    ensures a - b < I64_MIN ==> r == I64_MIN
    ensures a - b > I64_MAX ==> r == I64_MAX
  {
    if a - b < I64_MIN then I64_MIN else if a - b > I64_MAX then I64_MAX else a - b
  }

  lemma ProductMonotone(a: nat, b: nat, x: nat, y: nat)
    requires a <= b && x <= y
    ensures a * x <= b * y
  {
    assert b * y - a * x == (b - a) * y + a * (y - x);
    assert (b - a) * y >= 0 && a * (y - x) >= 0;
  }

  lemma Distribute(a: int, b: int, c: int)
    ensures a * (b + c) == a * b + a * c
  {
  }

  lemma Associate(a: int, b: int, c: int)
    ensures a * (b * c) == a * b * c
  {
  }

  lemma RealProduct(a: nat, b: nat)
    ensures (a * b) as real == a as real * b as real
  {
  }
}
