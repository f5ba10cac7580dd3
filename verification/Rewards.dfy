/** The reward arithmetic: tiers, weights, the floor-divided accumulator and settlement. */
module Rewards {
  import opened Numeric

  const PRECISION: int := 1_000_000_000_000
  const TIER_1_THRESHOLD: int := 7 * 24 * 60 * 60
  const TIER_2_THRESHOLD: int := 30 * 24 * 60 * 60
  const TIER_3_THRESHOLD: int := 90 * 24 * 60 * 60

  type Multiplier = x: int | 0 <= x <= 3

  datatype Staker = Staker(
    stakedAmount: u64,
    stakeTimestamp: i64,
    rewardDebt: u128,
    pendingRewards: u64,
    lastClaimTimestamp: i64,
    currentMultiplier: Multiplier)

  function GetMultiplier(stakeTimestamp: i64, now: i64): (m: Multiplier)
  {
    var elapsed := SaturatingSub(now, stakeTimestamp);
    if elapsed >= TIER_3_THRESHOLD then 3
    else if elapsed >= TIER_2_THRESHOLD then 2
    else if elapsed >= TIER_1_THRESHOLD then 1
    else 0
  }

  /** A tier never goes down as time passes, and saturation never changes which tier is reached. */
  lemma TierMonotone(stakeTimestamp: i64, early: i64, late: i64)
    requires early <= late
    ensures GetMultiplier(stakeTimestamp, early) <= GetMultiplier(stakeTimestamp, late)
    ensures 1 <= GetMultiplier(stakeTimestamp, late) <==> 604_800 <= late - stakeTimestamp
    ensures 2 <= GetMultiplier(stakeTimestamp, late) <==> 2_592_000 <= late - stakeTimestamp
    ensures 3 <= GetMultiplier(stakeTimestamp, late) <==> 7_776_000 <= late - stakeTimestamp
  {
  }

  function Weight(k: Staker): (w: nat)
  {
    k.stakedAmount * k.currentMultiplier
  }

  /** What a weight has accrued since the accumulator was zero, rounded down to whole lamports. */
  function Accrued(weight: nat, rps: nat): (a: nat)
    ensures a <= weight * rps
  {
    weight * rps / PRECISION
  }

  /** The fraction of a lamport, in units of 1/PRECISION, that `Accrued` drops. */
  function Fraction(weight: nat, rps: nat): (r: nat)
    ensures r < PRECISION
    ensures weight * rps == PRECISION * Accrued(weight, rps) + r
  {
    weight * rps % PRECISION
  }

  lemma AccruedMonotone(weight: nat, early: nat, late: nat)
    requires early <= late
    ensures weight * early <= weight * late
    ensures Accrued(weight, early) <= Accrued(weight, late)
  {
    assert weight * late == weight * early + weight * (late - early);
  }

  /** Lamports the position could be paid now: checkpointed plus owed at its current weight. */
  function Payable(k: Staker, rps: nat): int
  {
    k.pendingRewards + Accrued(Weight(k), rps) - k.rewardDebt
  }

  /** Every checked operation of the owed computation is in range. */
  predicate OwedFits(k: Staker, rps: nat)
  {
    && Weight(k) * rps <= U128_MAX
    && k.rewardDebt <= Accrued(Weight(k), rps)
    && Payable(k, rps) <= U64_MAX
  }

  /** Every checked operation of a tier change to `m` is in range. */
  predicate SettleFits(k: Staker, m: Multiplier, tws: u128, rps: u128)
  {
    m != k.currentMultiplier ==>
      && (0 < k.currentMultiplier ==> OwedFits(k, rps))
      && Weight(k) <= tws
      && tws - Weight(k) + k.stakedAmount * m <= U128_MAX
      && k.stakedAmount * m * rps <= U128_MAX
  }

  /** The position after settlement at tier `m`: checkpoint at the old weight, debt at the new one. */
  function Settle(k: Staker, m: Multiplier, tws: u128, rps: u128): (r: Staker)
    requires SettleFits(k, m, tws, rps)
  {
    if m == k.currentMultiplier then k
    else k.(pendingRewards := if 0 < k.currentMultiplier then Payable(k, rps) else k.pendingRewards,
            currentMultiplier := m,
            rewardDebt := Accrued(k.stakedAmount * m, rps))
  }

  function WeightAfter(k: Staker, m: Multiplier, tws: u128, rps: u128): (r: u128)
    requires SettleFits(k, m, tws, rps)
  {
    if m == k.currentMultiplier then tws else tws - Weight(k) + k.stakedAmount * m
  }

  /** A tier change is forward-only: it changes the weight future deposits see and nothing that was
      earned so far, whatever the old and the new tier are. */
  lemma SettleIsForwardOnly(k: Staker, m: Multiplier, tws: u128, rps: u128)
    requires SettleFits(k, m, tws, rps)
    requires k.currentMultiplier == 0 ==> k.rewardDebt == 0
    ensures Payable(Settle(k, m, tws, rps), rps) == Payable(k, rps)
    ensures Weight(Settle(k, m, tws, rps)) == k.stakedAmount * m
    ensures m != k.currentMultiplier ==>
              Accrued(Weight(Settle(k, m, tws, rps)), rps) == Settle(k, m, tws, rps).rewardDebt
    ensures m == 0 ==> Settle(k, m, tws, rps).rewardDebt == 0
  {
  }
}
