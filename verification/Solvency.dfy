/** Under a clock that never goes back: what positions look like between instructions, why no checked
    operation of claim or unstake fails, and exactly when a claim or an unstake succeeds. */
module Solvency {
  import opened Numeric
  import opened MapSums
  import opened Rewards
  import opened Staking
  import opened RewardLedger
  import opened LedgerProofs
  import opened Conservation

  /** The least minimum stake for which the bound on the accumulator keeps a weight times it within 128 bits. */
  const SAFE_MIN_STAKE: int := 1_626_304

  function TiersLeft(): Staker -> int { (k: Staker) => 3 - k.currentMultiplier }

  /** A position between instructions: nothing checkpointed, and a stored tier already reached. */
  predicate OnTime(k: Staker, clock: i64, minStake: nat)
  {
    && k.pendingRewards == 0
    && k.stakeTimestamp <= clock
    && k.currentMultiplier <= GetMultiplier(k.stakeTimestamp, clock)
    && minStake <= k.stakedAmount
  }

  /** The accumulator is at most what all deposits would add over the least possible weight. */
  predicate RateBounded(rps: nat, minStake: nat, distributed: nat)
  {
    rps * minStake <= PRECISION * distributed
  }

  ghost predicate Timely(t: Tracked, clock: i64, minStake: nat)
  {
    && (forall u :: u in t.s.stakers ==> OnTime(t.s.stakers[u], clock, minStake))
    && t.h.forfeited == 0
    && t.h.resets + Sum(t.s.stakers, TiersLeft()) <= 3 * t.h.opens
    && RateBounded(t.s.pool.rewardPerShare, minStake, t.s.pool.totalRewardsDistributed)
    && minStake <= t.s.pool.minStakeAmount
  }

  /** The clock does not go back, and the owner never sets the minimum stake below `minStake`. */
  predicate Orderly(clock: i64, calls: seq<Call>, minStake: nat)
    decreases |calls|
  {
    calls != [] ==>
      && clock <= calls[0].env.now
      && KeepsMinimum(calls[0].event, minStake)
      && Orderly(calls[0].env.now, calls[1..], minStake)
  }

  predicate KeepsMinimum(e: Event, minStake: nat)
  {
    e.ConfigEvent? && e.minStake.Some? ==> minStake <= e.minStake.value
  }

  function ClockAfter(clock: i64, calls: seq<Call>): (r: i64)
    decreases |calls|
  {
    if calls == [] then clock else ClockAfter(calls[0].env.now, calls[1..])
  }

  // ---- kept by every instruction ----

  lemma OnTimeLater(k: Staker, clock: i64, later: i64, minStake: nat)
    requires OnTime(k, clock, minStake) && clock <= later
    ensures OnTime(k, later, minStake)
  {
  }

  lemma AllOnTimeLater(t: Tracked, clock: i64, later: i64, minStake: nat)
    requires Timely(t, clock, minStake) && clock <= later
    ensures Timely(t, later, minStake)
  {
    forall u | u in t.s.stakers
      ensures OnTime(t.s.stakers[u], later, minStake)
    {
      OnTimeLater(t.s.stakers[u], clock, later, minStake);
    }
  }

  /** A settled position has nothing checkpointed except what it earned at its old weight. */
  lemma SettledTimely(t: Tracked, user: Pubkey, now: i64, minStake: nat)
    requires Timely(t, now, minStake) && user in t.s.stakers
    requires var k := t.s.stakers[user];
      SettleFits(k, GetMultiplier(k.stakeTimestamp, now), t.s.pool.totalWeightedStake, t.s.pool.rewardPerShare)
    ensures var t1 := SettledTracked(t, user, now);
      && (t1.s.stakers[user].currentMultiplier == 0 ==> t1.s.stakers[user] == t.s.stakers[user])
      && t1.h.resets + Sum(t1.s.stakers, TiersLeft()) <= 3 * t1.h.opens
      && t1.s.stakers[user].currentMultiplier
         == GetMultiplier(t.s.stakers[user].stakeTimestamp, now)
  {
    var t1 := SettledTracked(t, user, now);
    SumUpdate(t.s.stakers, TiersLeft(), user, t1.s.stakers[user]);
  }

  /** `t'` has the positions of `t` except perhaps that of `user`, and the same pool parameters. */
  lemma ChangeKeepsTimely(t: Tracked, t': Tracked, clock: i64, minStake: nat, user: Pubkey)
    requires Timely(t, clock, minStake)
    requires forall u :: u in t'.s.stakers && u != user ==> u in t.s.stakers && t'.s.stakers[u] == t.s.stakers[u]
    requires user in t'.s.stakers ==> OnTime(t'.s.stakers[user], clock, minStake)
    requires t'.h.forfeited == 0
    requires t'.h.resets + Sum(t'.s.stakers, TiersLeft()) <= 3 * t'.h.opens
    requires t'.s.pool.rewardPerShare == t.s.pool.rewardPerShare
    requires t'.s.pool.totalRewardsDistributed == t.s.pool.totalRewardsDistributed
    requires t'.s.pool.minStakeAmount == t.s.pool.minStakeAmount
    ensures Timely(t', clock, minStake)
  {
  }

  lemma ClaimKeepsTimely(t: Tracked, env: Env, user: Pubkey, minStake: nat)
    requires Timely(t, env.now, minStake)
    ensures Timely(Step(t, env, ClaimEvent(user)), env.now, minStake)
  {
    hide SettleFits, OwedFits, Payable, Weight, Accrued, Fraction, Sum;
    if Claim(t.s, user, env).Ok? {
      ClaimSettlesThenPays(t, env, user);
      SettledTimely(t, user, env.now, minStake);
      hide Claim;
      var t1 := SettledTracked(t, user, env.now);
      var t' := Step(t, env, ClaimEvent(user));
      SumUpdate(t1.s.stakers, TiersLeft(), user, t'.s.stakers[user]);
      assert t'.s.stakers == t1.s.stakers[user := t'.s.stakers[user]];
      ChangeKeepsTimely(t, t', env.now, minStake, user);
    }
  }

  lemma UnstakeKeepsTimely(t: Tracked, env: Env, user: Pubkey, minStake: nat)
    requires Timely(t, env.now, minStake)
    ensures Timely(Step(t, env, UnstakeEvent(user)), env.now, minStake)
  {
    hide SettleFits, OwedFits, Payable, Weight, Accrued, Fraction, Sum;
    if Unstake(t.s, user, env).Ok? {
      var k := t.s.stakers[user];
      SettledTimely(t, user, env.now, minStake);
      var t1 := SettledTracked(t, user, env.now);
      var t' := Step(t, env, UnstakeEvent(user));
      SumRemove(t1.s.stakers, TiersLeft(), user);
      if GetMultiplier(k.stakeTimestamp, env.now) > 0 {
        UnstakeSettlesThenPays(t, env, user);
      } else {
        UnstakeSettlesThenForfeits(t, env, user);
      }
      hide Unstake;
      ChangeKeepsTimely(t, t', env.now, minStake, user);
    }
  }

  lemma StakeKeepsTimely(t: Tracked, env: Env, user: Pubkey, amount: u64, wallet: u64, minStake: nat)
    requires Timely(t, env.now, minStake)
    ensures Timely(Step(t, env, StakeEvent(user, amount, wallet)), env.now, minStake)
  {
    hide Sum, RateBounded, Weight;
    if Stake(t.s, user, amount, wallet, env).Ok? {
      SumUpdate(t.s.stakers, TiersLeft(), user, Staker(amount, env.now, 0, 0, env.now, 0));
    }
  }

  lemma AmountWithinWeight(k: Staker)
    requires 0 < Weight(k)
    ensures k.stakedAmount <= Weight(k)
  {
  }

  /** A non-zero pool weight is at least the minimum stake. */
  lemma WeightAtLeastMinimum(t: Tracked, clock: i64, minStake: nat)
    requires Aggregates(t) && Timely(t, clock, minStake) && 0 < t.s.pool.totalWeightedStake
    ensures minStake <= t.s.pool.totalWeightedStake
  {
    var u := SumPositive(t.s.stakers, WeightOf());
    SumTerm(t.s.stakers, WeightOf(), u);
    AmountWithinWeight(t.s.stakers[u]);
  }

  lemma IncrementBounded(net: u64, tws: u128, minStake: nat, rps: nat, distributed: nat)
    requires 0 < tws && minStake <= tws && RateBounded(rps, minStake, distributed)
    ensures RateBounded(rps + Increment(net, tws), minStake, distributed + net)
  {
    var inc := Increment(net, tws);
    SpreadRemainder(net, tws);
    ProductMonotone(inc, inc, minStake, tws);
    assert (rps + inc) * minStake == rps * minStake + inc * minStake;
    hide Increment;
  }

  lemma RaiseKeepsTimely(t: Tracked, t': Tracked, clock: i64, minStake: nat)
    requires Timely(t, clock, minStake) && t'.s.stakers == t.s.stakers
    requires t'.h.forfeited == t.h.forfeited && t'.h.resets == t.h.resets && t'.h.opens == t.h.opens
    requires RateBounded(t'.s.pool.rewardPerShare, minStake, t'.s.pool.totalRewardsDistributed)
    requires t'.s.pool.minStakeAmount == t.s.pool.minStakeAmount
    ensures Timely(t', clock, minStake)
  {
  }

  lemma DepositKeepsTimely(t: Tracked, env: Env, authority: Pubkey, amount: u64, funds: u64, minStake: nat)
    requires Inv(t) && Timely(t, env.now, minStake)
    ensures Timely(Step(t, env, DepositEvent(authority, amount, funds)), env.now, minStake)
  {
    if DepositRewards(t.s, authority, amount, funds).Ok? {
      var net := DepositRaises(t, env, authority, amount, funds);
      hide DepositRewards;
      WeightAtLeastMinimum(t, env.now, minStake);
      IncrementBounded(net, t.s.pool.totalWeightedStake, minStake, t.s.pool.rewardPerShare,
                       t.s.pool.totalRewardsDistributed);
      RaiseKeepsTimely(t, Step(t, env, DepositEvent(authority, amount, funds)), env.now, minStake);
    }
  }

  lemma StepKeepsTimely(t: Tracked, clock: i64, env: Env, e: Event, minStake: nat)
    requires Inv(t) && Timely(t, clock, minStake) && clock <= env.now && KeepsMinimum(e, minStake)
    ensures Timely(Step(t, env, e), env.now, minStake)
  {
    hide *;
    AllOnTimeLater(t, clock, env.now, minStake);
    match e
    case StakeEvent(user, amount, wallet) => StakeKeepsTimely(t, env, user, amount, wallet, minStake);
    case DepositEvent(authority, amount, funds) =>
      DepositKeepsTimely(t, env, authority, amount, funds, minStake);
    case ClaimEvent(user) => ClaimKeepsTimely(t, env, user, minStake);
    case UnstakeEvent(user) => UnstakeKeepsTimely(t, env, user, minStake);
    case ConfigEvent(_, _, _) => SettingKeepsTimely(t, env, e, minStake);
    case PauseEvent(_) => SettingKeepsTimely(t, env, e, minStake);
    case ResumeEvent(_) => SettingKeepsTimely(t, env, e, minStake);
    case GiftEvent(_, _) => SettingKeepsTimely(t, env, e, minStake);
  }

  lemma SettingKeepsTimely(t: Tracked, env: Env, e: Event, minStake: nat)
    requires Timely(t, env.now, minStake) && KeepsMinimum(e, minStake)
    requires e.ConfigEvent? || e.PauseEvent? || e.ResumeEvent? || e.GiftEvent?
    ensures Timely(Step(t, env, e), env.now, minStake)
  {
    hide OnTime, RateBounded, Sum;
  }

  /** In every orderly run rewards are never left checkpointed, a stored tier is never ahead of the
      clock, a position resets its debt at most three times, and nothing is ever forfeited. */
  lemma {:induction false} RunKeepsTimely(t: Tracked, clock: i64, calls: seq<Call>, minStake: nat)
    requires Inv(t) && Timely(t, clock, minStake) && Orderly(clock, calls, minStake)
    ensures Inv(Run(t, calls)) && Timely(Run(t, calls), ClockAfter(clock, calls), minStake)
    ensures clock <= ClockAfter(clock, calls)
    decreases |calls|
  {
    if calls != [] {
      var t' := Step(t, calls[0].env, calls[0].event);
      StepKeepsInv(t, calls[0].env, calls[0].event);
      StepKeepsTimely(t, clock, calls[0].env, calls[0].event, minStake);
      RunKeepsTimely(t', calls[0].env.now, calls[1..], minStake);
    }
  }

  lemma InitialTimely(t: Tracked, clock: i64, minStake: nat)
    requires Initial(t) && minStake <= t.s.pool.minStakeAmount
    ensures Inv(t) && Timely(t, clock, minStake)
  {
  }

  // ---- no checked operation fails ----

  /** No weight of a position times the accumulator leaves 128 bits. */
  lemma WeightedFits(weight: nat, rps: nat, minStake: nat, distributed: u64)
    requires weight <= 3 * MAX_STAKE_AMOUNT && SAFE_MIN_STAKE <= minStake
    requires RateBounded(rps, minStake, distributed)
    ensures weight * rps <= U128_MAX
  {
    ProductMonotone(rps, rps, SAFE_MIN_STAKE, minStake);
    ProductMonotone(weight, 3 * MAX_STAKE_AMOUNT, rps, rps);
    LargestWeightFits(rps);
    hide *;
  }

  lemma LargestWeightFits(rps: nat)
    requires rps * SAFE_MIN_STAKE <= PRECISION * U64_MAX
    ensures 3 * MAX_STAKE_AMOUNT * rps <= U128_MAX
  {
  }

  /** Every payable amount fits in 64 bits while deposits stay a rounding margin below the limit. */
  lemma PayableFits(t: Tracked, user: Pubkey)
    requires Inv(t) && user in t.s.stakers
    requires t.s.pool.totalRewardsDistributed + Excess(t.h.resets) <= U64_MAX
    ensures 0 <= Payable(t.s.stakers[user], t.s.pool.rewardPerShare) <= U64_MAX
    ensures t.h.paid + Payable(t.s.stakers[user], t.s.pool.rewardPerShare)
         <= t.s.pool.totalRewardsDistributed + Excess(t.h.resets)
  {
    PayableNonNegative(t);
    CommittedBounded(t);
    SumTerm(t.s.stakers, PayableOf(t.s.pool.rewardPerShare), user);
  }

  /** The conditions on configuration and volume under which the arithmetic is safe. */
  predicate Sized(t: Tracked, minStake: nat)
  {
    && SAFE_MIN_STAKE <= minStake
    && t.s.pool.totalRewardsDistributed + Excess(t.h.resets) <= U64_MAX
  }

  lemma TierFits(t: Tracked, clock: i64, user: Pubkey, m: Multiplier, minStake: nat)
    requires Inv(t) && Timely(t, clock, minStake) && Sized(t, minStake) && user in t.s.stakers
    ensures t.s.stakers[user].stakedAmount * m * t.s.pool.rewardPerShare <= U128_MAX
    ensures Weight(t.s.stakers[user]) <= t.s.pool.totalWeightedStake <= 3 * t.s.pool.totalStaked
  {
    var k := t.s.stakers[user];
    ProductMonotone(k.stakedAmount, MAX_STAKE_AMOUNT, m, 3);
    WeightedFits(k.stakedAmount * m, t.s.pool.rewardPerShare, minStake, t.s.pool.totalRewardsDistributed);
    SumTerm(t.s.stakers, WeightOf(), user);
    WeightAtMostTriple(t.s.stakers);
  }

  lemma WeightAtMostTriple(m: map<Pubkey, Staker>)
    ensures Sum(m, WeightOf()) <= 3 * Sum(m, AmountOf())
  {
    var triple := (k: Staker) => 3 * k.stakedAmount;
    forall u | u in m
      ensures WeightOf()(m[u]) <= triple(m[u])
    {
      ProductMonotone(m[u].stakedAmount, m[u].stakedAmount, m[u].currentMultiplier, 3);
    }
    SumMonotone(m, WeightOf(), triple);
    SumLinear(m, AmountOf(), AmountOf(), triple, 2);
  }

  /** No checked operation of settlement or of the owed computation fails in a reachable state. */
  lemma SettlementFits(t: Tracked, clock: i64, user: Pubkey, now: i64, minStake: nat)
    requires Inv(t) && Timely(t, clock, minStake) && Sized(t, minStake) && user in t.s.stakers
    ensures var k := t.s.stakers[user];
      var rps := t.s.pool.rewardPerShare;
      var m := GetMultiplier(k.stakeTimestamp, now);
      && SettleFits(k, m, t.s.pool.totalWeightedStake, rps)
      && OwedFits(Settle(k, m, t.s.pool.totalWeightedStake, rps), rps)
      && Payable(Settle(k, m, t.s.pool.totalWeightedStake, rps), rps) == Payable(k, rps)
  {
    var k := t.s.stakers[user];
    var rps, tws := t.s.pool.rewardPerShare, t.s.pool.totalWeightedStake;
    var m := GetMultiplier(k.stakeTimestamp, now);
    TierFits(t, clock, user, m, minStake);
    TierFits(t, clock, user, k.currentMultiplier, minStake);
    PayableFits(t, user);
    PositionStaysOk(k, t.h.snap[user], rps, rps);
    NoWeightNoDebt(k, t.h.snap[user], rps);
    SettleIsForwardOnly(k, m, tws, rps);
  }

  // ---- exactly when claim and unstake succeed ----

  /** Whether the reward vault can pay `owed` and stay rent-exempt. */
  predicate VaultCovers(s: State, owed: int, rentMin: u64)
  {
    owed == 0 || owed + rentMin <= s.rewardVault
  }

  /** A claim on an open, unpaused position succeeds exactly when the vault covers what is owed, and
      then pays exactly that; arithmetic never stops it. */
  lemma ClaimSucceedsExactly(t: Tracked, clock: i64, user: Pubkey, env: Env, minStake: nat)
    requires Inv(t) && Timely(t, clock, minStake) && Sized(t, minStake) && clock <= env.now
    requires user in t.s.stakers && !t.s.pool.isPaused
    ensures var owed := Payable(t.s.stakers[user], t.s.pool.rewardPerShare);
      match Claim(t.s, user, env)
      case Ok(d) => VaultCovers(t.s, owed, env.rentMin) && d.pay.lamports == owed && d.pay.brain == 0
      case Err(e) => !VaultCovers(t.s, owed, env.rentMin) && (e == InsufficientRewards || e == RentExemptViolation)
  {
    SettlementFits(t, clock, user, env.now, minStake);
    BelowCliffNothingOwed(t, clock, user, env.now, minStake);
    hide SettleFits, OwedFits, Payable, Weight, Accrued;
  }

  lemma BelowCliffNothingOwed(t: Tracked, clock: i64, user: Pubkey, now: i64, minStake: nat)
    requires Inv(t) && Timely(t, clock, minStake) && clock <= now && user in t.s.stakers
    ensures GetMultiplier(t.s.stakers[user].stakeTimestamp, now) == 0 ==>
              t.s.stakers[user].currentMultiplier == 0
              && Payable(t.s.stakers[user], t.s.pool.rewardPerShare) == 0
  {
    var k := t.s.stakers[user];
    TierMonotone(k.stakeTimestamp, clock, now);
    NoWeightNoDebt(k, t.h.snap[user], t.s.pool.rewardPerShare);
    if k.currentMultiplier == 0 {
      assert Weight(k) == 0 && Weight(k) * t.s.pool.rewardPerShare == 0;
    }
  }

  /** An unstake, on a paused pool or not, succeeds exactly when the vault covers what is owed, and
      then returns the whole principal together with exactly what is owed. */
  lemma UnstakeSucceedsExactly(t: Tracked, clock: i64, user: Pubkey, env: Env, minStake: nat)
    requires Inv(t) && Timely(t, clock, minStake) && Sized(t, minStake) && clock <= env.now
    requires user in t.s.stakers
    ensures var owed := Payable(t.s.stakers[user], t.s.pool.rewardPerShare);
      match Unstake(t.s, user, env)
      case Ok(d) =>
        VaultCovers(t.s, owed, env.rentMin)
        && d.pay.lamports == owed && d.pay.brain == t.s.stakers[user].stakedAmount
      case Err(e) => !VaultCovers(t.s, owed, env.rentMin) && (e == InsufficientRewards || e == RentExemptViolation)
  {
    SettlementFits(t, clock, user, env.now, minStake);
    BelowCliffNothingOwed(t, clock, user, env.now, minStake);
    CloseFits(t, user, env.now);
    hide SettleFits, OwedFits, Payable, Weight, Accrued;
  }

  /** After settlement the position's weight and amount are still within the pool's totals. */
  lemma CloseFits(t: Tracked, user: Pubkey, now: i64)
    requires Inv(t) && user in t.s.stakers
    requires var k := t.s.stakers[user];
      SettleFits(k, GetMultiplier(k.stakeTimestamp, now), t.s.pool.totalWeightedStake, t.s.pool.rewardPerShare)
    ensures var s1 := Settled(t.s, user, now);
      && Weight(s1.stakers[user]) <= s1.pool.totalWeightedStake
      && s1.stakers[user].stakedAmount <= s1.pool.totalStaked <= s1.brainVault
  {
    SettledKeepsInv(t, user, now);
    var t1 := SettledTracked(t, user, now);
    SumTerm(t1.s.stakers, WeightOf(), user);
    SumTerm(t1.s.stakers, AmountOf(), user);
  }

  /** A vault seeded with the rent minimum and the possible rounding excess covers every position. */
  lemma SeededVaultCovers(t: Tracked, user: Pubkey, rentMin: u64)
    requires Inv(t) && user in t.s.stakers
    requires rentMin + Excess(t.h.resets) <= t.h.seed
    ensures VaultCovers(t.s, Payable(t.s.stakers[user], t.s.pool.rewardPerShare), rentMin)
  {
    PayableNonNegative(t);
    CommittedBounded(t);
    SumTerm(t.s.stakers, PayableOf(t.s.pool.rewardPerShare), user);
  }

  /** Principal is always returned: after any orderly run, with the vault seeded as above (three
      lamports per position ever opened are enough), any staker can unstake, paused or not. */
  lemma PrincipalAlwaysReturned(t: Tracked, clock: i64, calls: seq<Call>, user: Pubkey, env: Env, minStake: nat)
    requires Initial(t) && SAFE_MIN_STAKE <= minStake <= t.s.pool.minStakeAmount
    requires Orderly(clock, calls, minStake) && ClockAfter(clock, calls) <= env.now
    requires var r := Run(t, calls);
      && user in r.s.stakers
      && r.s.pool.totalRewardsDistributed + 3 * r.h.opens <= U64_MAX
      && (env.rentMin + Excess(r.h.resets) <= r.h.seed || env.rentMin + 3 * r.h.opens <= r.h.seed)
    ensures var r := Run(t, calls);
      && Unstake(r.s, user, env).Ok?
      && Unstake(r.s, user, env).value.pay.lamports == Payable(r.s.stakers[user], r.s.pool.rewardPerShare)
      && Unstake(r.s, user, env).value.pay.brain == r.s.stakers[user].stakedAmount
      && (!r.s.pool.isPaused ==> Claim(r.s, user, env).Ok?)
  {
    InitialTimely(t, clock, minStake);
    RunKeepsTimely(t, clock, calls, minStake);
    var r := Run(t, calls);
    SumNonNegative(r.s.stakers, TiersLeft());
    SeededVaultCovers(r, user, env.rentMin);
    UnstakeSucceedsExactly(r, ClockAfter(clock, calls), user, env, minStake);
    if !r.s.pool.isPaused {
      ClaimSucceedsExactly(r, ClockAfter(clock, calls), user, env, minStake);
    }
  }
}
