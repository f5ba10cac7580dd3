/** Claim and unstake without their intermediate steps. In every state with the ledger's invariant and
    under any clock: exactly when each succeeds, with which error it fails, and all that it changes. */
module ClosedForms {
  import opened Numeric
  import opened MapSums
  import opened Rewards
  import opened Staking
  import opened RewardLedger
  import opened LedgerProofs
  import opened Conservation
  import opened Solvency

  /** The arithmetic that can stop a claim or an unstake. It concerns the position alone: neither the
      pool's weight nor the vault matters. */
  predicate PositionFits(k: Staker, m: Multiplier, rps: u128)
  {
    && (0 < k.currentMultiplier ==> OwedFits(k, rps))
    && (m != k.currentMultiplier ==> k.stakedAmount * m * rps <= U128_MAX)
  }

  /** What leaves the vault: everything payable, except below the first tier. */
  function Due(k: Staker, m: Multiplier, rps: nat): int
  {
    if m == 0 then 0 else Payable(k, rps)
  }

  /** The position after a claim at tier `m`. */
  function AfterClaim(k: Staker, m: Multiplier, rps: u128, now: i64): (r: Staker)
    requires PositionFits(k, m, rps)
  {
    if m == k.currentMultiplier && (m == 0 || Payable(k, rps) == 0) then k
    else k.(currentMultiplier := m,
            rewardDebt := Accrued(k.stakedAmount * m, rps),
            pendingRewards := if m == 0 then Payable(k, rps) else 0,
            lastClaimTimestamp := if Due(k, m, rps) == 0 then k.lastClaimTimestamp else now)
  }

  /** The vault check, with the error it fails with. */
  predicate RefusedByVault(s: State, due: int, rentMin: u64, e: Error)
  {
    !VaultCovers(s, due, rentMin) && e == if s.rewardVault < due then InsufficientRewards else RentExemptViolation
  }

  /** Paying `due` leaves less than 5 SOL in the vault. */
  predicate Alarms(s: State, due: int)
  {
    0 < due && s.rewardVault - due < 5_000_000_000
  }

  predicate ClaimedAs(s: State, user: Pubkey, env: Env, r: Result<Done>)
    requires user in s.stakers
  {
    var k, rps := s.stakers[user], s.pool.rewardPerShare;
    var m := GetMultiplier(k.stakeTimestamp, env.now);
    var due := Due(k, m, rps);
    match r
    case Err(e) => if PositionFits(k, m, rps) then RefusedByVault(s, due, env.rentMin, e) else e == MathOverflow
    case Ok(d) =>
      && PositionFits(k, m, rps) && VaultCovers(s, due, env.rentMin)
      && d.pay.lamports == due && d.pay.brain == 0
      && d.s.pool == s.pool.(totalWeightedStake := d.s.pool.totalWeightedStake,
                             isPaused := s.pool.isPaused || Alarms(s, due))
      && d.s.pool.totalWeightedStake == s.pool.totalWeightedStake - Weight(k) + k.stakedAmount * m
      && d.s.stakers == s.stakers[user := AfterClaim(k, m, rps, env.now)]
      && d.s.rewardVault == s.rewardVault - due
      && d.s.brainVault == s.brainVault && d.s.treasury == s.treasury
  }

  /** What leaving at tier `m` adds to the accumulator: below the first tier all that was payable is spread
      over the weight that stays. */
  function ForfeitIncrement(s: State, k: Staker, m: Multiplier): (inc: nat)
    requires PositionFits(k, m, s.pool.rewardPerShare) && 0 <= Payable(k, s.pool.rewardPerShare) <= U64_MAX
    requires Weight(k) <= s.pool.totalWeightedStake
  {
    if m > 0 then 0 else Redistribution(Payable(k, s.pool.rewardPerShare), s.pool.totalWeightedStake - Weight(k))
  }

  predicate UnstakedAs(s: State, user: Pubkey, env: Env, r: Result<Done>)
    requires user in s.stakers && Weight(s.stakers[user]) <= s.pool.totalWeightedStake
  {
    var k, rps := s.stakers[user], s.pool.rewardPerShare;
    var m := GetMultiplier(k.stakeTimestamp, env.now);
    var due := Due(k, m, rps);
    if !PositionFits(k, m, rps) then r == Err(MathOverflow)
    else
      && 0 <= Payable(k, rps) <= U64_MAX
      && match r
         case Err(e) =>
           RefusedByVault(s, due, env.rentMin, e)
           || (e == MathOverflow && rps + ForfeitIncrement(s, k, m) > U128_MAX)
         case Ok(d) =>
           && VaultCovers(s, due, env.rentMin) && rps + ForfeitIncrement(s, k, m) <= U128_MAX
           && d.pay.lamports == due && d.pay.brain == k.stakedAmount
           && d.s.pool == s.pool.(totalWeightedStake := d.s.pool.totalWeightedStake,
                                  totalStaked := d.s.pool.totalStaked,
                                  rewardPerShare := d.s.pool.rewardPerShare,
                                  isPaused := s.pool.isPaused || Alarms(s, due))
           && d.s.pool.totalWeightedStake == s.pool.totalWeightedStake - Weight(k)
           && d.s.pool.totalStaked == s.pool.totalStaked - k.stakedAmount
           && d.s.pool.rewardPerShare == rps + ForfeitIncrement(s, k, m)
           && d.s.stakers == s.stakers - {user}
           && d.s.rewardVault == s.rewardVault - due
           && d.s.brainVault == s.brainVault - k.stakedAmount && d.s.treasury == s.treasury
  }

  // ---- the pool's weight never matters ----

  /** A position's weight is part of the pool's, which is far below 128 bits. */
  lemma PoolHasRoom(t: Tracked, user: Pubkey)
    requires Inv(t) && user in t.s.stakers
    ensures Weight(t.s.stakers[user]) <= t.s.pool.totalWeightedStake <= 3 * U64_MAX
    ensures t.s.stakers[user].stakedAmount <= t.s.pool.totalStaked <= t.s.brainVault
  {
    SumTerm(t.s.stakers, WeightOf(), user);
    SumTerm(t.s.stakers, AmountOf(), user);
    WeightAtMostTriple(t.s.stakers);
  }

  /** Settlement at a pool weight `tws` does what it would do at any other. */
  predicate PoolNeutral(k: Staker, m: Multiplier, tws: u128, rps: u128)
  {
    && (PositionFits(k, m, rps) <==>
          SettleFits(k, m, tws, rps) && (0 < m ==> OwedFits(Settle(k, m, tws, rps), rps)))
    && (PositionFits(k, m, rps) ==>
          && 0 <= Payable(k, rps) <= U64_MAX
          && Payable(Settle(k, m, tws, rps), rps) == Payable(k, rps)
          && WeightAfter(k, m, tws, rps) == tws - Weight(k) + k.stakedAmount * m
          && Weight(Settle(k, m, tws, rps)) == k.stakedAmount * m)
  }

  lemma PoolNeverStops(k: Staker, m: Multiplier, tws: u128, rps: u128, snap: nat)
    requires PositionOk(k, snap, rps) && Weight(k) <= tws <= 3 * U64_MAX
    ensures PoolNeutral(k, m, tws, rps)
    ensures k.currentMultiplier == 0 ==> k.rewardDebt == 0 && Payable(k, rps) == k.pendingRewards
  {
    ProductMonotone(k.stakedAmount, U64_MAX, m, 3);
    NoWeightNoDebt(k, snap, rps);
    AccruedMonotone(Weight(k), snap, rps);
    if SettleFits(k, m, tws, rps) { SettleIsForwardOnly(k, m, tws, rps); }
    if k.currentMultiplier == 0 { assert Weight(k) == 0; }
    hide Accrued;
  }

  // ---- the closed forms ----

  lemma ClaimForm(t: Tracked, user: Pubkey, env: Env)
    requires Inv(t) && user in t.s.stakers && !t.s.pool.isPaused
    ensures ClaimedAs(t.s, user, env, Claim(t.s, user, env))
  {
    var k, rps := t.s.stakers[user], t.s.pool.rewardPerShare;
    PoolHasRoom(t, user);
    PoolNeverStops(k, GetMultiplier(k.stakeTimestamp, env.now), t.s.pool.totalWeightedStake, rps, t.h.snap[user]);
    hide *;
    ClaimUnfolds(t.s, user, env);
  }

  lemma ClaimUnfolds(s: State, user: Pubkey, env: Env)
    requires user in s.stakers && !s.pool.isPaused
    requires var k, rps := s.stakers[user], s.pool.rewardPerShare;
      && PoolNeutral(k, GetMultiplier(k.stakeTimestamp, env.now), s.pool.totalWeightedStake, rps)
      && (k.currentMultiplier == 0 ==> k.rewardDebt == 0 && Payable(k, rps) == k.pendingRewards)
    ensures ClaimedAs(s, user, env, Claim(s, user, env))
  {
    hide SettleFits, OwedFits, Accrued, GetMultiplier, Weight;
  }

  lemma UnstakeForm(t: Tracked, user: Pubkey, env: Env)
    requires Inv(t) && user in t.s.stakers
    ensures Weight(t.s.stakers[user]) <= t.s.pool.totalWeightedStake
    ensures UnstakedAs(t.s, user, env, Unstake(t.s, user, env))
  {
    var k, rps := t.s.stakers[user], t.s.pool.rewardPerShare;
    PoolHasRoom(t, user);
    PoolNeverStops(k, GetMultiplier(k.stakeTimestamp, env.now), t.s.pool.totalWeightedStake, rps, t.h.snap[user]);
    hide *;
    if GetMultiplier(k.stakeTimestamp, env.now) > 0 {
      PayingUnstakeUnfolds(t.s, user, env);
    } else {
      ForfeitingUnstakeUnfolds(t.s, user, env);
    }
  }

  lemma PayingUnstakeUnfolds(s: State, user: Pubkey, env: Env)
    requires user in s.stakers && s.stakers[user].stakedAmount <= s.pool.totalStaked <= s.brainVault
    requires var k, rps := s.stakers[user], s.pool.rewardPerShare;
      && PoolNeutral(k, GetMultiplier(k.stakeTimestamp, env.now), s.pool.totalWeightedStake, rps)
      && 0 < GetMultiplier(k.stakeTimestamp, env.now) && Weight(k) <= s.pool.totalWeightedStake
    ensures UnstakedAs(s, user, env, Unstake(s, user, env))
  {
    hide SettleFits, OwedFits, Accrued, GetMultiplier, Weight;
  }

  lemma ForfeitingUnstakeUnfolds(s: State, user: Pubkey, env: Env)
    requires user in s.stakers && s.stakers[user].stakedAmount <= s.pool.totalStaked <= s.brainVault
    requires var k, rps := s.stakers[user], s.pool.rewardPerShare;
      && PoolNeutral(k, GetMultiplier(k.stakeTimestamp, env.now), s.pool.totalWeightedStake, rps)
      && GetMultiplier(k.stakeTimestamp, env.now) == 0 && Weight(k) <= s.pool.totalWeightedStake
      && (k.currentMultiplier == 0 ==> k.rewardDebt == 0 && Payable(k, rps) == k.pendingRewards)
    ensures UnstakedAs(s, user, env, Unstake(s, user, env))
  {
    hide SettleFits, OwedFits, Accrued, GetMultiplier, Weight;
  }

  // ---- a seeded vault refuses nobody ----

  predicate RefusesForVault(r: Result<Done>)
  {
    r == Err(InsufficientRewards) || r == Err(RentExemptViolation)
  }

  lemma SeededVaultAccepts(t: Tracked, user: Pubkey, env: Env)
    requires Inv(t) && env.rentMin + Excess(t.h.resets) <= t.h.seed
    ensures !RefusesForVault(Claim(t.s, user, env)) && !RefusesForVault(Unstake(t.s, user, env))
  {
    if user in t.s.stakers {
      SeededVaultCovers(t, user, env.rentMin);
      UnstakeForm(t, user, env);
      if !t.s.pool.isPaused { ClaimForm(t, user, env); }
      ClaimRefusals(t.s, user, env);
      hide Inv, Claim, Unstake, PositionFits, Payable, Weight, GetMultiplier;
    } else {
      hide Inv;
    }
  }

  lemma ClaimRefusals(s: State, user: Pubkey, env: Env)
    ensures s.pool.isPaused ==> !RefusesForVault(Claim(s, user, env))
  {
    hide SettleFits, OwedFits, Payable, GetMultiplier, Settled;
  }

  /** After any run, under any clock, with any minimum stake and any volume of deposits: while the vault was
      seeded with the rent minimum and the rounding excess, neither a claim nor an unstake fails for lack of
      rewards or of rent. */
  lemma SeededVaultNeverRefuses(t0: Tracked, calls: seq<Call>, user: Pubkey, env: Env)
    requires Initial(t0)
    requires var r := Run(t0, calls); env.rentMin + Excess(r.h.resets) <= r.h.seed
    ensures var r := Run(t0, calls);
      !RefusesForVault(Claim(r.s, user, env)) && !RefusesForVault(Unstake(r.s, user, env))
  {
    hide *;
    InitialInv(t0);
    RunKeepsInv(t0, calls);
    SeededVaultAccepts(Run(t0, calls), user, env);
  }

  // ---- what the ledger and each staker see ----

  /** What leaving forfeits: all that was payable, below the first tier. */
  lemma UnstakeForfeits(t: Tracked, user: Pubkey, env: Env)
    requires Inv(t) && Unstake(t.s, user, env).Ok?
    ensures ForfeitedAs(t, Step(t, env, UnstakeEvent(user)).h, user, env)
  {
    var k, rps := t.s.stakers[user], t.s.pool.rewardPerShare;
    PoolHasRoom(t, user);
    PoolNeverStops(k, GetMultiplier(k.stakeTimestamp, env.now), t.s.pool.totalWeightedStake, rps, t.h.snap[user]);
    hide Inv;
    ForfeitUnfolds(t, user, env);
  }

  predicate ForfeitedAs(t: Tracked, h: History, user: Pubkey, env: Env)
    requires Unstake(t.s, user, env).Ok?
  {
    var k := t.s.stakers[user];
    if GetMultiplier(k.stakeTimestamp, env.now) > 0 then
      h.forfeited == t.h.forfeited
      && h.paidTo == t.h.paidTo[user := PaidTo(t.h, user) + Unstake(t.s, user, env).value.pay.lamports]
    else
      h.forfeited == t.h.forfeited + Payable(k, t.s.pool.rewardPerShare) && h.paidTo == t.h.paidTo
  }

  lemma ForfeitUnfolds(t: Tracked, user: Pubkey, env: Env)
    requires Unstake(t.s, user, env).Ok?
    requires var k, rps := t.s.stakers[user], t.s.pool.rewardPerShare;
      && PoolNeutral(k, GetMultiplier(k.stakeTimestamp, env.now), t.s.pool.totalWeightedStake, rps)
      && (k.currentMultiplier == 0 ==> k.rewardDebt == 0 && Payable(k, rps) == k.pendingRewards)
    ensures ForfeitedAs(t, Step(t, env, UnstakeEvent(user)).h, user, env)
  {
    hide SettleFits, OwedFits, Accrued, GetMultiplier, Weight, FinishUnstake;
  }

  /** All that `user` has been paid or could be paid now. */
  function Lifetime(t: Tracked, user: Pubkey): int
  {
    PaidTo(t.h, user) + (if user in t.s.stakers then Payable(t.s.stakers[user], t.s.pool.rewardPerShare) else 0)
  }

  lemma AfterClaimPayable(k: Staker, m: Multiplier, rps: u128, now: i64)
    requires PositionFits(k, m, rps) && (k.currentMultiplier == 0 ==> k.rewardDebt == 0)
    ensures Payable(AfterClaim(k, m, rps, now), rps) == Payable(k, rps) - Due(k, m, rps)
    ensures Weight(AfterClaim(k, m, rps, now)) == k.stakedAmount * m
  {
    if m == 0 { assert k.stakedAmount * m == 0; }
    if k.currentMultiplier == 0 { assert Weight(k) == 0; }
  }

  /** A claim, whoever makes it and whatever the clock, changes nobody's total. */
  lemma LifetimeOverClaim(t: Tracked, env: Env, claimer: Pubkey, user: Pubkey)
    requires Inv(t)
    ensures Lifetime(Step(t, env, ClaimEvent(claimer)), user) == Lifetime(t, user)
    ensures Step(t, env, ClaimEvent(claimer)).s.pool.rewardPerShare == t.s.pool.rewardPerShare
    ensures Step(t, env, ClaimEvent(claimer)).s.stakers.Keys == t.s.stakers.Keys
  {
    if Claim(t.s, claimer, env).Ok? {
      ClaimForm(t, claimer, env);
      var k, rps := t.s.stakers[claimer], t.s.pool.rewardPerShare;
      NoWeightNoDebt(k, t.h.snap[claimer], rps);
      AfterClaimPayable(k, GetMultiplier(k.stakeTimestamp, env.now), rps, env.now);
    }
    hide Inv, Claim, PositionFits, AfterClaim, Payable, Weight, GetMultiplier, Due, RecordTier;
  }

  /** Leaving changes the total of the leaver by what is forfeited, and of the others by what the
      accumulator gains. */
  lemma LifetimeOverUnstake(t: Tracked, env: Env, leaver: Pubkey, user: Pubkey)
    requires Inv(t)
    ensures var t' := Step(t, env, UnstakeEvent(leaver));
      var forfeited := t'.h.forfeited - t.h.forfeited;
      if user == leaver then Lifetime(t', user) == Lifetime(t, user) - forfeited
      else if user in t.s.stakers then
        Lifetime(t', user) - Lifetime(t, user)
        == Accrued(Weight(t.s.stakers[user]), t'.s.pool.rewardPerShare)
           - Accrued(Weight(t.s.stakers[user]), t.s.pool.rewardPerShare)
      else Lifetime(t', user) == Lifetime(t, user)
  {
    if Unstake(t.s, leaver, env).Ok? {
      UnstakeForm(t, leaver, env);
      UnstakeForfeits(t, leaver, env);
    }
    hide Inv, Unstake, PositionFits, Weight, Accrued, GetMultiplier, Record, ForfeitIncrement;
  }

  /** Leaving without forfeiting leaves the accumulator alone. */
  lemma RateOverUnstake(t: Tracked, env: Env, leaver: Pubkey)
    requires Inv(t) && Step(t, env, UnstakeEvent(leaver)).h.forfeited == t.h.forfeited
    ensures Step(t, env, UnstakeEvent(leaver)).s.pool.rewardPerShare == t.s.pool.rewardPerShare
  {
    if Unstake(t.s, leaver, env).Ok? {
      UnstakeForm(t, leaver, env);
      UnstakeForfeits(t, leaver, env);
    }
    hide Inv, Unstake, PositionFits, Weight, Payable, GetMultiplier, Record;
  }
}
