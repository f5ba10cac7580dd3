/** The staking instructions in the form the program has: handlers that work on in-memory copies of
    the accounts, one checked operation at a time, and write them back only on success. */
module StakingProgram {
  import opened Numeric
  import opened Rewards
  import opened Staking
  import opened RewardLedger
  import opened LedgerProofs

  /** The tier change that claim and unstake both begin with: checkpoint at the old weight, move the
      pool weight, reset the debt at the new weight. Any checked operation may fail. */
  method SettleMultiplier(k: Staker, newMult: Multiplier, tws: u128, rps: u128)
    returns (r: Result<(Staker, u128)>)
    ensures r.Ok? <==> SettleFits(k, newMult, tws, rps)
    ensures r.Ok? ==> r.value == (Settle(k, newMult, tws, rps), WeightAfter(k, newMult, tws, rps))
    ensures r.Err? ==> r.error == MathOverflow
  {
    var staker, total := k, tws;
    if newMult != staker.currentMultiplier {
      var oldMult := staker.currentMultiplier;
      WeightFits(staker.stakedAmount, oldMult);
      WeightFits(staker.stakedAmount, newMult);
      if oldMult > 0 {
        var weightedOld := staker.stakedAmount * oldMult;
        var accumulatedOld :- CheckedMul128(weightedOld, rps);
        accumulatedOld := accumulatedOld / PRECISION;
        var pending :- CheckedSub128(accumulatedOld, staker.rewardDebt);
        var pending64 :- TryU64(pending);
        var sum :- CheckedAdd64(staker.pendingRewards, pending64);
        staker := staker.(pendingRewards := sum);
      }
      var weightedOldStake := staker.stakedAmount * oldMult;
      var weightedNewStake := staker.stakedAmount * newMult;
      total :- CheckedSub128(total, weightedOldStake);
      total :- CheckedAdd128(total, weightedNewStake);
      staker := staker.(currentMultiplier := newMult);
      var newAccumulated :- CheckedMul128(weightedNewStake, rps);
      staker := staker.(rewardDebt := newAccumulated / PRECISION);
    }
    return Ok((staker, total));
  }

  /** An amount times a tier never leaves 128 bits, so these two multiplications cannot fail. */
  lemma WeightFits(amount: u64, m: Multiplier)
    ensures 0 <= amount * m <= U128_MAX
  {
  }

  /** What a settled position of a paying tier is owed in all, and its accumulated value. */
  method CalculateOwed(k: Staker, rps: u128) returns (r: Result<(u64, u128)>)
    ensures r.Ok? <==> OwedFits(k, rps)
    ensures r.Ok? ==> r.value.0 == Payable(k, rps) && r.value.1 == Accrued(Weight(k), rps)
    ensures r.Err? ==> r.error == MathOverflow
  {
    WeightFits(k.stakedAmount, k.currentMultiplier);
    var weighted := k.stakedAmount * k.currentMultiplier;
    var accumulated :- CheckedMul128(weighted, rps);
    accumulated := accumulated / PRECISION;
    var owed128 :- CheckedSub128(accumulated, k.rewardDebt);
    var owed :- TryU64(owed128);
    var total :- CheckedAdd64(k.pendingRewards, owed);
    return Ok((total, accumulated));
  }

  /** The lamport transfer both handlers end with: the vault stays rent-exempt, and a vault left below
      the emergency threshold pauses the pool. Nothing happens when there is nothing to pay. */
  method Withdraw(vault: u64, paused: bool, total: u64, rentMin: u64) returns (r: Result<(u64, bool)>)
    ensures total == 0 ==> r == Ok((vault, paused))
    ensures total > 0 ==> (r.Ok? <==> total + rentMin <= vault)
    ensures r.Ok? && total > 0 ==>
              r.value == (vault - total, paused || vault - total < 5_000_000_000)
    ensures r.Err? ==> r.error == if vault < total then InsufficientRewards else RentExemptViolation
  {
    var left, stopped := vault, paused;
    if total > 0 {
      if left < total { return Err(InsufficientRewards); }
      if left - total < rentMin { return Err(RentExemptViolation); }
      left := left - total;
      if left < EMERGENCY_VAULT_THRESHOLD { stopped := true; }
    }
    return Ok((left, stopped));
  }

  /** The rest of claim at a paying tier: nothing when nothing is owed, otherwise one payment and a debt
      brought up to date. Returns the position, the payment, the vault and the pause flag. */
  method Collect(k: Staker, rps: u128, vault: u64, paused: bool, env: Env) returns (r: Result<(Staker, u64, u64, bool)>)
    ensures r.Ok? <==> OwedFits(k, rps) && (Payable(k, rps) == 0 || Payable(k, rps) + env.rentMin <= vault)
    ensures r.Ok? && Payable(k, rps) == 0 ==> r.value == (k, 0, vault, paused)
    ensures r.Ok? && Payable(k, rps) != 0 ==>
              r.value == (k.(rewardDebt := Accrued(Weight(k), rps), pendingRewards := 0, lastClaimTimestamp := env.now),
                          Payable(k, rps), vault - Payable(k, rps),
                          paused || vault - Payable(k, rps) < EMERGENCY_VAULT_THRESHOLD)
    ensures r.Err? ==> r.error == if !OwedFits(k, rps) then MathOverflow
                                  else if vault < Payable(k, rps) then InsufficientRewards else RentExemptViolation
  {
    var owing :- CalculateOwed(k, rps);
    var total, accumulated := owing.0, owing.1;
    if total == 0 { return Ok((k, 0, vault, paused)); }
    var drawn :- Withdraw(vault, paused, total, env.rentMin);
    var staker := k.(rewardDebt := accumulated);
    staker := staker.(pendingRewards := 0, lastClaimTimestamp := env.now);
    return Ok((staker, total, drawn.0, drawn.1));
  }

  /** Section 2 of unstake: accumulator, vault and pause flag after the rewards are paid or forfeited. */
  method Release(m: Multiplier, rewards: u64, tws: u128, rps: u128, vault: u64, paused: bool, rentMin: u64,
                 ghost s: State)
    returns (r: Result<(u128, u64, bool)>)
    requires s.pool.totalWeightedStake == tws && s.pool.rewardPerShare == rps
    requires s.rewardVault == vault && s.pool.isPaused == paused
    ensures r == match ReleaseRewards(s, m, rewards, rentMin)
                 case Ok(s2) => Ok((s2.pool.rewardPerShare, s2.rewardVault, s2.pool.isPaused))
                 case Err(e) => Err(e)
  {
    if m > 0 {
      var drawn :- Withdraw(vault, paused, rewards, rentMin);
      return Ok((rps, drawn.0, drawn.1));
    }
    var raised := rps;
    if rewards > 0 && tws > 0 {
      IncrementFits(rewards, tws);
      raised :- CheckedAdd128(raised, rewards * PRECISION / tws);
    }
    return Ok((raised, vault, paused));
  }

  class StakingPool {
    const owner: Pubkey
    const crank: Pubkey
    var totalStaked: u64
    var totalWeightedStake: u128
    var rewardPerShare: u128
    var totalRewardsDistributed: u64
    var protocolFeeBps: u16
    var minStakeAmount: u64
    var isPaused: bool
    var stakers: map<Pubkey, Staker>
    var rewardVault: u64
    var brainVault: u64
    var treasury: u64
    ghost var history: History

    ghost function Accounts(): (s: State)
      reads this
    {
      State(Pool(owner, crank, totalStaked, totalWeightedStake, rewardPerShare, totalRewardsDistributed,
                 protocolFeeBps, minStakeAmount, isPaused),
            stakers, rewardVault, brainVault, treasury)
    }

    ghost function Now(): (t: Tracked)
      reads this
    {
      Tracked(Accounts(), history)
    }

    ghost predicate Valid()
      reads this
    {
      Inv(Now())
    }

    /** initialize: refuses a fee above the maximum and a zero minimum stake. */
    static method Initialize(owner: Pubkey, crank: Pubkey, protocolFeeBps: u16, minStakeAmount: u64,
                             rewardVault: u64, brainVault: u64, treasury: u64) returns (r: Result<StakingPool>)
      ensures r.Ok? <==> protocolFeeBps <= MAX_PROTOCOL_FEE_BPS && 0 < minStakeAmount
      ensures r.Ok? ==> fresh(r.value) && Initial(r.value.Now()) && r.value.Valid()
      ensures r.Ok? ==>
                r.value.Accounts() == State(Pool(owner, crank, 0, 0, 0, 0, protocolFeeBps, minStakeAmount, false),
                                            map[], rewardVault, brainVault, treasury)
      ensures r.Err? ==> r.error == if protocolFeeBps > MAX_PROTOCOL_FEE_BPS then InvalidFee else InvalidMinStake
    {
      if protocolFeeBps > MAX_PROTOCOL_FEE_BPS { return Err(InvalidFee); }
      if minStakeAmount == 0 { return Err(InvalidMinStake); }
      var pool := new StakingPool(owner, crank, protocolFeeBps, minStakeAmount, rewardVault, brainVault, treasury);
      return Ok(pool);
    }

    constructor (owner: Pubkey, crank: Pubkey, protocolFeeBps: u16, minStakeAmount: u64,
                 rewardVault: u64, brainVault: u64, treasury: u64)
      ensures Initial(Now()) && Valid()
      ensures Accounts() == State(Pool(owner, crank, 0, 0, 0, 0, protocolFeeBps, minStakeAmount, false),
                                  map[], rewardVault, brainVault, treasury)
    {
      this.owner, this.crank := owner, crank;
      totalStaked, totalWeightedStake, rewardPerShare, totalRewardsDistributed := 0, 0, 0, 0;
      this.protocolFeeBps, this.minStakeAmount, isPaused := protocolFeeBps, minStakeAmount, false;
      stakers := map[];
      this.rewardVault, this.brainVault, this.treasury := rewardVault, brainVault, treasury;
      history := History(rewardVault, 0, map[], 0, 0, 0, 0, 0, 0, 0, map[]);
      new;
      InitialInv(Now());
    }

    method Stake(user: Pubkey, amount: u64, wallet: u64, env: Env) returns (r: Result<Payment>)
      requires Valid()
      modifies this
      ensures Valid() && Now() == Step(old(Now()), env, StakeEvent(user, amount, wallet))
      ensures r == Outcome(Execute(old(Accounts()), env, StakeEvent(user, amount, wallet)))
    {
      hide Inv, Record;
      ghost var before := Now();
      StepKeepsInv(before, env, StakeEvent(user, amount, wallet));
      if user in stakers { return Err(AccountAlreadyInUse); }
      if isPaused { return Err(PoolPaused); }
      if amount == 0 { return Err(ZeroAmount); }
      if amount < minStakeAmount { return Err(BelowMinStake); }
      if amount > MAX_STAKE_AMOUNT { return Err(AboveMaxStake); }
      if wallet < amount { return Err(InsufficientFunds); }
      if brainVault + amount > U64_MAX { return Err(BalanceOverflow); }
      var staked :- CheckedAdd64(totalStaked, amount);

      brainVault := brainVault + amount;
      stakers := stakers[user := Staker(amount, env.now, 0, 0, env.now, 0)];
      totalStaked := staked;
      history := Step(before, env, StakeEvent(user, amount, wallet)).h;
      return Ok(NOTHING);
    }

    method DepositRewards(authority: Pubkey, amount: u64, funds: u64, env: Env) returns (r: Result<Payment>)
      requires Valid()
      modifies this
      ensures Valid() && Now() == Step(old(Now()), env, DepositEvent(authority, amount, funds))
      ensures r == Outcome(Execute(old(Accounts()), env, DepositEvent(authority, amount, funds)))
    {
      hide Inv, Record;
      ghost var before := Now();
      StepKeepsInv(before, env, DepositEvent(authority, amount, funds));
      if authority != owner && authority != crank { return Err(Unauthorized); }
      if isPaused { return Err(PoolPaused); }
      if amount == 0 { return Err(ZeroAmount); }
      if amount < MIN_REWARD_DEPOSIT { return Err(BelowMinRewardDeposit); }
      if totalWeightedStake == 0 { return Err(NoActiveStakers); }

      var scaled :- CheckedMul64(amount, protocolFeeBps);
      var fee := scaled / 10_000;
      var net :- CheckedSub64(amount, fee);
      if funds < amount { return Err(InsufficientFunds); }
      if treasury + fee > U64_MAX || rewardVault + net > U64_MAX { return Err(BalanceOverflow); }

      var rps := rewardPerShare;
      if totalWeightedStake > 0 {
        IncrementFits(net, totalWeightedStake);
        rps :- CheckedAdd128(rps, net * PRECISION / totalWeightedStake);
      }
      var distributed :- CheckedAdd64(totalRewardsDistributed, net);

      if fee > 0 { treasury := treasury + fee; }
      rewardVault := rewardVault + net;
      rewardPerShare := rps;
      totalRewardsDistributed := distributed;
      history := Step(before, env, DepositEvent(authority, amount, funds)).h;
      return Ok(NOTHING);
    }

    method Claim(user: Pubkey, env: Env) returns (r: Result<Payment>)
      requires Valid()
      modifies this
      ensures Valid() && Now() == Step(old(Now()), env, ClaimEvent(user))
      ensures r == Outcome(Execute(old(Accounts()), env, ClaimEvent(user)))
    {
      hide Inv, Record, OwedFits, SettleFits, Settle, WeightAfter, GetMultiplier, Weight, Payable, Accrued;
      ghost var before := Now();
      StepKeepsInv(before, env, ClaimEvent(user));
      if user !in stakers { return Err(AccountNotInitialized); }
      var staker := stakers[user];
      if isPaused { return Err(PoolPaused); }

      var newMult := GetMultiplier(staker.stakeTimestamp, env.now);
      var settled :- SettleMultiplier(staker, newMult, totalWeightedStake, rewardPerShare);
      staker := settled.0;

      var total: u64 := 0;
      var vault, paused := rewardVault, isPaused;
      if newMult != 0 {
        var collected :- Collect(staker, rewardPerShare, rewardVault, isPaused, env);
        staker, total := collected.0, collected.1;
        vault, paused := collected.2, collected.3;
        assert stakers[user := settled.0][user := staker] == stakers[user := staker];
      }
      rewardVault, isPaused := vault, paused;
      totalWeightedStake, stakers := settled.1, stakers[user := staker];
      history := Step(before, env, ClaimEvent(user)).h;
      return Ok(Payment(total, 0));
    }

    method Unstake(user: Pubkey, env: Env) returns (r: Result<Payment>)
      requires Valid()
      modifies this
      ensures Valid() && Now() == Step(old(Now()), env, UnstakeEvent(user))
      ensures r == Outcome(Execute(old(Accounts()), env, UnstakeEvent(user)))
    {
      hide Inv, Record, Payable, Weight, Accrued, OwedFits, SettleFits, Settle, WeightAfter, GetMultiplier, CloseStake;
      ghost var before := Now();
      StepKeepsInv(before, env, UnstakeEvent(user));
      if user !in stakers { return Err(AccountNotInitialized); }
      var staker := stakers[user];

      var newMult := GetMultiplier(staker.stakeTimestamp, env.now);
      SettledWeight(staker, newMult, totalWeightedStake, rewardPerShare);
      var settled :- SettleMultiplier(staker, newMult, totalWeightedStake, rewardPerShare);
      staker := settled.0;
      if newMult > 0 {
        var owing :- CalculateOwed(staker, rewardPerShare);
        staker := staker.(pendingRewards := owing.0);
      }
      ghost var s1 := Settled(before.s, user, env.now);
      var released :- Release(newMult, staker.pendingRewards, settled.1, rewardPerShare, rewardVault, isPaused,
                              env.rentMin, s1);
      r := CloseStaker(user, settled.0, if newMult > 0 then staker.pendingRewards else 0,
                       settled.1, released.0, released.1, released.2,
                       ReleaseRewards(s1, newMult, staker.pendingRewards, env.rentMin).value);
      history := Step(before, env, UnstakeEvent(user)).h;
    }

    /** Sections 3 and 4 of unstake: return the principal, update the totals, close the position. */
    method CloseStaker(user: Pubkey, staker: Staker, paid: u64, tws: u128, rps: u128, vault: u64, paused: bool,
                       ghost s: State)
      returns (r: Result<Payment>)
      requires user in stakers && s.stakers == stakers[user := staker]
      requires s == State(Accounts().pool.(totalWeightedStake := tws, rewardPerShare := rps, isPaused := paused),
                          s.stakers, vault, brainVault, treasury)
      modifies this
      ensures r == Outcome(CloseStake(s, user, paid)) && history == old(history)
      ensures r.Ok? ==> Accounts() == CloseStake(s, user, paid).value.s
      ensures r.Err? ==> Accounts() == old(Accounts())
    {
      var stakedAmount := staker.stakedAmount;
      if brainVault < stakedAmount { return Err(InsufficientFunds); }
      WeightFits(stakedAmount, staker.currentMultiplier);
      var currentWeighted := stakedAmount * staker.currentMultiplier;
      assert currentWeighted == Weight(staker);
      hide Weight;
      var remaining :- CheckedSub128(tws, currentWeighted);
      var staked :- CheckedSub64(totalStaked, stakedAmount);

      assert stakers[user := staker] - {user} == stakers - {user};
      brainVault := brainVault - stakedAmount;
      rewardVault, isPaused, rewardPerShare := vault, paused, rps;
      totalWeightedStake, totalStaked := remaining, staked;
      stakers := stakers - {user};
      return Ok(Payment(paid, stakedAmount));
    }

    method UpdatePoolConfig(authority: Pubkey, newMinStake: Option<u64>, newFeeBps: Option<u16>, env: Env)
      returns (r: Result<Payment>)
      requires Valid()
      modifies this
      ensures Valid() && Now() == Step(old(Now()), env, ConfigEvent(authority, newMinStake, newFeeBps))
      ensures r == Outcome(Execute(old(Accounts()), env, ConfigEvent(authority, newMinStake, newFeeBps)))
    {
      hide Inv, Record;
      ghost var before := Now();
      StepKeepsInv(before, env, ConfigEvent(authority, newMinStake, newFeeBps));
      if authority != owner { return Err(Unauthorized); }
      var minStake, fee := minStakeAmount, protocolFeeBps;
      if newMinStake.Some? {
        if newMinStake.value == 0 { return Err(InvalidMinStake); }
        minStake := newMinStake.value;
      }
      if newFeeBps.Some? {
        if newFeeBps.value > MAX_PROTOCOL_FEE_BPS { return Err(InvalidFee); }
        fee := newFeeBps.value;
      }
      minStakeAmount, protocolFeeBps := minStake, fee;
      history := Step(before, env, ConfigEvent(authority, newMinStake, newFeeBps)).h;
      return Ok(NOTHING);
    }

    /** The pool's part of emergency_halt. */
    method Pause(authority: Pubkey, env: Env) returns (r: Result<Payment>)
      requires Valid()
      modifies this
      ensures Valid() && Now() == Step(old(Now()), env, PauseEvent(authority))
      ensures r == Outcome(Execute(old(Accounts()), env, PauseEvent(authority)))
    {
      hide Inv, Record;
      ghost var before := Now();
      StepKeepsInv(before, env, PauseEvent(authority));
      if authority != owner { return Err(Unauthorized); }
      isPaused := true;
      history := Step(before, env, PauseEvent(authority)).h;
      return Ok(NOTHING);
    }

    method Resume(authority: Pubkey, env: Env) returns (r: Result<Payment>)
      requires Valid()
      modifies this
      ensures Valid() && Now() == Step(old(Now()), env, ResumeEvent(authority))
      ensures r == Outcome(Execute(old(Accounts()), env, ResumeEvent(authority)))
    {
      hide Inv, Record;
      ghost var before := Now();
      StepKeepsInv(before, env, ResumeEvent(authority));
      if authority != owner { return Err(Unauthorized); }
      isPaused := false;
      history := Step(before, env, ResumeEvent(authority)).h;
      return Ok(NOTHING);
    }
  }

  /** Scaling a 64-bit amount by PRECISION never leaves 128 bits. */
  lemma IncrementFits(net: u64, tws: u128)
    requires 0 < tws
    ensures 0 <= net * PRECISION / tws <= net * PRECISION <= U128_MAX
  {
    SpreadRemainder(net, tws);
    var q := net * PRECISION / tws;
    ProductMonotone(q, q, 1, tws);
  }
}
