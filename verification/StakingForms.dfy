/** The staking instructions beside claim and unstake: exactly when each succeeds, with which error it is
    refused, and every account it changes, in plain numbers. */
module StakingForms {
  import opened Numeric
  import opened Staking

  /** Only these accounts differ; nothing is handed to the signer. */
  predicate Changes(s: State, r: Result<Done>, s': State)
  {
    r == Ok(Done(s', Payment(0, 0)))
  }

  /** A stake opens a position of no weight, no debt and no rewards, dated now. */
  lemma StakeForm(s: State, user: Pubkey, amount: u64, wallet: u64, env: Env)
    ensures var r := Stake(s, user, amount, wallet, env);
      var open := user !in s.stakers && !s.pool.isPaused;
      var sized := 0 < amount && s.pool.minStakeAmount <= amount <= 10_000_000_000_000;
      && (r.Ok? <==> open && sized && amount <= wallet
                     && s.brainVault + amount <= U64_MAX && s.pool.totalStaked + amount <= U64_MAX)
      && (r == Err(AccountAlreadyInUse) <==> user in s.stakers)
      && (r == Err(PoolPaused) <==> user !in s.stakers && s.pool.isPaused)
      && (r == Err(ZeroAmount) <==> open && amount == 0)
      && (r == Err(BelowMinStake) <==> open && 0 < amount < s.pool.minStakeAmount)
      && (r == Err(AboveMaxStake) <==>
            open && 0 < amount && s.pool.minStakeAmount <= amount && 10_000_000_000_000 < amount)
      && (r == Err(InsufficientFunds) <==> open && sized && wallet < amount)
    ensures var r := Stake(s, user, amount, wallet, env);
      r.Ok? ==>
        var s' := r.value.s;
        && Changes(s, r, s.(pool := s'.pool, stakers := s'.stakers, brainVault := s'.brainVault))
        && s'.stakers.Keys == s.stakers.Keys + {user}
        && (forall u :: u in s.stakers ==> s'.stakers[u] == s.stakers[u])
        && s'.stakers[user].stakedAmount == amount && s'.stakers[user].stakeTimestamp == env.now
        && s'.stakers[user].currentMultiplier == 0 && s'.stakers[user].rewardDebt == 0
        && s'.stakers[user].pendingRewards == 0 && s'.stakers[user].lastClaimTimestamp == env.now
        && s'.brainVault - s.brainVault == amount
        && s'.pool == s.pool.(totalStaked := s'.pool.totalStaked)
        && s'.pool.totalStaked - s.pool.totalStaked == amount
  {
  }

  /** `part` is `whole * rate / scale`, rounded down. */
  predicate RoundedDown(part: int, product: int, scale: int)
  {
    scale * part <= product < scale * (part + 1)
  }

  /** What a deposit gives the treasury is its fee, rounded down; the vault and the recorded deposits get all
      the rest, which the accumulator spreads over the weight, rounded down. */
  lemma DepositForm(s: State, authority: Pubkey, amount: u64, funds: u64)
    requires DepositRewards(s, authority, amount, funds).Ok?
    ensures var r := DepositRewards(s, authority, amount, funds);
      var s' := r.value.s;
      var fee := s'.treasury - s.treasury;
      && RoundedDown(fee, amount * s.pool.protocolFeeBps, 10_000) && 0 <= fee <= amount
      && (s.pool.protocolFeeBps <= 500 ==> 20 * fee <= amount)
      && s'.rewardVault - s.rewardVault == amount - fee
      && s'.pool.totalRewardsDistributed - s.pool.totalRewardsDistributed == amount - fee
      && RoundedDown(s'.pool.rewardPerShare - s.pool.rewardPerShare, (amount - fee) * 1_000_000_000_000,
                     s.pool.totalWeightedStake)
      && s'.pool == s.pool.(rewardPerShare := s'.pool.rewardPerShare,
                            totalRewardsDistributed := s'.pool.totalRewardsDistributed)
      && Changes(s, r, s.(pool := s'.pool, rewardVault := s'.rewardVault, treasury := s'.treasury))
  {
    var bps := s.pool.protocolFeeBps;
    var fee := Fee(amount, bps);
    var net, tws := amount - fee, s.pool.totalWeightedStake;
    FeeRounds(amount, bps);
    IncrementRounds(net, tws);
    hide Fee, Increment;
  }

  lemma FeeRounds(amount: u64, bps: u16)
    ensures RoundedDown(Fee(amount, bps), amount * bps, 10_000)
    ensures bps <= 500 ==> 20 * Fee(amount, bps) <= amount
  {
    if bps <= 500 { ProductMonotone(amount, amount, bps, 500); }
  }

  lemma IncrementRounds(net: u64, tws: u128)
    requires 0 < tws
    ensures RoundedDown(Increment(net, tws), net * 1_000_000_000_000, tws)
  {
    var product := net * 1_000_000_000_000;
    assert product == tws * (product / tws) + product % tws;
    Distribute(tws, product / tws, 1);
  }

  /** Exactly when a deposit succeeds, and how it is refused. */
  lemma DepositAccepted(s: State, authority: Pubkey, amount: u64, funds: u64)
    ensures var r := DepositRewards(s, authority, amount, funds);
      var known := authority == s.pool.owner || authority == s.pool.crank;
      var open := known && !s.pool.isPaused && 1_000_000_000 <= amount && 0 < s.pool.totalWeightedStake;
      && (r.Ok? <==> && open && amount * s.pool.protocolFeeBps <= U64_MAX && amount <= funds
                     && FeeFits(s, amount))
      && (r == Err(Unauthorized) <==> !known)
      && (r == Err(PoolPaused) <==> known && s.pool.isPaused)
      && (r == Err(ZeroAmount) <==> known && !s.pool.isPaused && amount == 0)
      && (r == Err(BelowMinRewardDeposit) <==> known && !s.pool.isPaused && 0 < amount < 1_000_000_000)
      && (r == Err(NoActiveStakers) <==>
            known && !s.pool.isPaused && 1_000_000_000 <= amount && s.pool.totalWeightedStake == 0)
      && (open && amount * s.pool.protocolFeeBps > U64_MAX ==> r == Err(MathOverflow))
  {
    hide Increment;
  }

  /** A fee within the amount, balances that can take both parts, and totals that can count them. */
  predicate FeeFits(s: State, amount: u64)
  {
    var fee := amount * s.pool.protocolFeeBps / 10_000;
    && fee <= amount
    && s.treasury + fee <= U64_MAX && s.rewardVault + (amount - fee) <= U64_MAX
    && s.pool.totalRewardsDistributed + (amount - fee) <= U64_MAX
    && (0 < s.pool.totalWeightedStake ==>
          s.pool.rewardPerShare + Increment(amount - fee, s.pool.totalWeightedStake) <= U128_MAX)
  }

  /** Configuration: each value given is checked and stored, each value left out stays. */
  lemma ConfigForm(s: State, authority: Pubkey, minStake: Option<u64>, feeBps: Option<u16>)
    ensures var r := UpdatePoolConfig(s, authority, minStake, feeBps);
      && (r.Ok? <==> && authority == s.pool.owner && minStake != Some(0)
                     && (feeBps.Some? ==> feeBps.value <= 500))
      && (r == Err(Unauthorized) <==> authority != s.pool.owner)
      && (r == Err(InvalidMinStake) <==> authority == s.pool.owner && minStake == Some(0))
      && (r.Ok? ==>
            var s' := r.value.s;
            && Changes(s, r, s.(pool := s.pool.(minStakeAmount := s'.pool.minStakeAmount,
                                                protocolFeeBps := s'.pool.protocolFeeBps)))
            && (minStake.Some? ==> s'.pool.minStakeAmount == minStake.value)
            && (minStake.None? ==> s'.pool.minStakeAmount == s.pool.minStakeAmount)
            && (feeBps.Some? ==> s'.pool.protocolFeeBps == feeBps.value)
            && (feeBps.None? ==> s'.pool.protocolFeeBps == s.pool.protocolFeeBps))
  {
  }

  /** The owner, and nobody else, pauses by a halt and resumes; a pause undone leaves the accounts as they
      were on an unpaused pool. */
  lemma PauseForm(s: State, env: Env, authority: Pubkey)
    ensures var p, r := Execute(s, env, PauseEvent(authority)), Execute(s, env, ResumeEvent(authority));
      if authority == s.pool.owner then
        && p.Ok? && p.value.s.pool.isPaused && Changes(s, p, s.(pool := p.value.s.pool))
        && r.Ok? && !r.value.s.pool.isPaused && Changes(s, r, s.(pool := r.value.s.pool))
        && p.value.s.pool.(isPaused := s.pool.isPaused) == s.pool == r.value.s.pool.(isPaused := s.pool.isPaused)
        && (!s.pool.isPaused ==> Execute(p.value.s, env, ResumeEvent(authority)).value.s == s)
      else
        p == Err(Unauthorized) == r
  {
  }

  /** Who has no position can neither claim nor unstake, and nobody claims on a paused pool. */
  lemma ClaimClosed(s: State, user: Pubkey, env: Env)
    ensures user !in s.stakers ==>
              Claim(s, user, env) == Err(AccountNotInitialized) == Unstake(s, user, env)
    ensures user in s.stakers && s.pool.isPaused ==> Claim(s, user, env) == Err(PoolPaused)
  {
  }
}
