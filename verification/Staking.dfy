/** What each staking instruction does to the accounts it touches, as a function on their contents.
    A transaction is atomic: an `Err` leaves every account as it was. */
module Staking {
  import opened Numeric
  import opened Rewards

  const MIN_REWARD_DEPOSIT: int := 1_000_000_000
  const MAX_STAKE_AMOUNT: int := 10_000_000_000_000
  const MAX_PROTOCOL_FEE_BPS: int := 500
  const EMERGENCY_VAULT_THRESHOLD: int := 5_000_000_000

  datatype Pool = Pool(
    owner: Pubkey,
    crank: Pubkey,
    totalStaked: u64,
    totalWeightedStake: u128,
    rewardPerShare: u128,
    totalRewardsDistributed: u64,
    protocolFeeBps: u16,
    minStakeAmount: u64,
    isPaused: bool)

  /** The pool account, the staker accounts, and the balances of the three vaults. */
  datatype State = State(
    pool: Pool,
    stakers: map<Pubkey, Staker>,
    rewardVault: u64,
    brainVault: u64,
    treasury: u64)

  /** The sysvars an instruction reads. */
  datatype Env = Env(now: i64, rentMin: u64)

  /** Lamports and BRAIN handed to the signer. */
  datatype Payment = Payment(lamports: u64, brain: u64)

  datatype Done = Done(s: State, pay: Payment)

  const NOTHING: Payment := Payment(0, 0)

  /** What the signer sees of an outcome. */
  function Outcome(r: Result<Done>): (p: Result<Payment>)
  {
    match r
    case Ok(d) => Ok(d.pay)
    case Err(e) => Err(e)
  }

  // ---- stake.rs ----

  function Stake(s: State, user: Pubkey, amount: u64, wallet: u64, env: Env): (r: Result<Done>)
  {
    if user in s.stakers then Err(AccountAlreadyInUse)
    else if s.pool.isPaused then Err(PoolPaused)
    else if amount == 0 then Err(ZeroAmount)
    else if amount < s.pool.minStakeAmount then Err(BelowMinStake)
    else if amount > MAX_STAKE_AMOUNT then Err(AboveMaxStake)
    else if wallet < amount then Err(InsufficientFunds)
    else if s.brainVault + amount > U64_MAX then Err(BalanceOverflow)
    else if s.pool.totalStaked + amount > U64_MAX then Err(MathOverflow)
    else Ok(Done(s.(pool := s.pool.(totalStaked := s.pool.totalStaked + amount),
                    stakers := s.stakers[user := Staker(amount, env.now, 0, 0, env.now, 0)],
                    brainVault := s.brainVault + amount), NOTHING))
  }

  // ---- deposit_rewards.rs ----

  function Fee(amount: u64, bps: u16): (fee: nat)
  {
    amount * bps / 10_000
  }

  function Increment(net: u64, tws: u128): (inc: nat)
    requires 0 < tws
  {
    net * PRECISION / tws
  }

  function DepositRewards(s: State, authority: Pubkey, amount: u64, funds: u64): (r: Result<Done>)
  {
    if authority != s.pool.owner && authority != s.pool.crank then Err(Unauthorized)
    else if s.pool.isPaused then Err(PoolPaused)
    else if amount == 0 then Err(ZeroAmount)
    else if amount < MIN_REWARD_DEPOSIT then Err(BelowMinRewardDeposit)
    else if s.pool.totalWeightedStake == 0 then Err(NoActiveStakers)
    else if amount * s.pool.protocolFeeBps > U64_MAX then Err(MathOverflow)
    else
      var fee := Fee(amount, s.pool.protocolFeeBps);
      if fee > amount then Err(MathOverflow)
      else if funds < amount then Err(InsufficientFunds)
      else if s.treasury + fee > U64_MAX || s.rewardVault + (amount - fee) > U64_MAX then Err(BalanceOverflow)
      else
        var rps := s.pool.rewardPerShare + Increment(amount - fee, s.pool.totalWeightedStake);
        var total := s.pool.totalRewardsDistributed + (amount - fee);
        if rps > U128_MAX || total > U64_MAX then Err(MathOverflow)
        else Ok(Done(s.(pool := s.pool.(rewardPerShare := rps, totalRewardsDistributed := total),
                        rewardVault := s.rewardVault + (amount - fee),
                        treasury := s.treasury + fee), NOTHING))
  }

  // ---- claim.rs ----

  /** The lamport transfer out of the reward vault, shared by claim and unstake. */
  function PayOut(s: State, total: u64, rentMin: u64): (r: Result<State>)
  {
    if total == 0 then Ok(s)
    else if s.rewardVault < total then Err(InsufficientRewards)
    else if s.rewardVault - total < rentMin then Err(RentExemptViolation)
    else
      var left := s.rewardVault - total;
      Ok(s.(rewardVault := left,
            pool := s.pool.(isPaused := s.pool.isPaused || left < EMERGENCY_VAULT_THRESHOLD)))
  }

  /** The accounts after bringing `user` to the tier reached at `now`. */
  function Settled(s: State, user: Pubkey, now: i64): (r: State)
    requires user in s.stakers
    requires var k := s.stakers[user];
      SettleFits(k, GetMultiplier(k.stakeTimestamp, now), s.pool.totalWeightedStake, s.pool.rewardPerShare)
  {
    var k := s.stakers[user];
    var m := GetMultiplier(k.stakeTimestamp, now);
    s.(pool := s.pool.(totalWeightedStake :=
                 WeightAfter(k, m, s.pool.totalWeightedStake, s.pool.rewardPerShare)),
       stakers := s.stakers[user := Settle(k, m, s.pool.totalWeightedStake, s.pool.rewardPerShare)])
  }

  function Claim(s: State, user: Pubkey, env: Env): (r: Result<Done>)
  {
    if user !in s.stakers then Err(AccountNotInitialized)
    else if s.pool.isPaused then Err(PoolPaused)
    else
      var k := s.stakers[user];
      var m := GetMultiplier(k.stakeTimestamp, env.now);
      var rps := s.pool.rewardPerShare;
      if !SettleFits(k, m, s.pool.totalWeightedStake, rps) then Err(MathOverflow)
      else
        var s1 := Settled(s, user, env.now);
        var k1 := s1.stakers[user];
        if m == 0 then Ok(Done(s1, NOTHING))
        else if !OwedFits(k1, rps) then Err(MathOverflow)
        else
          var total := Payable(k1, rps);
          if total == 0 then Ok(Done(s1, NOTHING))
          else
            var s2 :- PayOut(s1, total, env.rentMin);
            var k2 := k1.(rewardDebt := Accrued(Weight(k1), rps), pendingRewards := 0,
                          lastClaimTimestamp := env.now);
            Ok(Done(s2.(stakers := s2.stakers[user := k2]), Payment(total, 0)))
  }

  // ---- unstake.rs ----

  /** What a forfeit of `forfeited` lamports adds to the accumulator. */
  function Redistribution(forfeited: u64, tws: u128): (inc: nat)
  {
    if forfeited > 0 && tws > 0 then forfeited * PRECISION / tws else 0
  }

  /** The last part of unstake: the principal goes back and the position is closed. */
  function CloseStake(s: State, user: Pubkey, lamports: u64): (r: Result<Done>)
    requires user in s.stakers
  {
    var k := s.stakers[user];
    if s.brainVault < k.stakedAmount then Err(InsufficientFunds)
    else if s.pool.totalWeightedStake < Weight(k) || s.pool.totalStaked < k.stakedAmount then Err(MathOverflow)
    else Ok(Done(s.(pool := s.pool.(totalWeightedStake := s.pool.totalWeightedStake - Weight(k),
                                    totalStaked := s.pool.totalStaked - k.stakedAmount),
                    stakers := s.stakers - {user},
                    brainVault := s.brainVault - k.stakedAmount), Payment(lamports, k.stakedAmount)))
  }

  function Unstake(s: State, user: Pubkey, env: Env): (r: Result<Done>)
  {
    if user !in s.stakers then Err(AccountNotInitialized)
    else
      var k := s.stakers[user];
      var m := GetMultiplier(k.stakeTimestamp, env.now);
      var rps := s.pool.rewardPerShare;
      if !SettleFits(k, m, s.pool.totalWeightedStake, rps) then Err(MathOverflow)
      else
        var s1 := Settled(s, user, env.now);
        var k1 := s1.stakers[user];
        if m > 0 && !OwedFits(k1, rps) then Err(MathOverflow)
        else FinishUnstake(s1, user, m, if m > 0 then Payable(k1, rps) else k1.pendingRewards, env)
  }

  /** The rewards of a settled position that is about to close: paid at a paying tier, forfeited below. */
  function ReleaseRewards(s: State, m: Multiplier, rewards: u64, rentMin: u64): (r: Result<State>)
  {
    if m > 0 then PayOut(s, rewards, rentMin)
    else
      var bumped := s.pool.rewardPerShare + Redistribution(rewards, s.pool.totalWeightedStake);
      if bumped > U128_MAX then Err(MathOverflow)
      else Ok(s.(pool := s.pool.(rewardPerShare := bumped)))
  }

  function FinishUnstake(s: State, user: Pubkey, m: Multiplier, rewards: u64, env: Env): (r: Result<Done>)
    requires user in s.stakers
  {
    var s2 :- ReleaseRewards(s, m, rewards, env.rentMin);
    CloseStake(s2, user, if m > 0 then rewards else 0)
  }

  // ---- update_pool_config.rs, resume.rs, the pause of emergency_halt.rs ----

  function UpdatePoolConfig(s: State, authority: Pubkey, minStake: Option<u64>, feeBps: Option<u16>): (r: Result<Done>)
  {
    if authority != s.pool.owner then Err(Unauthorized)
    else if minStake.Some? && minStake.value == 0 then Err(InvalidMinStake)
    else if feeBps.Some? && feeBps.value > MAX_PROTOCOL_FEE_BPS then Err(InvalidFee)
    else Ok(Done(s.(pool := s.pool.(
                      minStakeAmount := if minStake.Some? then minStake.value else s.pool.minStakeAmount,
                      protocolFeeBps := if feeBps.Some? then feeBps.value else s.pool.protocolFeeBps)), NOTHING))
  }

  function SetPaused(s: State, authority: Pubkey, paused: bool): (r: Result<Done>)
  {
    if authority != s.pool.owner then Err(Unauthorized)
    else Ok(Done(s.(pool := s.pool.(isPaused := paused)), NOTHING))
  }

  /** Anyone may send lamports or BRAIN straight to the vaults. */
  function Gift(s: State, lamports: u64, brain: u64): (r: Result<Done>)
  {
    if s.rewardVault + lamports > U64_MAX || s.brainVault + brain > U64_MAX then Err(BalanceOverflow)
    else Ok(Done(s.(rewardVault := s.rewardVault + lamports, brainVault := s.brainVault + brain), NOTHING))
  }

  // ---- one step of a run ----

  datatype Event =
    | StakeEvent(user: Pubkey, amount: u64, wallet: u64)
    | DepositEvent(authority: Pubkey, amount: u64, funds: u64)
    | ClaimEvent(user: Pubkey)
    | UnstakeEvent(user: Pubkey)
    | ConfigEvent(authority: Pubkey, minStake: Option<u64>, feeBps: Option<u16>)
    | PauseEvent(authority: Pubkey)
    | ResumeEvent(authority: Pubkey)
    | GiftEvent(lamports: u64, brain: u64)

  function Execute(s: State, env: Env, e: Event): (r: Result<Done>)
  {
    match e
    case StakeEvent(user, amount, wallet) => Stake(s, user, amount, wallet, env)
    case DepositEvent(authority, amount, funds) => DepositRewards(s, authority, amount, funds)
    case ClaimEvent(user) => Claim(s, user, env)
    case UnstakeEvent(user) => Unstake(s, user, env)
    case ConfigEvent(authority, minStake, feeBps) => UpdatePoolConfig(s, authority, minStake, feeBps)
    case PauseEvent(authority) => SetPaused(s, authority, true)
    case ResumeEvent(authority) => SetPaused(s, authority, false)
    case GiftEvent(lamports, brain) => Gift(s, lamports, brain)
  }
}
