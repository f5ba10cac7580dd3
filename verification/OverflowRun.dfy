/** A run with a minimum stake of one unit less than the safe one: after one deposit over the smallest
    weight, a staker of the largest amount can neither claim nor unstake, because the arithmetic overflows.
    The bound on the minimum stake in Solvency is therefore tight. */
module OverflowRun {
  import opened Numeric
  import opened Rewards
  import opened Staking
  import opened RewardLedger
  import opened Solvency

  const WHALE: Pubkey := [1]
  const SHRIMP: Pubkey := [2]
  const OWNER: Pubkey := [9]
  const RENT: u64 := 890_880
  const SMALL: u64 := SAFE_MIN_STAKE - 1
  const LARGE: u64 := MAX_STAKE_AMOUNT
  const NET: u64 := U64_MAX - RENT
  const DAY_0: Env := Env(0, RENT)
  const DAY_7: Env := Env(604_800, RENT)
  const DAY_90: Env := Env(7_776_000, RENT)

  // ---- the calls, in order ----

  const A: Call := Call(DAY_0, StakeEvent(WHALE, LARGE, LARGE))
  const B: Call := Call(DAY_0, StakeEvent(SHRIMP, SMALL, SMALL))
  const C: Call := Call(DAY_7, ClaimEvent(SHRIMP))
  const D: Call := Call(DAY_7, DepositEvent(OWNER, NET, NET))

  function Fresh(): (t: Tracked)
  {
    Tracked(State(Pool(OWNER, OWNER, 0, 0, 0, 0, 0, SMALL, false), map[], RENT, 0, 0),
            History(RENT, 0, map[], 0, 0, 0, 0, 0, 0, 0, map[]))
  }

  function Opened(amount: u64): (k: Staker) { Staker(amount, 0, 0, 0, 0, 0) }

  /** The part of the accounts that matters to the calls. */
  predicate Stands(t: Tracked, shrimp: Staker, tws: u128, rps: u128)
  {
    && t.s.pool == Pool(OWNER, OWNER, LARGE + SMALL, tws, rps, t.s.pool.totalRewardsDistributed, 0, SMALL, false)
    && WHALE in t.s.stakers && t.s.stakers[WHALE] == Opened(LARGE)
    && SHRIMP in t.s.stakers && t.s.stakers[SHRIMP] == shrimp
  }

  lemma StakesOpen()
    ensures WHALE != SHRIMP
    ensures var t := Step(Step(Fresh(), A.env, A.event), B.env, B.event);
      && Stands(t, Opened(SMALL), 0, 0) && t.s.pool.totalRewardsDistributed == 0
      && t.s.rewardVault == RENT && t.s.treasury == 0
  {
    assert WHALE[0] == 1 && SHRIMP[0] == 2;
  }

  lemma ShrimpEnters(t: Tracked)
    requires Stands(t, Opened(SMALL), 0, 0) && WHALE != SHRIMP
    ensures var t' := Step(t, C.env, C.event);
      && Stands(t', Opened(SMALL).(currentMultiplier := 1), SMALL, 0)
      && t'.s.pool.totalRewardsDistributed == t.s.pool.totalRewardsDistributed
      && t'.s.rewardVault == t.s.rewardVault && t'.s.treasury == t.s.treasury
  {
    var k := Opened(SMALL);
    assert GetMultiplier(0, DAY_7.now) == 1 && Weight(k) == 0;
    var k1 := Settle(k, 1, 0, 0);
    assert k1 == k.(currentMultiplier := 1) && Weight(k1) == SMALL && Payable(k1, 0) == 0;
  }

  lemma DepositSwells(t: Tracked)
    requires Stands(t, Opened(SMALL).(currentMultiplier := 1), SMALL, 0)
    requires t.s.pool.totalRewardsDistributed == 0 && t.s.rewardVault == RENT && t.s.treasury == 0
    ensures Stands(Step(t, D.env, D.event), Opened(SMALL).(currentMultiplier := 1), SMALL, Increment(NET, SMALL))
  {
    assert NET * PRECISION / SMALL <= U128_MAX;
  }

  /** The settlement of the large position to the third tier leaves 128 bits. */
  lemma WhaleIsStuck(t: Tracked, shrimp: Staker)
    requires Stands(t, shrimp, SMALL, Increment(NET, SMALL))
    ensures Claim(t.s, WHALE, DAY_90) == Err(MathOverflow) && Unstake(t.s, WHALE, DAY_90) == Err(MathOverflow)
  {
    assert GetMultiplier(0, DAY_90.now) == 3;
    assert LARGE * 3 * (NET * PRECISION / SMALL) > U128_MAX;
    assert !SettleFits(Opened(LARGE), 3, SMALL, Increment(NET, SMALL));
  }

  /** From initialisation, orderly for that minimum stake, with deposits below the 64-bit limit by the rent. */
  lemma LeastMinimumIsTight() returns (calls: seq<Call>)
    ensures Initial(Fresh()) && Fresh().s.pool.minStakeAmount == SAFE_MIN_STAKE - 1
    ensures Orderly(0, calls, SAFE_MIN_STAKE - 1) && ClockAfter(0, calls) <= DAY_90.now
    ensures var r := Run(Fresh(), calls);
      && WHALE in r.s.stakers && !r.s.pool.isPaused
      && Claim(r.s, WHALE, DAY_90) == Err(MathOverflow) && Unstake(r.s, WHALE, DAY_90) == Err(MathOverflow)
  {
    calls := [A] + ([B] + ([C] + ([D] + [])));
    StakesOpen();
    var t2 := Step(Step(Fresh(), A.env, A.event), B.env, B.event);
    ShrimpEnters(t2);
    var t3 := Step(t2, C.env, C.event);
    DepositSwells(t3);
    var t4 := Step(t3, D.env, D.event);
    WhaleIsStuck(t4, t4.s.stakers[SHRIMP]);
    hide Step, Claim, Unstake;
    Later(0, A, [B] + ([C] + ([D] + [])), Fresh());
    Later(0, B, [C] + ([D] + []), Step(Fresh(), A.env, A.event));
    Later(0, C, [D] + [], t2);
    Later(DAY_7.now, D, [], t3);
  }

  lemma Later(clock: i64, c: Call, rest: seq<Call>, t: Tracked)
    ensures Run(t, [c] + rest) == Run(Step(t, c.env, c.event), rest)
    ensures ClockAfter(clock, [c] + rest) == ClockAfter(c.env.now, rest)
    ensures Orderly(clock, [c] + rest, SMALL) <==>
              clock <= c.env.now && KeepsMinimum(c.event, SMALL) && Orderly(c.env.now, rest, SMALL)
  {
    assert ([c] + rest)[1..] == rest;
  }
}
