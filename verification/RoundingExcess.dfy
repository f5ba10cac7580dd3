/** A concrete run, with the default minimum stake and ordinary amounts, in which one lamport more
    becomes payable than was ever deposited, and the last staker cannot leave a vault that was
    seeded with the rent minimum only. The bounds of Conservation and Solvency are therefore tight. */
module RoundingExcess {
  import opened Numeric
  import opened MapSums
  import opened Rewards
  import opened Staking
  import opened RewardLedger
  import opened Conservation
  import opened Solvency

  const ALICE: Pubkey := [1]
  const BOB: Pubkey := [2]
  const CAROL: Pubkey := [3]
  const OWNER: Pubkey := [9]
  const RENT: u64 := 890_880
  const DEFAULT_MIN_STAKE: u64 := 100_000_000_000
  const LARGE: u64 := 1_000_000_000_000
  const DAY_0: Env := Env(0, RENT)
  const DAY_7: Env := Env(604_800, RENT)

  function FreshPool(): Pool { Pool(OWNER, OWNER, 0, 0, 0, 0, 0, DEFAULT_MIN_STAKE, false) }

  function Fresh(): Tracked
  {
    Tracked(State(FreshPool(), map[], RENT, 0, 0), History(RENT, 0, map[], 0, 0, 0, 0, 0, 0, 0, map[]))
  }

  function Opened(amount: u64): Staker { Staker(amount, 0, 0, 0, 0, 0) }

  lemma Distinct()
    ensures ALICE != BOB && BOB != CAROL && ALICE != CAROL
  {
  }

  // ---- the calls, in order ----

  const A: Call := Call(DAY_0, StakeEvent(ALICE, LARGE, LARGE))
  const B: Call := Call(DAY_0, StakeEvent(BOB, DEFAULT_MIN_STAKE, DEFAULT_MIN_STAKE))
  const C: Call := Call(DAY_0, StakeEvent(CAROL, DEFAULT_MIN_STAKE, DEFAULT_MIN_STAKE))
  const D: Call := Call(DAY_7, ClaimEvent(ALICE))
  const E: Call := Call(DAY_7, DepositEvent(OWNER, 1_000_000_009, 1_000_000_009))
  const F: Call := Call(DAY_7, ClaimEvent(BOB))
  const G: Call := Call(DAY_7, ClaimEvent(CAROL))
  const H: Call := Call(DAY_7, DepositEvent(OWNER, 1_200_000_006, 1_200_000_006))
  const I: Call := Call(DAY_7, UnstakeEvent(ALICE))
  const J: Call := Call(DAY_7, UnstakeEvent(BOB))

  function Story(): (calls: seq<Call>)
  {
    [A] + ([B] + ([C] + ([D] + ([E] + ([F] + ([G] + ([H] + ([I] + ([J] + [])))))))))
  }

  // ---- what each call of the run does ----

  /** The part of the accounts that the next call depends on. */
  ghost predicate At(t: Tracked, staked: u64, tws: u128, rps: u128, distributed: u64, vault: u64)
  {
    && t.s.pool == Pool(OWNER, OWNER, staked, tws, rps, distributed, 0, DEFAULT_MIN_STAKE, t.s.pool.isPaused)
    && t.s.rewardVault == vault && t.s.brainVault == staked
  }

  ghost predicate Holds(t: Tracked, user: Pubkey, k: Staker) { user in t.s.stakers && t.s.stakers[user] == k }

  function Earning(amount: u64, debt: u128): Staker { Opened(amount).(currentMultiplier := 1, rewardDebt := debt) }

  lemma DepositStep(t: Tracked, net: u64, inc: nat, staked: u64, tws: u128, rps: u128, dist: u64, vault: u64)
    requires At(t, staked, tws, rps, dist, vault) && !t.s.pool.isPaused && 0 < tws && MIN_REWARD_DEPOSIT <= net
    requires Increment(net, tws) == inc && net * PRECISION % tws == 0
    requires rps + inc <= U128_MAX && dist + net <= U64_MAX && vault + net <= U64_MAX
    ensures var t' := Step(t, DAY_7, DepositEvent(OWNER, net, net));
      && At(t', staked, tws, rps + inc, dist + net, vault + net) && !t'.s.pool.isPaused
      && t'.s.stakers == t.s.stakers && t'.h.paid == t.h.paid && t'.h.resets == t.h.resets
  {
  }

  lemma EnterStep(t: Tracked, user: Pubkey, amount: u64, debt: u128,
                  staked: u64, tws: u128, rps: u128, dist: u64, vault: u64)
    requires At(t, staked, tws, rps, dist, vault) && !t.s.pool.isPaused && Holds(t, user, Opened(amount))
    requires Accrued(amount, rps) == debt && amount * rps <= U128_MAX && tws + amount <= U128_MAX
    ensures var t' := Step(t, DAY_7, ClaimEvent(user));
      && At(t', staked, tws + amount, rps, dist, vault) && !t'.s.pool.isPaused
      && t'.s.stakers == t.s.stakers[user := Earning(amount, debt)] && t'.h.paid == t.h.paid
      && t'.h.resets == t.h.resets + One(Fraction(amount, rps) > 0)
  {
    var k := Opened(amount);
    assert GetMultiplier(0, DAY_7.now) == 1;
    assert Weight(k) == 0;
    var k1 := Settle(k, 1, tws, rps);
    assert k1 == Earning(amount, debt);
    assert Weight(k1) == amount;
    assert Payable(k1, rps) == 0;
  }

  lemma LeaveStep(t: Tracked, user: Pubkey, amount: u64, debt: u128, paid: u64,
                  staked: u64, tws: u128, rps: u128, dist: u64, vault: u64)
    requires At(t, staked, tws, rps, dist, vault) && Holds(t, user, Earning(amount, debt))
    requires Accrued(amount, rps) == debt + paid && amount * rps <= U128_MAX && 0 < paid
    requires amount <= staked && amount <= tws && paid + RENT <= vault < EMERGENCY_VAULT_THRESHOLD
    ensures var t' := Step(t, DAY_7, UnstakeEvent(user));
      && At(t', staked - amount, tws - amount, rps, dist, vault - paid)
      && t'.s.stakers == t.s.stakers - {user} && t'.h.paid == t.h.paid + paid && t'.h.resets == t.h.resets
  {
    var k := Earning(amount, debt);
    assert GetMultiplier(0, DAY_7.now) == 1;
    assert Weight(k) == amount;
    assert Payable(k, rps) == paid;
  }

  lemma StuckStep(t: Tracked, user: Pubkey, amount: u64, debt: u128, owed: u64,
                  staked: u64, tws: u128, rps: u128, dist: u64, vault: u64)
    requires At(t, staked, tws, rps, dist, vault) && Holds(t, user, Earning(amount, debt))
    requires Accrued(amount, rps) == debt + owed && amount * rps <= U128_MAX && 0 < owed
    requires owed <= vault < owed + RENT
    ensures Payable(t.s.stakers[user], rps) == owed
    ensures Unstake(t.s, user, DAY_7) == Err(RentExemptViolation)
  {
  }

  lemma Opening()
    ensures var t := Step(Step(Step(Fresh(), A.env, A.event), B.env, B.event), C.env, C.event);
      && At(t, 1_200_000_000_000, 0, 0, 0, RENT) && !t.s.pool.isPaused
      && t.s.stakers == map[ALICE := Opened(LARGE), BOB := Opened(DEFAULT_MIN_STAKE),
                            CAROL := Opened(DEFAULT_MIN_STAKE)]
      && t.h.paid == 0 && t.h.resets == 0
  {
  }

  /** The state in which only Carol is left, and what she is owed. */
  lemma TheEnd()
    ensures var t := Run(Fresh(), Story());
      && t.s.stakers.Keys == {CAROL} && t.h.paid == 2_100_000_015 && t.h.resets == 2
      && t.s.pool.totalRewardsDistributed == 2_200_000_015 && t.s.pool.rewardPerShare == 2_000_000_014
      && Payable(t.s.stakers[CAROL], 2_000_000_014) == 100_000_001
      && Unstake(t.s, CAROL, DAY_7) == Err(RentExemptViolation)
  {
    Distinct();
    Opening();
    hide Step, Run;
    var t1 := Step(Fresh(), A.env, A.event);
    var t2 := Step(t1, B.env, B.event);
    var t3 := Step(t2, C.env, C.event);
    EnterStep(t3, ALICE, LARGE, 0, 1_200_000_000_000, 0, 0, 0, RENT);
    var t4 := Step(t3, D.env, D.event);
    DepositStep(t4, 1_000_000_009, 1_000_000_009, 1_200_000_000_000, LARGE, 0, 0, RENT);
    var t5 := Step(t4, E.env, E.event);
    EnterStep(t5, BOB, DEFAULT_MIN_STAKE, 100_000_000, 1_200_000_000_000, LARGE,
              1_000_000_009, 1_000_000_009, 1_000_890_889);
    var t6 := Step(t5, F.env, F.event);
    EnterStep(t6, CAROL, DEFAULT_MIN_STAKE, 100_000_000, 1_200_000_000_000, 1_100_000_000_000,
              1_000_000_009, 1_000_000_009, 1_000_890_889);
    var t7 := Step(t6, G.env, G.event);
    DepositStep(t7, 1_200_000_006, 1_000_000_005, 1_200_000_000_000, 1_200_000_000_000,
                1_000_000_009, 1_000_000_009, 1_000_890_889);
    var t8 := Step(t7, H.env, H.event);
    LeaveStep(t8, ALICE, LARGE, 0, 2_000_000_014, 1_200_000_000_000, 1_200_000_000_000,
              2_000_000_014, 2_200_000_015, 2_200_890_895);
    var t9 := Step(t8, I.env, I.event);
    LeaveStep(t9, BOB, DEFAULT_MIN_STAKE, 100_000_000, 100_000_001, 200_000_000_000, 200_000_000_000,
              2_000_000_014, 2_200_000_015, 200_890_881);
    var t10 := Step(t9, J.env, J.event);
    StuckStep(t10, CAROL, DEFAULT_MIN_STAKE, 100_000_000, 100_000_001, DEFAULT_MIN_STAKE, DEFAULT_MIN_STAKE,
              2_000_000_014, 2_200_000_015, 100_890_880);
    StoryRuns(t1, t2, t3, t4, t5, t6, t7, t8, t9);
  }

  lemma RunCons(t: Tracked, c: Call, rest: seq<Call>)
    ensures Run(t, [c] + rest) == Run(Step(t, c.env, c.event), rest)
  {
  }

  /** A run from initialisation, orderly for the default minimum stake, with a vault seeded with the
      rent minimum: one lamport more is committed than was deposited, exactly the bound of
      `CommittedBounded`, and the last staker's unstake fails, one lamport short of the seed that
      `PrincipalAlwaysReturned` asks for. */
  lemma OneLamportShort() returns (calls: seq<Call>)
    ensures Initial(Fresh()) && Fresh().h.seed == RENT && Orderly(0, calls, DEFAULT_MIN_STAKE)
    ensures var r := Run(Fresh(), calls);
      && Committed(r) == r.s.pool.totalRewardsDistributed + 1
      && Excess(r.h.resets) == 1
      && CAROL in r.s.stakers
      && Unstake(r.s, CAROL, DAY_7) == Err(RentExemptViolation)
  {
    calls := Story();
    StoryOrderly();
    TheEnd();
    hide Story, Payable, Run, Orderly;
    var r := Run(Fresh(), calls);
    SumRemove(r.s.stakers, PayableOf(2_000_000_014), CAROL);
    assert r.s.stakers - {CAROL} == map[];
  }

  lemma StoryRuns(t1: Tracked, t2: Tracked, t3: Tracked, t4: Tracked, t5: Tracked, t6: Tracked, t7: Tracked,
                  t8: Tracked, t9: Tracked)
    requires t1 == Step(Fresh(), A.env, A.event) && t2 == Step(t1, B.env, B.event) && t3 == Step(t2, C.env, C.event)
    requires t4 == Step(t3, D.env, D.event) && t5 == Step(t4, E.env, E.event) && t6 == Step(t5, F.env, F.event)
    requires t7 == Step(t6, G.env, G.event) && t8 == Step(t7, H.env, H.event) && t9 == Step(t8, I.env, I.event)
    ensures Run(Fresh(), Story()) == Step(t9, J.env, J.event)
  {
    hide Step;
    var j := [J] + [];
    var i := [I] + j;
    var h := [H] + i;
    var g := [G] + h;
    var f := [F] + g;
    var e := [E] + f;
    var d := [D] + e;
    var c := [C] + d;
    RunCons(Fresh(), A, [B] + c);
    RunCons(t1, B, c);
    RunCons(t2, C, d);
    RunCons(t3, D, e);
    RunCons(t4, E, f);
    RunCons(t5, F, g);
    RunCons(t6, G, h);
    RunCons(t7, H, i);
    RunCons(t8, I, j);
    RunCons(t9, J, []);
  }

  lemma OrderlyCons(clock: i64, c: Call, rest: seq<Call>)
    requires clock <= c.env.now && !c.event.ConfigEvent? && Orderly(c.env.now, rest, DEFAULT_MIN_STAKE)
    ensures Orderly(clock, [c] + rest, DEFAULT_MIN_STAKE)
  {
  }

  lemma StoryOrderly()
    ensures Orderly(0, Story(), DEFAULT_MIN_STAKE)
  {
    var now := DAY_7.now;
    OrderlyCons(now, J, []);
    OrderlyCons(now, I, [J] + []);
    OrderlyCons(now, H, [I] + ([J] + []));
    OrderlyCons(now, G, [H] + ([I] + ([J] + [])));
    OrderlyCons(now, F, [G] + ([H] + ([I] + ([J] + []))));
    OrderlyCons(now, E, [F] + ([G] + ([H] + ([I] + ([J] + [])))));
    OrderlyCons(0, D, [E] + ([F] + ([G] + ([H] + ([I] + ([J] + []))))));
    OrderlyCons(0, C, [D] + ([E] + ([F] + ([G] + ([H] + ([I] + ([J] + [])))))));
    OrderlyCons(0, B, [C] + ([D] + ([E] + ([F] + ([G] + ([H] + ([I] + ([J] + []))))))));
    OrderlyCons(0, A, [B] + ([C] + ([D] + ([E] + ([F] + ([G] + ([H] + ([I] + ([J] + [])))))))));
  }
}
