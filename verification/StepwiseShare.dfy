/** The pro-rata rule for a whole position: its weight may change as tiers are reached, it may open and
    close, and what its owner receives still follows the exact share of each deposit at the weight held
    then, to within one lamport for each change of weight. */
module StepwiseShare {
  import opened Numeric
  import opened Rewards
  import opened Staking
  import opened RewardLedger
  import opened LedgerProofs
  import opened Solvency
  import opened ClosedForms
  import opened ProRata

  /** The weight `user` has in the pool: none without a position. */
  function WeightNow(t: Tracked, user: Pubkey): (w: nat)
  {
    if user in t.s.stakers then Weight(t.s.stakers[user]) else 0
  }

  /** The exact share of `user` in a run: each deposit at the weight held when it is made. */
  function StepwiseFair(t: Tracked, calls: seq<Call>, user: Pubkey): (share: real)
    decreases |calls|
  {
    if calls == [] then 0.0
    else CallShare(t, calls[0], user) + StepwiseFair(Step(t, calls[0].env, calls[0].event), calls[1..], user)
  }

  function CallShare(t: Tracked, c: Call, user: Pubkey): (share: real)
  {
    var net := NetOf(t, c);
    if net == 0 || t.s.pool.totalWeightedStake == 0 then 0.0
    else Share(net, WeightNow(t, user), t.s.pool.totalWeightedStake)
  }

  /** The weights held at the deposits of a run, added up. */
  function DepositWeights(t: Tracked, calls: seq<Call>, user: Pubkey): (n: nat)
    decreases |calls|
  {
    if calls == [] then 0
    else (if NetOf(t, calls[0]) > 0 then WeightNow(t, user) else 0)
         + DepositWeights(Step(t, calls[0].env, calls[0].event), calls[1..], user)
  }

  /** How often the weight of `user` changes during a run. */
  function WeightChanges(t: Tracked, calls: seq<Call>, user: Pubkey): (n: nat)
    decreases |calls|
  {
    if calls == [] then 0
    else
      var t' := Step(t, calls[0].env, calls[0].event);
      One(WeightNow(t', user) != WeightNow(t, user)) + WeightChanges(t', calls[1..], user)
  }

  /** [p] The fraction of a lamport that rounding withholds at the present weight. */
  function Withheld(t: Tracked, user: Pubkey): (f: nat)
    ensures f < PRECISION
  {
    Fraction(WeightNow(t, user), t.s.pool.rewardPerShare)
  }

  /** [p] The total of `user`, the withheld fraction included. */
  function ExactTotal(t: Tracked, user: Pubkey): int
  {
    PRECISION * Lifetime(t, user) + Withheld(t, user)
  }

  /** [p] `credit` is the fair share, less at most `weights` for rounded increments, and off by less than a
      lamport per change of weight. */
  predicate StepwiseBounds(credit: int, fair: real, weights: nat, changes: nat)
  {
    && credit as real <= PRECISION as real * fair + (PRECISION * changes) as real
    && PRECISION as real * fair <= (credit + weights + PRECISION * changes) as real
  }

  // ---- one call ----

  /** Either the weight stays, or neither the accumulator nor the total moves; and the total moves only
      with the accumulator, at the weight held before. */
  predicate TotalMoves(t: Tracked, t': Tracked, user: Pubkey)
  {
    var w := WeightNow(t, user);
    && Lifetime(t', user) - Lifetime(t, user)
       == Accrued(w, t'.s.pool.rewardPerShare) - Accrued(w, t.s.pool.rewardPerShare)
    && (WeightNow(t', user) == w || t'.s.pool.rewardPerShare == t.s.pool.rewardPerShare)
  }

  lemma StakeMoves(t: Tracked, c: Call, user: Pubkey)
    requires c.event.StakeEvent?
    ensures TotalMoves(t, Step(t, c.env, c.event), user)
  {
    if Execute(t.s, c.env, c.event).Ok? {
      var k := Step(t, c.env, c.event).s.stakers[c.event.user];
      assert Weight(k) == 0 && Payable(k, t.s.pool.rewardPerShare) == 0;
    }
    hide Weight, Payable, Accrued;
  }

  lemma DepositMoves(t: Tracked, c: Call, user: Pubkey)
    requires c.event.DepositEvent?
    ensures TotalMoves(t, Step(t, c.env, c.event), user)
  {
    if user in t.s.stakers {
      LifetimeOverDeposit(t, c, user);
    } else {
      assert Accrued(0, t.s.pool.rewardPerShare) == Accrued(0, Step(t, c.env, c.event).s.pool.rewardPerShare) == 0;
    }
    hide Weight, Payable, Accrued, Increment, Fee;
  }

  lemma CallMoves(t: Tracked, c: Call, user: Pubkey)
    requires Inv(t) && Step(t, c.env, c.event).h.forfeited == t.h.forfeited
    ensures TotalMoves(t, Step(t, c.env, c.event), user)
  {
    hide Inv, Claim, Unstake, Stake, DepositRewards, Weight, Accrued, RecordTier, Payable;
    match c.event
    case StakeEvent(_, _, _) => StakeMoves(t, c, user);
    case DepositEvent(_, _, _) => DepositMoves(t, c, user);
    case ClaimEvent(claimer) => LifetimeOverClaim(t, c.env, claimer, user);
    case UnstakeEvent(leaver) =>
      LifetimeOverUnstake(t, c.env, leaver, user);
      RateOverUnstake(t, c.env, leaver);
    case _ =>
  }

  /** What a call without forfeit adds to the accumulator. */
  function Rise(t: Tracked, c: Call): (rise: nat)
  {
    if NetOf(t, c) > 0 && t.s.pool.totalWeightedStake > 0 then
      NetOf(t, c) * PRECISION / t.s.pool.totalWeightedStake
    else 0
  }

  lemma RateIsRise(t: Tracked, c: Call)
    requires RateMoves(t, c)
    ensures Step(t, c.env, c.event).s.pool.rewardPerShare == t.s.pool.rewardPerShare + Rise(t, c)
  {
    hide Step, NetOf;
  }

  /** [p] What `rise` adds to the exact total: itself at the weight held, up to the difference of two fractions
      when the weight changes. */
  lemma RiseRaisesTotal(t: Tracked, t': Tracked, user: Pubkey, rise: nat)
    requires TotalMoves(t, t', user) && t'.s.pool.rewardPerShare == t.s.pool.rewardPerShare + rise
    ensures Drifts(ExactTotal(t', user) - ExactTotal(t, user), WeightNow(t, user) * rise,
                   One(WeightNow(t', user) != WeightNow(t, user)))
  {
    RiseAdds(WeightNow(t, user), WeightNow(t', user), t.s.pool.rewardPerShare, rise);
    hide Accrued, Lifetime, WeightNow, Fraction;
  }

  predicate Drifts(added: int, exact: int, changes: nat)
  {
    exact - PRECISION * changes <= added <= exact + PRECISION * changes
  }

  /** [p] Whole lamports and withheld fraction together grow by weight times rise, up to the fractions of two
      different weights. */
  lemma RiseAdds(w: nat, w': nat, rps: nat, rise: nat)
    ensures var added := PRECISION * (Accrued(w, rps + rise) - Accrued(w, rps))
                         + Fraction(w', rps + rise) - Fraction(w, rps);
      && (w' == w ==> added == w * rise)
      && w * rise - PRECISION < added < w * rise + PRECISION
  {
    assert w * (rps + rise) == w * rps + w * rise;
  }

  /** [p] The rise of one call at weight `w` against its exact share. */
  predicate Shared(w: nat, rise: nat, share: real, weights: nat)
  {
    && (w * rise) as real <= PRECISION as real * share
    && PRECISION as real * share <= (w * rise + weights) as real
  }

  lemma CallShared(t: Tracked, c: Call, user: Pubkey)
    requires RateMoves(t, c)
    ensures Shared(WeightNow(t, user), Rise(t, c), CallShare(t, c, user),
                   if NetOf(t, c) > 0 then WeightNow(t, user) else 0)
  {
    hide Step, WeightNow, NetOf, Share;
    if NetOf(t, c) > 0 { DepositCredit(NetOf(t, c), t.s.pool.totalWeightedStake, WeightNow(t, user)); }
  }

  lemma SharedAndDrifting(added: int, w: nat, rise: nat, share: real, weights: nat, changes: nat)
    requires Shared(w, rise, share, weights) && Drifts(added, w * rise, changes)
    ensures StepwiseBounds(added, share, weights, changes)
  {
  }

  /** [p] One call against its exact share. */
  lemma CallAdds(t: Tracked, c: Call, user: Pubkey)
    requires Inv(t) && Step(t, c.env, c.event).h.forfeited == t.h.forfeited
    ensures var t' := Step(t, c.env, c.event);
      StepwiseBounds(ExactTotal(t', user) - ExactTotal(t, user), CallShare(t, c, user),
                     if NetOf(t, c) > 0 then WeightNow(t, user) else 0,
                     One(WeightNow(t', user) != WeightNow(t, user)))
  {
    hide *;
    var t' := Step(t, c.env, c.event);
    CallMoves(t, c, user);
    RateStep(t, c);
    RateIsRise(t, c);
    RiseRaisesTotal(t, t', user, Rise(t, c));
    CallShared(t, c, user);
    SharedAndDrifting(ExactTotal(t', user) - ExactTotal(t, user), WeightNow(t, user), Rise(t, c),
                      CallShare(t, c, user), if NetOf(t, c) > 0 then WeightNow(t, user) else 0,
                      One(WeightNow(t', user) != WeightNow(t, user)));
  }

  // ---- a whole run ----

  lemma {:induction false} RunAdds(t: Tracked, calls: seq<Call>, user: Pubkey)
    requires Inv(t) && NoForfeit(t, calls)
    ensures StepwiseBounds(ExactTotal(Run(t, calls), user) - ExactTotal(t, user), StepwiseFair(t, calls, user),
                           DepositWeights(t, calls, user), WeightChanges(t, calls, user))
    decreases |calls|
  {
    hide Step, Inv, NoForfeit, ExactTotal, NetOf, CallShare, WeightNow;
    if calls != [] {
      NoForfeitSplits(t, calls);
      StepKeepsInv(t, calls[0].env, calls[0].event);
      CallAdds(t, calls[0], user);
      RunAdds(Step(t, calls[0].env, calls[0].event), calls[1..], user);
    }
  }

  /** Received lamports against the stepwise share, strictly within one lamport and one per change. */
  predicate NearStepwise(received: int, fair: real, weights: nat, changes: nat)
  {
    && received as real < fair + changes as real + 1.0
    && fair - weights as real / PRECISION as real - changes as real - 1.0 < received as real
  }

  /** For every user and every run that forfeits nothing, from any reachable state and under any clock. */
  lemma ReceivesStepwiseShare(t: Tracked, calls: seq<Call>, user: Pubkey)
    requires Inv(t) && NoForfeit(t, calls)
    ensures NearStepwise(Lifetime(Run(t, calls), user) - Lifetime(t, user), StepwiseFair(t, calls, user),
                         DepositWeights(t, calls, user), WeightChanges(t, calls, user))
  {
    hide *;
    var r := Run(t, calls);
    RunAdds(t, calls, user);
    TotalsDiffer(t, r, user);
    StripFractions(Lifetime(r, user) - Lifetime(t, user), ExactTotal(r, user) - ExactTotal(t, user),
                   StepwiseFair(t, calls, user), DepositWeights(t, calls, user), WeightChanges(t, calls, user));
  }

  lemma TotalsDiffer(t: Tracked, t': Tracked, user: Pubkey)
    ensures var received, credit := Lifetime(t', user) - Lifetime(t, user), ExactTotal(t', user) - ExactTotal(t, user);
      PRECISION * received - PRECISION < credit < PRECISION * received + PRECISION
  {
    hide Lifetime, WeightNow;
  }

  lemma StripFractions(received: int, credit: int, fair: real, weights: nat, changes: nat)
    requires PRECISION * received - PRECISION < credit < PRECISION * received + PRECISION
    requires StepwiseBounds(credit, fair, weights, changes)
    ensures NearStepwise(received, fair, weights, changes)
  {
  }

  // ---- a position under a clock that does not go back ----

  /** Throughout the run `user` has an open position. */
  predicate StaysOpen(t: Tracked, calls: seq<Call>, user: Pubkey)
    decreases |calls|
  {
    user in t.s.stakers && (calls != [] ==> StaysOpen(Step(t, calls[0].env, calls[0].event), calls[1..], user))
  }

  /** How often settlement moves `user` to another tier, and so resets the debt at a new weight. */
  function TierChanges(t: Tracked, calls: seq<Call>, user: Pubkey): (n: nat)
    requires StaysOpen(t, calls, user)
    decreases |calls|
  {
    if calls == [] then 0
    else
      var t' := Step(t, calls[0].env, calls[0].event);
      assert StaysOpen(t', calls[1..], user);
      One(t'.s.stakers[user].currentMultiplier != t.s.stakers[user].currentMultiplier)
      + TierChanges(t', calls[1..], user)
  }

  /** One call leaves an open position's stake alone and never lowers its tier. */
  lemma TierStep(t: Tracked, clock: i64, c: Call, user: Pubkey, minStake: nat)
    requires Inv(t) && Timely(t, clock, minStake) && clock <= c.env.now
    requires user in t.s.stakers && user in Step(t, c.env, c.event).s.stakers
    ensures var k, k' := t.s.stakers[user], Step(t, c.env, c.event).s.stakers[user];
      k'.stakedAmount == k.stakedAmount && k.currentMultiplier <= k'.currentMultiplier
  {
    hide Inv, Claim, Unstake, DepositRewards, Record;
    match c.event
    case ClaimEvent(claimer) => TierOverClaim(t, clock, c.env, claimer, user, minStake);
    case DepositEvent(_, _, _) => LifetimeOverDeposit(t, c, user);
    case UnstakeEvent(leaver) => UnstakeLeavesOthers(t, c.env, leaver);
    case _ =>
  }

  lemma UnstakeLeavesOthers(t: Tracked, env: Env, leaver: Pubkey)
    requires Inv(t)
    ensures var s' := Step(t, env, UnstakeEvent(leaver)).s;
      forall u :: u in s'.stakers ==> u in t.s.stakers && s'.stakers[u] == t.s.stakers[u]
  {
    if Unstake(t.s, leaver, env).Ok? { UnstakeForm(t, leaver, env); }
    hide Inv, Unstake, PositionFits, Payable, Accrued, GetMultiplier, Weight, Record;
  }

  lemma TierOverClaim(t: Tracked, clock: i64, env: Env, claimer: Pubkey, user: Pubkey, minStake: nat)
    requires Inv(t) && Timely(t, clock, minStake) && clock <= env.now && user in t.s.stakers
    ensures var s' := Step(t, env, ClaimEvent(claimer)).s;
      && user in s'.stakers && s'.stakers[user].stakedAmount == t.s.stakers[user].stakedAmount
      && t.s.stakers[user].currentMultiplier <= s'.stakers[user].currentMultiplier
  {
    if Claim(t.s, claimer, env).Ok? {
      AllOnTimeLater(t, clock, env.now, minStake);
      ClaimForm(t, claimer, env);
    }
    hide Inv, Claim, PositionFits, Payable, Accrued, GetMultiplier, Weight, Record;
  }

  /** From opening to closing a position changes tier, and so resets its debt, at most three times: no more
      often than it rises. Its weight changes no more often than that. */
  lemma {:induction false} AtMostThreeResets(t: Tracked, clock: i64, calls: seq<Call>, user: Pubkey, minStake: nat)
    requires Inv(t) && Timely(t, clock, minStake) && Orderly(clock, calls, minStake) && StaysOpen(t, calls, user)
    ensures user in Run(t, calls).s.stakers
    ensures WeightChanges(t, calls, user) <= TierChanges(t, calls, user)
         <= Run(t, calls).s.stakers[user].currentMultiplier - t.s.stakers[user].currentMultiplier <= 3
    decreases |calls|
  {
    hide Step, Inv, Timely, Weight;
    if calls != [] {
      var c := calls[0];
      TierStep(t, clock, c, user, minStake);
      StepKeepsInv(t, c.env, c.event);
      StepKeepsTimely(t, clock, c.env, c.event, minStake);
      AtMostThreeResets(Step(t, c.env, c.event), c.env.now, calls[1..], user, minStake);
      SameTierSameWeight(t.s.stakers[user], Step(t, c.env, c.event).s.stakers[user]);
    }
  }

  lemma SameTierSameWeight(k: Staker, k': Staker)
    requires k'.stakedAmount == k.stakedAmount
    ensures k'.currentMultiplier == k.currentMultiplier ==> Weight(k') == Weight(k)
  {
  }

  /** So in an orderly run an open position receives its stepwise share to within four lamports above, and four
      lamports and the rounded increments below, however long the run and however often anybody claims. */
  lemma OrderlyPositionShare(t: Tracked, clock: i64, calls: seq<Call>, user: Pubkey, minStake: nat)
    requires Inv(t) && Timely(t, clock, minStake) && Orderly(clock, calls, minStake) && StaysOpen(t, calls, user)
    ensures NearStepwise(Lifetime(Run(t, calls), user) - Lifetime(t, user), StepwiseFair(t, calls, user),
                         DepositWeights(t, calls, user), 3)
  {
    hide *;
    OrderlyForfeitsNothing(t, clock, calls, minStake);
    ReceivesStepwiseShare(t, calls, user);
    AtMostThreeResets(t, clock, calls, user, minStake);
    MoreChanges(Lifetime(Run(t, calls), user) - Lifetime(t, user), StepwiseFair(t, calls, user),
                DepositWeights(t, calls, user), WeightChanges(t, calls, user));
  }

  lemma MoreChanges(received: int, fair: real, weights: nat, changes: nat)
    requires NearStepwise(received, fair, weights, changes) && changes <= 3
    ensures NearStepwise(received, fair, weights, 3)
  {
  }
}
