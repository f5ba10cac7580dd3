/** The accumulator against the rule it stands for: each deposit is shared out by weight. */
module ProRata {
  import opened Numeric
  import opened Rewards
  import opened Staking
  import opened RewardLedger
  import opened LedgerProofs
  import opened Solvency
  import opened ClosedForms

  /** The net amount a call deposits: zero unless it is a successful deposit. */
  function NetOf(t: Tracked, c: Call): (net: nat)
  {
    if c.event.DepositEvent? && Execute(t.s, c.env, c.event).Ok? then
      c.event.amount - Fee(c.event.amount, t.s.pool.protocolFeeBps)
    else 0
  }

  function Share(net: nat, weight: nat, tws: nat): (share: real)
    requires 0 < tws
  {
    net as real * weight as real / tws as real
  }

  /** The exact pro-rata share of a weight in the deposits of a run, with no rounding at all. */
  function FairShare(t: Tracked, calls: seq<Call>, weight: nat): (share: real)
    decreases |calls|
  {
    if calls == [] then 0.0
    else
      var net := NetOf(t, calls[0]);
      (if net == 0 || t.s.pool.totalWeightedStake == 0 then 0.0
       else Share(net, weight, t.s.pool.totalWeightedStake))
      + FairShare(Step(t, calls[0].env, calls[0].event), calls[1..], weight)
  }

  /** How many deposits a run makes. */
  function Deposits(t: Tracked, calls: seq<Call>): (n: nat)
    decreases |calls|
  {
    if calls == [] then 0
    else One(NetOf(t, calls[0]) > 0) + Deposits(Step(t, calls[0].env, calls[0].event), calls[1..])
  }

  /** Throughout the run `user` has an open position of that weight. */
  predicate HoldsWeight(t: Tracked, calls: seq<Call>, user: Pubkey, weight: nat)
    decreases |calls|
  {
    && user in t.s.stakers && Weight(t.s.stakers[user]) == weight
    && (calls != [] ==> HoldsWeight(Step(t, calls[0].env, calls[0].event), calls[1..], user, weight))
  }

  // ---- the accumulator over a run ----

  /** [p] `rise` credits `weight` with at most its exact share, and with at least that share less one
      unit of weight per deposit. */
  predicate CreditBounds(weight: nat, rise: nat, fair: real, deposits: nat)
  {
    && (weight * rise) as real <= PRECISION as real * fair
    && PRECISION as real * fair <= (weight * rise + weight * deposits) as real
  }

  /** [p] `received` whole lamports are within one lamport of the credit. */
  predicate WithinOneLamport(received: int, weight: nat, rise: nat)
  {
    PRECISION * received - PRECISION < weight * rise < PRECISION * received + PRECISION
  }

  /** Nothing is forfeited along the run. */
  predicate NoForfeit(t: Tracked, calls: seq<Call>)
  {
    Run(t, calls).h.forfeited == t.h.forfeited
  }

  lemma ForfeitsGrow(t: Tracked, c: Call)
    ensures t.h.forfeited <= Step(t, c.env, c.event).h.forfeited
  {
    hide Claim, DepositRewards, Stake, Unstake, Fraction, Weight, Settle, WeightAfter;
  }

  lemma {:induction false} RunForfeitsGrow(t: Tracked, calls: seq<Call>)
    ensures t.h.forfeited <= Run(t, calls).h.forfeited
    decreases |calls|
  {
    if calls != [] {
      ForfeitsGrow(t, calls[0]);
      hide Step;
      RunForfeitsGrow(Step(t, calls[0].env, calls[0].event), calls[1..]);
    }
  }

  /** A run that forfeits nothing does so at its first call and afterwards. */
  lemma NoForfeitSplits(t: Tracked, calls: seq<Call>)
    requires calls != [] && NoForfeit(t, calls)
    ensures var t' := Step(t, calls[0].env, calls[0].event);
      t'.h.forfeited == t.h.forfeited && NoForfeit(t', calls[1..])
  {
    hide Step;
    ForfeitsGrow(t, calls[0]);
    RunForfeitsGrow(Step(t, calls[0].env, calls[0].event), calls[1..]);
  }

  /** With a clock that does not go back nothing is forfeited. */
  lemma OrderlyForfeitsNothing(t: Tracked, clock: i64, calls: seq<Call>, minStake: nat)
    requires Inv(t) && Timely(t, clock, minStake) && Orderly(clock, calls, minStake)
    ensures NoForfeit(t, calls)
  {
    RunKeepsTimely(t, clock, calls, minStake);
    hide Run, Inv;
  }

  /** What a call does to the accumulator when it forfeits nothing: a deposit adds its own increment. */
  predicate RateMoves(t: Tracked, c: Call)
  {
    var net := NetOf(t, c);
    && (0 < net ==> 0 < t.s.pool.totalWeightedStake && net <= U64_MAX)
    && Step(t, c.env, c.event).s.pool.rewardPerShare
       == t.s.pool.rewardPerShare + (if 0 < net then Increment(net, t.s.pool.totalWeightedStake) else 0)
  }

  lemma RateOverDeposit(t: Tracked, c: Call)
    requires c.event.DepositEvent?
    ensures RateMoves(t, c)
  {
    if Execute(t.s, c.env, c.event).Ok? {
      var net := DepositRaises(t, c.env, c.event.authority, c.event.amount, c.event.funds);
      assert Increment(0, t.s.pool.totalWeightedStake) == 0;
      hide DepositRewards, Increment, Fee;
    }
  }

  lemma RateStep(t: Tracked, c: Call)
    requires Inv(t) && Step(t, c.env, c.event).h.forfeited == t.h.forfeited
    ensures RateMoves(t, c)
  {
    hide Inv, Record, Claim, Unstake, DepositRewards;
    match c.event
    case DepositEvent(_, _, _) => RateOverDeposit(t, c);
    case ClaimEvent(user) => LifetimeOverClaim(t, c.env, user, user);
    case UnstakeEvent(user) => RateOverUnstake(t, c.env, user);
    case _ =>
  }

  /** [p] What a weight is credited over a run is within one unit of weight per deposit of its share,
      whatever the clock, while nothing is forfeited. */
  lemma {:induction false} RunCredit(t: Tracked, calls: seq<Call>, weight: nat)
    requires Inv(t) && NoForfeit(t, calls)
    ensures t.s.pool.rewardPerShare <= Run(t, calls).s.pool.rewardPerShare
    ensures CreditBounds(weight, Run(t, calls).s.pool.rewardPerShare - t.s.pool.rewardPerShare,
                         FairShare(t, calls, weight), Deposits(t, calls))
    decreases |calls|
  {
    hide Step, Inv, NoForfeit, CreditBounds, Increment, NetOf, Share;
    if calls == [] {
      NothingCredited(weight);
    } else {
      var t' := Step(t, calls[0].env, calls[0].event);
      NoForfeitSplits(t, calls);
      StepKeepsInv(t, calls[0].env, calls[0].event);
      RunCredit(t', calls[1..], weight);
      CallCredit(t, calls[0], weight, Run(t', calls[1..]).s.pool.rewardPerShare - t'.s.pool.rewardPerShare,
                 FairShare(t', calls[1..], weight), Deposits(t', calls[1..]));
    }
  }

  lemma NothingCredited(weight: nat)
    ensures CreditBounds(weight, 0, 0.0, 0)
  {
  }

  /** One call in front of a stretch whose credit is known. */
  lemma CallCredit(t: Tracked, c: Call, weight: nat, rise: nat, fair: real, deposits: nat)
    requires Inv(t) && Step(t, c.env, c.event).h.forfeited == t.h.forfeited
    requires CreditBounds(weight, rise, fair, deposits)
    ensures var t' := Step(t, c.env, c.event);
      var net := NetOf(t, c);
      && t.s.pool.rewardPerShare <= t'.s.pool.rewardPerShare
      && CreditBounds(weight, t'.s.pool.rewardPerShare - t.s.pool.rewardPerShare + rise,
                      (if net == 0 || t.s.pool.totalWeightedStake == 0 then 0.0
                       else Share(net, weight, t.s.pool.totalWeightedStake)) + fair,
                      One(net > 0) + deposits)
  {
    RateStep(t, c);
    var net := NetOf(t, c);
    hide Step, Inv, CreditBounds, Increment, NetOf, Share;
    if net > 0 {
      var tws := t.s.pool.totalWeightedStake;
      DepositCredit(net, tws, weight);
      CreditAdds(weight, Increment(net, tws), rise, deposits, Share(net, weight, tws), fair);
    }
  }

  /** One deposit credits a weight with its exact share, rounded down by less than the weight. */
  lemma DepositCredit(net: nat, tws: u128, weight: nat)
    requires 0 < tws && net <= U64_MAX
    ensures CreditBounds(weight, Increment(net, tws), Share(net, weight, tws), 1)
  {
    var inc, share := Increment(net, tws), Share(net, weight, tws);
    CreditTimesTotal(net, tws, weight);
    ShareTimesTotal(net, tws, weight);
    hide *;
    ScaledCredit(weight * inc, weight, tws, weight * (net * PRECISION), PRECISION as real * share);
    assert weight * 1 == weight;
    CreditMeans(weight, inc, share);
  }

  lemma CreditMeans(weight: nat, inc: nat, share: real)
    requires (weight * inc) as real <= PRECISION as real * share
    requires PRECISION as real * share <= (weight * inc + weight * 1) as real
    ensures CreditBounds(weight, inc, share, 1)
  {
  }

  /** The integer side: the credit times the total weight, against the deposit times the weight. */
  lemma CreditTimesTotal(net: nat, tws: u128, weight: nat)
    requires 0 < tws && net <= U64_MAX
    ensures weight * Increment(net, tws) * tws <= weight * (net * PRECISION)
         <= (weight * Increment(net, tws) + weight) * tws
  {
    SpreadRemainder(net, tws);
    WeighFloor(weight, Increment(net, tws), tws, net * PRECISION);
    hide *;
  }

  lemma WeighFloor(weight: nat, inc: nat, tws: nat, total: nat)
    requires inc * tws <= total <= inc * tws + tws
    ensures weight * inc * tws <= weight * total <= (weight * inc + weight) * tws
  {
    ProductMonotone(weight, weight, inc * tws, total);
    ProductMonotone(weight, weight, total, inc * tws + tws);
    Associate(weight, inc, tws);
    Distribute(weight, inc * tws, tws);
    Distribute(tws, weight * inc, weight);
  }

  /** The real side: the scaled share times the total weight. */
  lemma ShareTimesTotal(net: nat, tws: u128, weight: nat)
    requires 0 < tws
    ensures PRECISION as real * Share(net, weight, tws) * tws as real == (weight * (net * PRECISION)) as real
  {
    var share := Share(net, weight, tws);
    Quotient(net as real * weight as real, tws as real);
    assert share * tws as real == net as real * weight as real;
    hide *;
    RealProduct(net, PRECISION);
    RealProduct(weight, net * PRECISION);
    Regroup(share, tws as real, net as real, weight as real, PRECISION as real);
  }

  lemma Quotient(x: real, y: real)
    requires y != 0.0
    ensures x / y * y == x
  {
  }

  lemma Regroup(share: real, tws: real, net: real, weight: real, p: real)
    requires share * tws == net * weight
    ensures p * share * tws == weight * (net * p)
  {
    assert p * share * tws == p * (share * tws);
    assert p * (net * weight) == weight * (net * p);
  }

  lemma ScaledCredit(credit: nat, slack: nat, tws: nat, total: nat, share: real)
    requires 0 < tws && credit * tws <= total <= (credit + slack) * tws
    requires share * tws as real == total as real
    ensures credit as real <= share <= (credit + slack) as real
  {
    AtLeast(credit, tws, total, share);
    AtMost(credit + slack, tws, total, share);
  }

  lemma AtLeast(n: nat, tws: nat, total: nat, share: real)
    requires 0 < tws && n * tws <= total && share * tws as real == total as real
    ensures n as real <= share
  {
    RealProduct(n, tws);
    Cancel(n as real, share, tws as real);
  }

  lemma AtMost(n: nat, tws: nat, total: nat, share: real)
    requires 0 < tws && total <= n * tws && share * tws as real == total as real
    ensures share <= n as real
  {
    RealProduct(n, tws);
    Cancel(share, n as real, tws as real);
  }

  lemma Cancel(x: real, y: real, z: real)
    requires 0.0 < z && x * z <= y * z
    ensures x <= y
  {
    assert (y - x) * z >= 0.0;
  }

  lemma CreditAdds(weight: nat, inc: nat, rise: nat, deposits: nat, share: real, fair: real)
    requires CreditBounds(weight, inc, share, 1) && CreditBounds(weight, rise, fair, deposits)
    ensures CreditBounds(weight, inc + rise, share + fair, 1 + deposits)
  {
    assert weight * (inc + rise) == weight * inc + weight * rise;
    assert weight * (1 + deposits) == weight + weight * deposits;
    assert PRECISION as real * (share + fair) == PRECISION as real * share + PRECISION as real * fair;
  }

  // ---- what one position receives over a run ----

  /** Under any clock: only the accumulator changes what a position that stays open receives in all. */
  lemma LifetimeStep(t: Tracked, c: Call, user: Pubkey)
    requires Inv(t) && user in t.s.stakers && user in Step(t, c.env, c.event).s.stakers
    ensures var t' := Step(t, c.env, c.event);
      var w := Weight(t.s.stakers[user]);
      Lifetime(t', user) - Lifetime(t, user)
      == Accrued(w, t'.s.pool.rewardPerShare) - Accrued(w, t.s.pool.rewardPerShare)
  {
    hide Inv, Claim, Unstake, DepositRewards, Weight, Accrued, RecordTier;
    match c.event
    case DepositEvent(_, _, _) => LifetimeOverDeposit(t, c, user);
    case ClaimEvent(claimer) => LifetimeOverClaim(t, c.env, claimer, user);
    case UnstakeEvent(leaver) => UnstakeElsewhere(t, c.env, leaver, user);
    case _ =>
  }

  lemma LifetimeOverDeposit(t: Tracked, c: Call, user: Pubkey)
    requires c.event.DepositEvent? && user in t.s.stakers
    ensures var t' := Step(t, c.env, c.event);
      var w := Weight(t.s.stakers[user]);
      && t'.s.stakers == t.s.stakers
      && Lifetime(t', user) - Lifetime(t, user)
         == Accrued(w, t'.s.pool.rewardPerShare) - Accrued(w, t.s.pool.rewardPerShare)
  {
    if Execute(t.s, c.env, c.event).Ok? {
      var net := DepositRaises(t, c.env, c.event.authority, c.event.amount, c.event.funds);
    }
    hide DepositRewards, Increment, Weight, Accrued;
  }

  lemma UnstakeElsewhere(t: Tracked, env: Env, leaver: Pubkey, user: Pubkey)
    requires Inv(t) && user in t.s.stakers && user in Step(t, env, UnstakeEvent(leaver)).s.stakers
    ensures var t' := Step(t, env, UnstakeEvent(leaver));
      var w := Weight(t.s.stakers[user]);
      Lifetime(t', user) - Lifetime(t, user)
      == Accrued(w, t'.s.pool.rewardPerShare) - Accrued(w, t.s.pool.rewardPerShare)
  {
    LifetimeOverUnstake(t, env, leaver, user);
    if Unstake(t.s, leaver, env).Ok? {
      UnstakeForm(t, leaver, env);
    }
    hide Inv, Unstake, Lifetime, Weight, Accrued, Record, PositionFits, Payable, GetMultiplier;
  }

  lemma {:induction false} LifetimeOverRun(t: Tracked, calls: seq<Call>, user: Pubkey, weight: nat)
    requires Inv(t) && HoldsWeight(t, calls, user, weight)
    ensures Lifetime(Run(t, calls), user) - Lifetime(t, user)
         == Accrued(weight, Run(t, calls).s.pool.rewardPerShare) - Accrued(weight, t.s.pool.rewardPerShare)
    decreases |calls|
  {
    if calls != [] {
      var t' := Step(t, calls[0].env, calls[0].event);
      StepKeepsInv(t, calls[0].env, calls[0].event);
      LifetimeStep(t, calls[0], user);
      LifetimeOverRun(t', calls[1..], user, weight);
    }
  }

  /** Two positions of one weight receive exactly the same over any stretch, whenever each of them claims
      and whatever the clock does. */
  lemma EqualWeightsEarnAlike(t: Tracked, calls: seq<Call>, u: Pubkey, v: Pubkey, weight: nat)
    requires Inv(t) && HoldsWeight(t, calls, u, weight) && HoldsWeight(t, calls, v, weight)
    ensures Lifetime(Run(t, calls), u) - Lifetime(t, u) == Lifetime(Run(t, calls), v) - Lifetime(t, v)
  {
    LifetimeOverRun(t, calls, u, weight);
    LifetimeOverRun(t, calls, v, weight);
    hide *;
  }

  /** Strictly between the exact share less one lamport and less weight/PRECISION lamports per deposit,
      and the exact share plus one lamport. */
  predicate NearFairShare(received: int, weight: nat, deposits: nat, fair: real)
  {
    && received as real < fair + 1.0
    && fair - (weight * deposits) as real / PRECISION as real - 1.0 < received as real
  }

  /** [p] Rounding both ends of an interval down costs less than one lamport either way. */
  lemma AccruedDifference(weight: nat, early: nat, late: nat)
    requires early <= late
    ensures WithinOneLamport(Accrued(weight, late) - Accrued(weight, early), weight, late - early)
  {
  }

  /** Over any stretch that forfeits nothing and in which a position keeps its weight, what it receives
      (paid or payable) is its exact pro-rata share of the deposits, to within one lamport above, and one
      lamport plus weight/PRECISION lamports per deposit below. */
  lemma ReceivesFairShare(t: Tracked, calls: seq<Call>, user: Pubkey, weight: nat)
    requires Inv(t) && NoForfeit(t, calls) && HoldsWeight(t, calls, user, weight)
    ensures NearFairShare(Lifetime(Run(t, calls), user) - Lifetime(t, user), weight, Deposits(t, calls),
                          FairShare(t, calls, weight))
  {
    hide *;
    var r := Run(t, calls);
    RunCredit(t, calls, weight);
    LifetimeOverRun(t, calls, user, weight);
    AccruedDifference(weight, t.s.pool.rewardPerShare, r.s.pool.rewardPerShare);
    FairBounds(Lifetime(r, user) - Lifetime(t, user), weight, r.s.pool.rewardPerShare - t.s.pool.rewardPerShare,
               Deposits(t, calls), FairShare(t, calls, weight));
  }

  lemma FairBounds(received: int, weight: nat, rise: nat, deposits: nat, fair: real)
    requires WithinOneLamport(received, weight, rise) && CreditBounds(weight, rise, fair, deposits)
    ensures NearFairShare(received, weight, deposits, fair)
  {
  }
}
