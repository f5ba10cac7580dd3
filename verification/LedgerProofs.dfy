/** Every instruction keeps the ledger's invariants, hence every run does. */
module LedgerProofs {
  import opened Numeric
  import opened MapSums
  import opened Rewards
  import opened Staking
  import opened RewardLedger

  // ---- how the four sums move ----

  lemma SumsAfterPut(m: map<Pubkey, Staker>, u: Pubkey, k: Staker, rps: nat)
    ensures Sum(m[u := k], WeightOf()) == Sum(m, WeightOf()) + Weight(k) - (if u in m then Weight(m[u]) else 0)
    ensures Sum(m[u := k], AmountOf())
         == Sum(m, AmountOf()) + k.stakedAmount - (if u in m then m[u].stakedAmount else 0)
    ensures Sum(m[u := k], PendingOf())
         == Sum(m, PendingOf()) + k.pendingRewards - (if u in m then m[u].pendingRewards else 0)
    ensures Sum(m[u := k], PositionOf(rps))
         == Sum(m, PositionOf(rps)) + Position(k, rps) - (if u in m then Position(m[u], rps) else 0)
  {
    SumUpdate(m, WeightOf(), u, k);
    SumUpdate(m, AmountOf(), u, k);
    SumUpdate(m, PendingOf(), u, k);
    SumUpdate(m, PositionOf(rps), u, k);
  }

  lemma SumsAfterRemove(m: map<Pubkey, Staker>, u: Pubkey, rps: nat)
    requires u in m
    ensures Sum(m - {u}, WeightOf()) == Sum(m, WeightOf()) - Weight(m[u])
    ensures Sum(m - {u}, AmountOf()) == Sum(m, AmountOf()) - m[u].stakedAmount
    ensures Sum(m - {u}, PendingOf()) == Sum(m, PendingOf()) - m[u].pendingRewards
    ensures Sum(m - {u}, PositionOf(rps)) == Sum(m, PositionOf(rps)) - Position(m[u], rps)
  {
    SumRemove(m, WeightOf(), u);
    SumRemove(m, AmountOf(), u);
    SumRemove(m, PendingOf(), u);
    SumRemove(m, PositionOf(rps), u);
  }

  /** Raising the accumulator credits the positions with the rise per unit of weight. */
  lemma SumsAfterRaise(m: map<Pubkey, Staker>, rps: nat, later: nat, spread: int)
    requires spread == (later - rps) * Sum(m, WeightOf())
    ensures Sum(m, PositionOf(later)) == Sum(m, PositionOf(rps)) + spread
  {
    forall u | u in m
      ensures PositionOf(later)(m[u]) == PositionOf(rps)(m[u]) + (later - rps) * WeightOf()(m[u])
    {
      var w := Weight(m[u]);
      assert w * later == w * rps + (later - rps) * w;
    }
    SumLinear(m, PositionOf(rps), WeightOf(), PositionOf(later), later - rps);
  }

  lemma PositionStaysOk(k: Staker, snap: nat, rps: nat, later: nat)
    requires PositionOk(k, snap, rps) && rps <= later
    ensures PositionOk(k, snap, later)
    ensures k.rewardDebt <= Accrued(Weight(k), later)
  {
    AccruedMonotone(Weight(k), snap, later);
    hide Weight, Accrued;
  }

  /** A position below the first tier carries no debt. */
  lemma NoWeightNoDebt(k: Staker, snap: nat, rps: nat)
    requires PositionOk(k, snap, rps)
    ensures k.currentMultiplier == 0 ==> k.rewardDebt == 0
  {
  }

  // ---- settlement ----

  /** Settlement moves the ledger by exactly the two recorded fractions. */
  lemma SettleBalances(k: Staker, m: Multiplier, tws: u128, rps: u128)
    requires SettleFits(k, m, tws, rps)
    requires k.currentMultiplier == 0 ==> k.rewardDebt == 0
    ensures var k1 := Settle(k, m, tws, rps);
      m != k.currentMultiplier ==>
        PRECISION * (k1.pendingRewards - k.pendingRewards) + Position(k1, rps) - Position(k, rps)
        == Fraction(k.stakedAmount * m, rps) - Fraction(Weight(k), rps)
  {
  }

  lemma RecordTierBounded(h: History, k: Staker, m: Multiplier, rps: nat)
    ensures var r := RecordTier(h, k, m, rps);
      && r.gain - h.gain <= (PRECISION - 1) * (r.resets - h.resets)
      && r.dust - h.dust <= PRECISION * (r.epochs - h.epochs)
      && h.gain <= r.gain && h.resets <= r.resets <= h.resets + 1
      && r == h.(gain := r.gain, resets := r.resets, dust := r.dust, epochs := r.epochs)
  {
  }

  // ---- one position replaced or removed, everything else as it was ----

  /** `s'` differs from `s` in the position of `user`, its weight, and perhaps the reward vault. */
  ghost predicate Replaced(s: State, s': State, user: Pubkey, k: Staker)
  {
    && user in s.stakers && k.stakedAmount == s.stakers[user].stakedAmount
    && s'.stakers == s.stakers[user := k]
    && s'.pool.totalWeightedStake == s.pool.totalWeightedStake - Weight(s.stakers[user]) + Weight(k)
    && s'.pool.totalStaked == s.pool.totalStaked && s'.brainVault == s.brainVault
    && s'.pool.rewardPerShare == s.pool.rewardPerShare
    && s'.pool.totalRewardsDistributed == s.pool.totalRewardsDistributed
  }

  lemma ReplaceKeepsAggregates(t: Tracked, t': Tracked, user: Pubkey, k: Staker, snap: nat)
    requires Aggregates(t) && Replaced(t.s, t'.s, user, k)
    requires t'.h.snap == t.h.snap[user := snap] && PositionOk(k, snap, t.s.pool.rewardPerShare)
    ensures Aggregates(t')
  {
    OthersStayOk(t.s.stakers, t'.s.stakers, t.h.snap, t'.h.snap, user, t.s.pool.rewardPerShare);
    ReplaceKeepsSums(t, t', user, k);
    hide Weight, Sum, PositionOk;
  }

  lemma ReplaceKeepsSums(t: Tracked, t': Tracked, user: Pubkey, k: Staker)
    requires Aggregates(t) && Replaced(t.s, t'.s, user, k)
    ensures t'.s.pool.totalWeightedStake == Sum(t'.s.stakers, WeightOf())
    ensures t'.s.pool.totalStaked == Sum(t'.s.stakers, AmountOf()) <= t'.s.brainVault
  {
    SumsAfterPut(t.s.stakers, user, k, t.s.pool.rewardPerShare);
    hide Weight, Position, Sum, PositionOk;
  }

  lemma OthersStayOk(stakers: map<Pubkey, Staker>, stakers': map<Pubkey, Staker>,
                     snaps: map<Pubkey, nat>, snaps': map<Pubkey, nat>, user: Pubkey, rps: nat)
    requires snaps.Keys == stakers.Keys && user in stakers' && user in snaps'
    requires stakers' == stakers[user := stakers'[user]] && snaps' == snaps[user := snaps'[user]]
    requires forall u :: u in stakers ==> PositionOk(stakers[u], snaps[u], rps)
    requires PositionOk(stakers'[user], snaps'[user], rps)
    ensures snaps'.Keys == stakers'.Keys
    ensures forall u :: u in stakers' ==> PositionOk(stakers'[u], snaps'[u], rps)
  {
  }

  lemma ReplaceKeepsBalance(t: Tracked, t': Tracked, user: Pubkey, k: Staker)
    requires Balanced(t) && Replaced(t.s, t'.s, user, k)
    requires var rps := t.s.pool.rewardPerShare;
      var k0 := t.s.stakers[user];
      PRECISION * (t'.h.paid - t.h.paid) + PRECISION * (k.pendingRewards - k0.pendingRewards)
      + Position(k, rps) - Position(k0, rps) + t'.h.dust - t.h.dust == t'.h.gain - t.h.gain
    ensures Balanced(t')
  {
    SumsAfterPut(t.s.stakers, user, k, t.s.pool.rewardPerShare);
  }

  /** Bringing one position to its tier keeps all invariants, with the ledger of `RecordTier`. */
  lemma SettledKeepsInv(t: Tracked, user: Pubkey, now: i64)
    requires Inv(t) && user in t.s.stakers
    requires var k := t.s.stakers[user];
      SettleFits(k, GetMultiplier(k.stakeTimestamp, now), t.s.pool.totalWeightedStake, t.s.pool.rewardPerShare)
    ensures Inv(SettledTracked(t, user, now))
  {
    var k := t.s.stakers[user];
    var rps, tws := t.s.pool.rewardPerShare, t.s.pool.totalWeightedStake;
    var m := GetMultiplier(k.stakeTimestamp, now);
    NoWeightNoDebt(k, t.h.snap[user], rps);
    var t' := SettledTracked(t, user, now);
    if m == k.currentMultiplier {
      assert t'.s.stakers == t.s.stakers;
    } else {
      var k1 := Settle(k, m, tws, rps);
      SettleIsForwardOnly(k, m, tws, rps);
      SettleBalances(k, m, tws, rps);
      RecordTierBounded(t.h, k, m, rps);
      ReplaceKeepsAggregates(t, t', user, k1, rps);
      ReplaceKeepsBalance(t, t', user, k1);
    }
  }

  /** Accounts and ledger after `user` was settled at `now`. */
  function SettledTracked(t: Tracked, user: Pubkey, now: i64): (r: Tracked)
    requires user in t.s.stakers
    requires var k := t.s.stakers[user];
      SettleFits(k, GetMultiplier(k.stakeTimestamp, now), t.s.pool.totalWeightedStake, t.s.pool.rewardPerShare)
  {
    var k := t.s.stakers[user];
    var m := GetMultiplier(k.stakeTimestamp, now);
    var h1 := RecordTier(t.h, k, m, t.s.pool.rewardPerShare);
    Tracked(Settled(t.s, user, now),
            if m == k.currentMultiplier then h1 else h1.(snap := h1.snap[user := t.s.pool.rewardPerShare]))
  }

  // ---- claim ----

  function PaidStaker(k: Staker, rps: nat, now: i64): (r: Staker)
    requires Accrued(Weight(k), rps) <= U128_MAX
  {
    k.(rewardDebt := Accrued(Weight(k), rps), pendingRewards := 0, lastClaimTimestamp := now)
  }

  /** Paying a settled position in full keeps all invariants. */
  lemma PaidKeepsInv(t: Tracked, user: Pubkey, rentMin: u64, now: i64)
    requires Inv(t) && user in t.s.stakers
    requires OwedFits(t.s.stakers[user], t.s.pool.rewardPerShare)
    requires PayOut(t.s, Payable(t.s.stakers[user], t.s.pool.rewardPerShare), rentMin).Ok?
    ensures var k := t.s.stakers[user];
      var rps := t.s.pool.rewardPerShare;
      var s2 := PayOut(t.s, Payable(k, rps), rentMin).value;
      Inv(Tracked(s2.(stakers := s2.stakers[user := PaidStaker(k, rps, now)]),
                  RecordPayment(t.h, user, Payable(k, rps)).(snap := t.h.snap[user := rps])))
  {
    var k := t.s.stakers[user];
    var rps := t.s.pool.rewardPerShare;
    var k2 := PaidStaker(k, rps, now);
    var s2 := PayOut(t.s, Payable(k, rps), rentMin).value;
    var t' := Tracked(s2.(stakers := s2.stakers[user := k2]),
                      RecordPayment(t.h, user, Payable(k, rps)).(snap := t.h.snap[user := rps]));
    assert Weight(k2) == Weight(k);
    ReplaceKeepsAggregates(t, t', user, k2, rps);
    ReplaceKeepsBalance(t, t', user, k2);
  }

  /** A claim that pays nothing leaves a debt that is already current. */
  lemma NothingOwedIsCurrent(k: Staker, snap: nat, rps: nat)
    requires PositionOk(k, snap, rps)
    requires k.currentMultiplier == 0 || Payable(k, rps) == 0
    ensures PositionOk(k, rps, rps)
  {
  }

  lemma NothingPaidKeepsInv(t: Tracked, user: Pubkey)
    requires Inv(t) && user in t.s.stakers
    requires var k := t.s.stakers[user]; k.currentMultiplier == 0 || Payable(k, t.s.pool.rewardPerShare) == 0
    ensures Inv(t.(h := RecordPayment(t.h, user, 0).(snap := t.h.snap[user := t.s.pool.rewardPerShare])))
  {
    NothingOwedIsCurrent(t.s.stakers[user], t.h.snap[user], t.s.pool.rewardPerShare);
  }

  /** A successful claim settles the position and then pays it, if there is anything to pay. */
  lemma ClaimSettlesThenPays(t: Tracked, env: Env, user: Pubkey)
    requires Claim(t.s, user, env).Ok?
    ensures var t1 := SettledTracked(t, user, env.now);
      var t' := Step(t, env, ClaimEvent(user));
      var rps := t.s.pool.rewardPerShare;
      var k1 := t1.s.stakers[user];
      if k1.currentMultiplier == 0 || Payable(k1, rps) == 0 then
        && t' == t1.(h := RecordPayment(t1.h, user, 0).(snap := t1.h.snap[user := rps]))
        && (k1.currentMultiplier == 0 || k1.pendingRewards == 0)
      else
        && OwedFits(k1, rps) && PayOut(t1.s, Payable(k1, rps), env.rentMin).Ok?
        && var s2 := PayOut(t1.s, Payable(k1, rps), env.rentMin).value;
           t' == Tracked(s2.(stakers := s2.stakers[user := PaidStaker(k1, rps, env.now)]),
                         RecordPayment(t1.h, user, Payable(k1, rps)).(snap := t1.h.snap[user := rps]))
  {
    hide Fraction, SettleFits, Weight, GetMultiplier;
    var t1 := SettledTracked(t, user, env.now);
    assert t1.h.snap[user := t.s.pool.rewardPerShare] == t.h.snap[user := t.s.pool.rewardPerShare];
  }

  lemma ClaimKeepsInv(t: Tracked, env: Env, user: Pubkey)
    requires Inv(t)
    ensures Inv(Step(t, env, ClaimEvent(user)))
  {
    if Claim(t.s, user, env).Ok? {
      ClaimSettlesThenPays(t, env, user);
      SettledKeepsInv(t, user, env.now);
      var t1 := SettledTracked(t, user, env.now);
      var k1 := t1.s.stakers[user];
      if k1.currentMultiplier == 0 || Payable(k1, t.s.pool.rewardPerShare) == 0 {
        NothingPaidKeepsInv(t1, user);
      } else {
        PaidKeepsInv(t1, user, env.rentMin, env.now);
      }
    }
  }

  // ---- unstake ----

  /** `s'` is `s` without the position of `user`, perhaps with another accumulator. */
  ghost predicate Removed(s: State, s': State, user: Pubkey)
  {
    && user in s.stakers && s'.stakers == s.stakers - {user}
    && s'.pool.totalWeightedStake == s.pool.totalWeightedStake - Weight(s.stakers[user])
    && s'.pool.totalStaked == s.pool.totalStaked - s.stakers[user].stakedAmount
    && s'.brainVault == s.brainVault - s.stakers[user].stakedAmount
    && s.pool.rewardPerShare <= s'.pool.rewardPerShare
    && s'.pool.totalRewardsDistributed == s.pool.totalRewardsDistributed
  }

  lemma RemoveKeepsAggregates(t: Tracked, t': Tracked, user: Pubkey)
    requires Aggregates(t) && Removed(t.s, t'.s, user) && t'.h.snap == t.h.snap - {user}
    ensures Aggregates(t')
  {
    SumsAfterRemove(t.s.stakers, user, t.s.pool.rewardPerShare);
    forall u | u in t'.s.stakers
      ensures PositionOk(t'.s.stakers[u], t'.h.snap[u], t'.s.pool.rewardPerShare)
    {
      PositionStaysOk(t.s.stakers[u], t.h.snap[u], t.s.pool.rewardPerShare, t'.s.pool.rewardPerShare);
    }
  }

  /** The positions left when `user` goes and the accumulator rises. */
  lemma SumsAfterRemoveAndRaise(m: map<Pubkey, Staker>, user: Pubkey, rps: nat, later: nat, spread: int)
    requires user in m && spread == (later - rps) * Sum(m - {user}, WeightOf())
    ensures Sum(m - {user}, PositionOf(later)) == Sum(m, PositionOf(rps)) - Position(m[user], rps) + spread
  {
    SumRemove(m, PositionOf(rps), user);
    SumsAfterRaise(m - {user}, rps, later, spread);
  }

  lemma RemoveKeepsBalance(t: Tracked, t': Tracked, user: Pubkey, position: int, spread: int)
    requires Balanced(t) && user in t.s.stakers && t'.s.stakers == t.s.stakers - {user}
    requires t'.s.pool.totalRewardsDistributed == t.s.pool.totalRewardsDistributed
    requires Sum(t'.s.stakers, PositionOf(t'.s.pool.rewardPerShare))
          == Sum(t.s.stakers, PositionOf(t.s.pool.rewardPerShare)) - position + spread
    requires PRECISION * (t'.h.paid - t.h.paid) - PRECISION * t.s.stakers[user].pendingRewards
             - position + spread + t'.h.dust - t.h.dust == t'.h.gain - t.h.gain
    ensures Balanced(t')
  {
    SumRemove(t.s.stakers, PendingOf(), user);
  }

  /** [p] A position's credit is what it is owed plus the fraction its weight cannot be paid. */
  lemma PositionWhenPaid(k: Staker, rps: nat)
    ensures Position(k, rps) + PRECISION * k.pendingRewards
         == PRECISION * Payable(k, rps) + Fraction(Weight(k), rps)
  {
  }

  lemma PaidExitKeepsInv(t: Tracked, t': Tracked, user: Pubkey, owed: nat)
    requires Inv(t) && Removed(t.s, t'.s, user)
    requires t'.s.pool.rewardPerShare == t.s.pool.rewardPerShare
    requires owed == Payable(t.s.stakers[user], t.s.pool.rewardPerShare)
    requires t'.s.rewardVault == t.s.rewardVault - owed
    requires t'.h == RecordExit(RecordPayment(t.h, user, owed), user,
                                Weight(t.s.stakers[user]), t.s.pool.rewardPerShare)
    ensures Inv(t')
  {
    var k := t.s.stakers[user];
    var rps := t.s.pool.rewardPerShare;
    RemoveKeepsAggregates(t, t', user);
    PositionWhenPaid(k, rps);
    SumRemove(t.s.stakers, PositionOf(rps), user);
    ExitKeepsBalance(t, t', user, owed, Fraction(Weight(k), rps), Position(k, rps));
  }

  lemma ExitKeepsBalance(t: Tracked, t': Tracked, user: Pubkey, owed: nat, fraction: nat, position: int)
    requires Balanced(t) && RoundingBounded(t) && user in t.s.stakers && t'.s.stakers == t.s.stakers - {user}
    requires t'.s.pool.totalRewardsDistributed == t.s.pool.totalRewardsDistributed
    requires Sum(t'.s.stakers, PositionOf(t'.s.pool.rewardPerShare))
          == Sum(t.s.stakers, PositionOf(t.s.pool.rewardPerShare)) - position
    requires position + PRECISION * t.s.stakers[user].pendingRewards == PRECISION * owed + fraction
    requires fraction < PRECISION
    requires t'.s.rewardVault == t.s.rewardVault - owed
    requires t'.h.paid == t.h.paid + owed && t'.h.dust == t.h.dust + fraction && t'.h.gain == t.h.gain
    requires t'.h.epochs == t.h.epochs + One(fraction > 0)
    requires t'.h.resets == t.h.resets && t'.h.weightSum == t.h.weightSum
    requires t'.h.forfeited == t.h.forfeited && t'.h.seed == t.h.seed
    ensures Balanced(t') && RoundingBounded(t')
  {
    RemoveKeepsBalance(t, t', user, position, 0);
  }

  /** Spreading `amount` over the weight `tws` credits all of it except the recorded remainder. */
  lemma SpreadRemainder(amount: nat, tws: nat)
    requires 0 < tws
    ensures amount * PRECISION / tws * tws + amount * PRECISION % tws == amount * PRECISION
    ensures 0 <= amount * PRECISION % tws < tws
  {
  }

  lemma ForfeitRemainder(h: History, user: Pubkey, forfeited: u64, tws: u128)
    ensures Redistribution(forfeited, tws) * tws + RecordForfeit(h, user, forfeited, tws).dust - h.dust
         == PRECISION * forfeited
    ensures h.dust <= RecordForfeit(h, user, forfeited, tws).dust <= h.dust + PRECISION * forfeited
  {
  }

  lemma ForfeitKeepsBalance(t: Tracked, t': Tracked, user: Pubkey, forfeited: nat, spread: nat)
    requires Balanced(t) && RoundingBounded(t) && user in t.s.stakers && t'.s.stakers == t.s.stakers - {user}
    requires t'.s.pool.totalRewardsDistributed == t.s.pool.totalRewardsDistributed
    requires Sum(t'.s.stakers, PositionOf(t'.s.pool.rewardPerShare))
          == Sum(t.s.stakers, PositionOf(t.s.pool.rewardPerShare)) + spread
    requires forfeited == t.s.stakers[user].pendingRewards
    requires spread + t'.h.dust - t.h.dust == PRECISION * forfeited
    requires t'.s.rewardVault == t.s.rewardVault
    requires t'.h == t.h.(dust := t'.h.dust, forfeited := t.h.forfeited + forfeited, snap := t'.h.snap)
    ensures Balanced(t') && RoundingBounded(t')
  {
    RemoveKeepsBalance(t, t', user, 0, spread);
  }

  /** The credit of the remaining positions after a forfeit was redistributed. */
  lemma ForfeitPositions(t: Tracked, user: Pubkey, forfeited: u64, later: nat, spread: int)
    requires Aggregates(t) && user in t.s.stakers && t.s.stakers[user].currentMultiplier == 0
    requires later == t.s.pool.rewardPerShare + Redistribution(forfeited, t.s.pool.totalWeightedStake)
    requires spread == Redistribution(forfeited, t.s.pool.totalWeightedStake) * t.s.pool.totalWeightedStake
    ensures Sum(t.s.stakers - {user}, PositionOf(later))
         == Sum(t.s.stakers, PositionOf(t.s.pool.rewardPerShare)) + spread
  {
    var k := t.s.stakers[user];
    NoWeightNoDebt(k, t.h.snap[user], t.s.pool.rewardPerShare);
    assert Weight(k) == 0 && Position(k, t.s.pool.rewardPerShare) == 0;
    SumRemove(t.s.stakers, WeightOf(), user);
    SumsAfterRemoveAndRaise(t.s.stakers, user, t.s.pool.rewardPerShare, later, spread);
  }

  /** Closing a position below the first tier, whose checkpointed rewards go back to the others. */
  lemma ForfeitExitKeepsInv(t: Tracked, t': Tracked, user: Pubkey)
    requires Inv(t) && Removed(t.s, t'.s, user) && t.s.stakers[user].currentMultiplier == 0
    requires t'.s.pool.rewardPerShare == t.s.pool.rewardPerShare
             + Redistribution(t.s.stakers[user].pendingRewards, t.s.pool.totalWeightedStake)
    requires t'.h == RecordForfeit(t.h, user, t.s.stakers[user].pendingRewards, t.s.pool.totalWeightedStake)
    requires t'.s.rewardVault == t.s.rewardVault
    ensures Inv(t')
  {
    var f := t.s.stakers[user].pendingRewards;
    ForfeitRemainder(t.h, user, f, t.s.pool.totalWeightedStake);
    RemoveKeepsAggregates(t, t', user);
    var spread := PRECISION * f - (t'.h.dust - t.h.dust);
    ForfeitPositions(t, user, f, t'.s.pool.rewardPerShare, spread);
    ForfeitKeepsBalance(t, t', user, f, spread);
  }

  lemma SettledWeight(k: Staker, m: Multiplier, tws: u128, rps: u128)
    ensures SettleFits(k, m, tws, rps) ==>
              Settle(k, m, tws, rps).currentMultiplier == m
              && Settle(k, m, tws, rps).stakedAmount == k.stakedAmount
              && Weight(Settle(k, m, tws, rps)) == k.stakedAmount * m
  {
  }

  /** A successful unstake at a paying tier settles the position and then pays it out. */
  lemma UnstakeSettlesThenPays(t: Tracked, env: Env, user: Pubkey)
    requires Unstake(t.s, user, env).Ok?
    requires GetMultiplier(t.s.stakers[user].stakeTimestamp, env.now) > 0
    ensures var t1 := SettledTracked(t, user, env.now);
      var t' := Step(t, env, UnstakeEvent(user));
      var rps := t.s.pool.rewardPerShare;
      var k1 := t1.s.stakers[user];
      && OwedFits(k1, rps) && PayOut(t1.s, Payable(k1, rps), env.rentMin).Ok?
      && Removed(t1.s, t'.s, user) && t'.s.rewardVault == t1.s.rewardVault - Payable(k1, rps)
      && t'.s.pool.rewardPerShare == rps
      && Unstake(t.s, user, env).value.pay.lamports == Payable(k1, rps)
      && t'.h == RecordExit(RecordPayment(t1.h, user, Payable(k1, rps)), user, Weight(k1), rps)
  {
    hide Accrued, Fraction, Payable, SettleFits, GetMultiplier, Weight, Settle, WeightAfter;
    var k := t.s.stakers[user];
    SettledWeight(k, GetMultiplier(k.stakeTimestamp, env.now), t.s.pool.totalWeightedStake, t.s.pool.rewardPerShare);
    var t1 := SettledTracked(t, user, env.now);
    assert t1.h.snap - {user} == t.h.snap - {user};
  }

  /** A successful unstake below the first tier settles the position and forfeits it. */
  lemma UnstakeSettlesThenForfeits(t: Tracked, env: Env, user: Pubkey)
    requires Unstake(t.s, user, env).Ok?
    requires GetMultiplier(t.s.stakers[user].stakeTimestamp, env.now) == 0
    ensures var t1 := SettledTracked(t, user, env.now);
      var t' := Step(t, env, UnstakeEvent(user));
      var k1 := t1.s.stakers[user];
      && Removed(t1.s, t'.s, user) && t'.s.rewardVault == t1.s.rewardVault
      && t'.s.pool.rewardPerShare
         == t1.s.pool.rewardPerShare + Redistribution(k1.pendingRewards, t1.s.pool.totalWeightedStake)
      && Unstake(t.s, user, env).value.pay.lamports == 0
      && t'.h == RecordForfeit(t1.h, user, k1.pendingRewards, t1.s.pool.totalWeightedStake)
  {
    hide Accrued, Fraction, Payable, SettleFits, GetMultiplier, Weight, Settle, WeightAfter;
    var t1 := SettledTracked(t, user, env.now);
    assert t1.h.snap - {user} == t.h.snap - {user};
  }

  lemma UnstakeKeepsInv(t: Tracked, env: Env, user: Pubkey)
    requires Inv(t)
    ensures Inv(Step(t, env, UnstakeEvent(user)))
  {
    if Unstake(t.s, user, env).Ok? {
      SettledKeepsInv(t, user, env.now);
      var t1 := SettledTracked(t, user, env.now);
      var t' := Step(t, env, UnstakeEvent(user));
      if GetMultiplier(t.s.stakers[user].stakeTimestamp, env.now) > 0 {
        UnstakeSettlesThenPays(t, env, user);
        PaidExitKeepsInv(t1, t', user, Payable(t1.s.stakers[user], t.s.pool.rewardPerShare));
      } else {
        UnstakeSettlesThenForfeits(t, env, user);
        ForfeitExitKeepsInv(t1, t', user);
      }
    }
  }

  // ---- stake, deposit and the rest ----

  /** A position of weight zero without debt or rewards moves no sum but the staked amount. */
  lemma SumsAfterOpen(m: map<Pubkey, Staker>, user: Pubkey, k: Staker, rps: nat)
    requires user !in m && k.currentMultiplier == 0 && k.rewardDebt == 0 && k.pendingRewards == 0
    ensures Sum(m[user := k], WeightOf()) == Sum(m, WeightOf())
    ensures Sum(m[user := k], AmountOf()) == Sum(m, AmountOf()) + k.stakedAmount
    ensures Sum(m[user := k], PendingOf()) == Sum(m, PendingOf())
    ensures Sum(m[user := k], PositionOf(rps)) == Sum(m, PositionOf(rps))
    ensures Accrued(Weight(k), rps) == 0
  {
    SumsAfterPut(m, user, k, rps);
    assert Weight(k) == 0 && Weight(k) * rps == 0;
  }

  lemma OpenKeepsPositions(t: Tracked, t': Tracked, user: Pubkey, k: Staker)
    requires Aggregates(t) && user !in t.s.stakers
    requires 0 < k.stakedAmount <= MAX_STAKE_AMOUNT && k.currentMultiplier == 0 && k.rewardDebt == 0
    requires t'.s.stakers == t.s.stakers[user := k] && t'.s.pool.rewardPerShare == t.s.pool.rewardPerShare
    requires t'.h.snap == t.h.snap[user := t.s.pool.rewardPerShare]
    ensures forall u :: u in t'.s.stakers ==>
              u in t'.h.snap && PositionOk(t'.s.stakers[u], t'.h.snap[u], t'.s.pool.rewardPerShare)
  {
  }

  lemma OpenKeepsInv(t: Tracked, t': Tracked, user: Pubkey, k: Staker)
    requires Inv(t) && user !in t.s.stakers
    requires 0 < k.stakedAmount <= MAX_STAKE_AMOUNT
    requires k.currentMultiplier == 0 && k.rewardDebt == 0 && k.pendingRewards == 0
    requires t'.s.stakers == t.s.stakers[user := k]
    requires t'.h == t.h.(opens := t'.h.opens, snap := t.h.snap[user := t.s.pool.rewardPerShare])
    requires t'.s.pool == t.s.pool.(totalStaked := t'.s.pool.totalStaked)
    requires t'.s.pool.totalStaked == t.s.pool.totalStaked + k.stakedAmount
    requires t'.s.brainVault == t.s.brainVault + k.stakedAmount && t'.s.rewardVault == t.s.rewardVault
    ensures Inv(t')
  {
    OpenKeepsPositions(t, t', user, k);
    SumsAfterOpen(t.s.stakers, user, k, t.s.pool.rewardPerShare);
  }

  lemma StakeKeepsInv(t: Tracked, env: Env, user: Pubkey, amount: u64, wallet: u64)
    requires Inv(t)
    ensures Inv(Step(t, env, StakeEvent(user, amount, wallet)))
  {
    if Stake(t.s, user, amount, wallet, env).Ok? {
      OpenKeepsInv(t, Step(t, env, StakeEvent(user, amount, wallet)), user,
                   Staker(amount, env.now, 0, 0, env.now, 0));
    }
  }

  lemma RaiseKeepsAggregates(t: Tracked, t': Tracked)
    requires Aggregates(t) && t'.h.snap == t.h.snap && t'.s.stakers == t.s.stakers
    requires t'.s.pool.totalStaked == t.s.pool.totalStaked && t'.s.brainVault == t.s.brainVault
    requires t'.s.pool.totalWeightedStake == t.s.pool.totalWeightedStake
    requires t.s.pool.rewardPerShare <= t'.s.pool.rewardPerShare
    ensures Aggregates(t')
  {
  }

  lemma RaiseKeepsBalance(t: Tracked, t': Tracked, net: u64)
    requires Balanced(t) && t'.s.stakers == t.s.stakers
    requires 0 < t.s.pool.totalWeightedStake == Sum(t.s.stakers, WeightOf())
    requires t'.s.pool.rewardPerShare == t.s.pool.rewardPerShare + Increment(net, t.s.pool.totalWeightedStake)
    requires t'.s.pool.totalRewardsDistributed == t.s.pool.totalRewardsDistributed + net
    requires t'.h == RecordDeposit(t.h, net, t.s.pool.totalWeightedStake)
    ensures Balanced(t')
  {
    var tws := t.s.pool.totalWeightedStake;
    var inc := Increment(net, tws);
    SpreadRemainder(net, tws);
    SumsAfterRaise(t.s.stakers, t.s.pool.rewardPerShare, t'.s.pool.rewardPerShare, inc * tws);
  }

  /** A successful deposit, spelled out. */
  lemma DepositRaises(t: Tracked, env: Env, authority: Pubkey, amount: u64, funds: u64) returns (net: u64)
    requires DepositRewards(t.s, authority, amount, funds).Ok?
    ensures net == amount - Fee(amount, t.s.pool.protocolFeeBps)
    ensures 0 < t.s.pool.totalWeightedStake
    ensures t.s.pool.rewardPerShare + Increment(net, t.s.pool.totalWeightedStake) <= U128_MAX
    ensures t.s.pool.totalRewardsDistributed + net <= U64_MAX && t.s.rewardVault + net <= U64_MAX
    ensures var t' := Step(t, env, DepositEvent(authority, amount, funds));
      && t'.h == RecordDeposit(t.h, net, t.s.pool.totalWeightedStake)
      && t'.s.pool == t.s.pool.(
           rewardPerShare := t.s.pool.rewardPerShare + Increment(net, t.s.pool.totalWeightedStake),
           totalRewardsDistributed := t.s.pool.totalRewardsDistributed + net)
      && t'.s.stakers == t.s.stakers && t'.s.brainVault == t.s.brainVault
      && t'.s.rewardVault == t.s.rewardVault + net
      && t'.s.treasury == t.s.treasury + (amount - net)
  {
    net := amount - Fee(amount, t.s.pool.protocolFeeBps);
  }

  lemma DepositKeepsInv(t: Tracked, env: Env, authority: Pubkey, amount: u64, funds: u64)
    requires Inv(t)
    ensures Inv(Step(t, env, DepositEvent(authority, amount, funds)))
  {
    if DepositRewards(t.s, authority, amount, funds).Ok? {
      var net := DepositRaises(t, env, authority, amount, funds);
      var t' := Step(t, env, DepositEvent(authority, amount, funds));
      RaiseKeepsAggregates(t, t');
      RaiseKeepsBalance(t, t', net);
      SpreadRemainder(net, t.s.pool.totalWeightedStake);
    }
  }

  /** Every instruction, successful or not, keeps the ledger balanced and its bounds. */
  lemma StepKeepsInv(t: Tracked, env: Env, e: Event)
    requires Inv(t)
    ensures Inv(Step(t, env, e))
  {
    match e
    case StakeEvent(user, amount, wallet) => StakeKeepsInv(t, env, user, amount, wallet);
    case DepositEvent(authority, amount, funds) => DepositKeepsInv(t, env, authority, amount, funds);
    case ClaimEvent(user) => ClaimKeepsInv(t, env, user);
    case UnstakeEvent(user) => UnstakeKeepsInv(t, env, user);
    case ConfigEvent(_, _, _) =>
    case PauseEvent(_) =>
    case ResumeEvent(_) =>
    case GiftEvent(_, _) =>
  }

  /** From a freshly initialised pool, after any calls by any users under any clock. */
  lemma {:induction false} RunKeepsInv(t: Tracked, calls: seq<Call>)
    requires Inv(t)
    ensures Inv(Run(t, calls))
    decreases |calls|
  {
    if calls != [] {
      StepKeepsInv(t, calls[0].env, calls[0].event);
      RunKeepsInv(Step(t, calls[0].env, calls[0].event), calls[1..]);
    }
  }

  lemma InitialInv(t: Tracked)
    requires Initial(t)
    ensures Inv(t)
  {
  }
}
