/** What the ledger says about lamports: how far payouts can exceed deposits, and what is lost. */
module Conservation {
  import opened Numeric
  import opened MapSums
  import opened Rewards
  import opened RewardLedger
  import opened LedgerProofs

  function FractionOf(rps: nat): Staker -> int { (k: Staker) => Fraction(Weight(k), rps) }

  /** Lamports paid so far and payable right now to all positions together. */
  ghost function Committed(t: Tracked): int
  {
    t.h.paid + Sum(t.s.stakers, PayableOf(t.s.pool.rewardPerShare))
  }

  /** Rounding can raise what is committed above the deposits by this much. */
  function Excess(resets: nat): (n: nat) { if resets == 0 then 0 else resets - 1 }

  /** [p] Summing the positions' credit two ways. */
  lemma CreditSum(m: map<Pubkey, Staker>, rps: nat)
    ensures PRECISION * Sum(m, PayableOf(rps)) + Sum(m, FractionOf(rps))
         == PRECISION * Sum(m, PendingOf()) + Sum(m, PositionOf(rps))
  {
  }

  /** The exact gap between deposits and commitments, and so exactly when "never more is claimed than
      was deposited" holds: when the fractions handed out are covered by those still held or lost. */
  lemma ConservationGap(t: Tracked)
    requires Inv(t)
    ensures PRECISION * (t.s.pool.totalRewardsDistributed - Committed(t)) + t.h.gain
         == Sum(t.s.stakers, FractionOf(t.s.pool.rewardPerShare)) + t.h.dust
    ensures Committed(t) <= t.s.pool.totalRewardsDistributed
       <==> t.h.gain <= Sum(t.s.stakers, FractionOf(t.s.pool.rewardPerShare)) + t.h.dust
  {
    CreditSum(t.s.stakers, t.s.pool.rewardPerShare);
  }

  /** Payouts never exceed deposits by as much as one lamport per rounded-down tier change; while
      no debt was rounded down (every tier change at a zero accumulator, say) they never exceed them. */
  lemma CommittedBounded(t: Tracked)
    requires Inv(t)
    ensures Committed(t) <= t.s.pool.totalRewardsDistributed + Excess(t.h.resets)
  {
    ConservationGap(t);
    SumNonNegative(t.s.stakers, FractionOf(t.s.pool.rewardPerShare));
  }

  lemma PayableNonNegative(t: Tracked)
    requires Inv(t)
    ensures forall u :: u in t.s.stakers ==> 0 <= Payable(t.s.stakers[u], t.s.pool.rewardPerShare)
    ensures t.h.paid <= Committed(t)
  {
    var rps := t.s.pool.rewardPerShare;
    forall u | u in t.s.stakers
      ensures 0 <= Payable(t.s.stakers[u], rps)
    {
      PositionStaysOk(t.s.stakers[u], t.h.snap[u], rps, rps);
    }
    SumNonNegative(t.s.stakers, PayableOf(rps));
  }

  /** Over any run from initialisation, under any clock. */
  lemma RunConserves(t: Tracked, calls: seq<Call>)
    requires Initial(t)
    ensures var r := Run(t, calls);
      && r.h.paid <= Committed(r) <= r.s.pool.totalRewardsDistributed + Excess(r.h.resets)
      && r.s.rewardVault == r.h.seed + r.s.pool.totalRewardsDistributed - r.h.paid
      && r.s.pool.totalStaked == Sum(r.s.stakers, AmountOf()) <= r.s.brainVault
      && r.s.pool.totalWeightedStake == Sum(r.s.stakers, WeightOf())
  {
    InitialInv(t);
    RunKeepsInv(t, calls);
    CommittedBounded(Run(t, calls));
    PayableNonNegative(Run(t, calls));
  }

  /** When everybody has left, what stays undistributed is bounded by the rounding of the deposits
      (Σ tws/PRECISION), one lamport per weight given up, and the forfeits. */
  lemma DustWhenEmpty(t: Tracked, calls: seq<Call>)
    requires Initial(t) && Run(t, calls).s.stakers == map[]
    ensures var r := Run(t, calls);
      && PRECISION * (r.s.pool.totalRewardsDistributed - r.h.paid)
         <= r.h.weightSum + PRECISION * r.h.epochs + PRECISION * r.h.forfeited
      && r.s.pool.totalWeightedStake == 0 && r.s.pool.totalStaked == 0
  {
    InitialInv(t);
    RunKeepsInv(t, calls);
  }
}
