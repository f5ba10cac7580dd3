/** A ledger kept beside the staking accounts, and the balance it keeps in every reachable state. */
module RewardLedger {
  import opened Numeric
  import opened MapSums
  import opened Rewards
  import opened Staking

  /** What has happened so far. The program stores none of this except the net deposits, which are
      `pool.totalRewardsDistributed`. Quantities in 1/PRECISION lamports are marked [p]. */
  datatype History = History(
    seed: nat,                    // lamports that reached the reward vault other than as net deposits
    paid: nat,                    // lamports paid out of the reward vault
    paidTo: map<Pubkey, nat>,     // the same, by receiver
    gain: nat,                    // [p] fractions handed to positions when a debt was rounded down
    resets: nat,                  // tier changes that handed out a non-zero fraction
    dust: nat,                    // [p] fractions nobody can be paid any more
    epochs: nat,                  // weights given up with a non-zero fraction
    weightSum: nat,               // sum of the weighted stakes that deposits were divided by
    forfeited: nat,               // lamports forfeited by unstaking below the first tier
    opens: nat,                   // positions ever opened
    snap: map<Pubkey, nat>)       // the accumulator each stored debt was computed at

  datatype Tracked = Tracked(s: State, h: History)

  function PaidTo(h: History, user: Pubkey): (n: nat)
  {
    if user in h.paidTo then h.paidTo[user] else 0
  }

  function One(b: bool): (n: nat) { if b then 1 else 0 }

  /** A position leaves weight `Weight(k)` for tier `m`. */
  function RecordTier(h: History, k: Staker, m: Multiplier, rps: nat): (r: History)
  {
    if m == k.currentMultiplier then h
    else
      var given := Fraction(k.stakedAmount * m, rps);
      var lost := Fraction(Weight(k), rps);
      h.(gain := h.gain + given, resets := h.resets + One(given > 0),
         dust := h.dust + lost, epochs := h.epochs + One(lost > 0))
  }

  function RecordPayment(h: History, user: Pubkey, lamports: nat): (r: History)
  {
    h.(paid := h.paid + lamports, paidTo := h.paidTo[user := PaidTo(h, user) + lamports])
  }

  function RecordDeposit(h: History, net: nat, tws: nat): (r: History)
    requires 0 < tws
  {
    h.(dust := h.dust + net * PRECISION % tws, weightSum := h.weightSum + tws)
  }

  function RecordExit(h: History, user: Pubkey, weight: nat, rps: nat): (r: History)
  {
    h.(dust := h.dust + Fraction(weight, rps), epochs := h.epochs + One(Fraction(weight, rps) > 0),
       snap := h.snap - {user})
  }

  function RecordForfeit(h: History, user: Pubkey, forfeited: nat, tws: nat): (r: History)
  {
    h.(forfeited := h.forfeited + forfeited,
       dust := h.dust + (if tws > 0 then forfeited * PRECISION % tws else forfeited * PRECISION),
       snap := h.snap - {user})
  }

  /** The ledger after `e` took the accounts from `s` to `d.s` with payment `d.pay`. */
  function Record(h: History, s: State, env: Env, e: Event, d: Done): (r: History)
    requires Execute(s, env, e) == Ok(d)
  {
    var rps := s.pool.rewardPerShare;
    match e
    case StakeEvent(user, _, _) => h.(opens := h.opens + 1, snap := h.snap[user := rps])
    case DepositEvent(_, _, _) =>
      RecordDeposit(h, d.s.pool.totalRewardsDistributed - s.pool.totalRewardsDistributed, s.pool.totalWeightedStake)
    case ClaimEvent(user) =>
      var k := s.stakers[user];
      var h1 := RecordTier(h, k, GetMultiplier(k.stakeTimestamp, env.now), rps);
      RecordPayment(h1, user, d.pay.lamports).(snap := h1.snap[user := rps])
    case UnstakeEvent(user) =>
      var k := s.stakers[user];
      var m := GetMultiplier(k.stakeTimestamp, env.now);
      var s1 := Settled(s, user, env.now);
      var h1 := RecordTier(h, k, m, rps);
      if m > 0 then RecordExit(RecordPayment(h1, user, d.pay.lamports), user, k.stakedAmount * m, rps)
      else RecordForfeit(h1, user, s1.stakers[user].pendingRewards, s1.pool.totalWeightedStake)
    case GiftEvent(lamports, _) => h.(seed := h.seed + lamports)
    case _ => h
  }

  /** One transaction: a failed one changes nothing. */
  function Step(t: Tracked, env: Env, e: Event): (r: Tracked)
  {
    match Execute(t.s, env, e)
    case Ok(d) => Tracked(d.s, Record(t.h, t.s, env, e, d))
    case Err(_) => t
  }

  datatype Call = Call(env: Env, event: Event)

  function Run(t: Tracked, calls: seq<Call>): (r: Tracked)
    decreases |calls|
  {
    if calls == [] then t else Run(Step(t, calls[0].env, calls[0].event), calls[1..])
  }

  /** The accounts `initialize` leaves, with whatever the vaults were sent before. */
  predicate Initial(t: Tracked)
  {
    && t.s.pool.totalStaked == 0 && t.s.pool.totalWeightedStake == 0
    && t.s.pool.rewardPerShare == 0 && t.s.pool.totalRewardsDistributed == 0
    && t.s.stakers == map[]
    && t.h == History(t.s.rewardVault, 0, map[], 0, 0, 0, 0, 0, 0, 0, map[])
  }

  // ---- quantities summed over the positions ----

  /** [p] What the accumulator has credited to a position beyond its debt. */
  function Position(k: Staker, rps: nat): int
  {
    Weight(k) * rps - PRECISION * k.rewardDebt
  }

  function WeightOf(): Staker -> int { (k: Staker) => Weight(k) }
  function AmountOf(): Staker -> int { (k: Staker) => k.stakedAmount }
  function PendingOf(): Staker -> int { (k: Staker) => k.pendingRewards }
  function PositionOf(rps: nat): Staker -> int { (k: Staker) => Position(k, rps) }
  function PayableOf(rps: nat): Staker -> int { (k: Staker) => Payable(k, rps) }

  // ---- invariants ----

  predicate PositionOk(k: Staker, snap: nat, rps: nat)
  {
    && 0 < k.stakedAmount <= MAX_STAKE_AMOUNT
    && snap <= rps
    && k.rewardDebt == Accrued(Weight(k), snap)
  }

  /** The pool totals are the sums over the positions, the vault holds every principal, and every
      debt was computed at an accumulator value no later than the current one. */
  ghost predicate Aggregates(t: Tracked)
  {
    && t.h.snap.Keys == t.s.stakers.Keys
    && (forall u :: u in t.s.stakers ==> PositionOk(t.s.stakers[u], t.h.snap[u], t.s.pool.rewardPerShare))
    && t.s.pool.totalWeightedStake == Sum(t.s.stakers, WeightOf())
    && t.s.pool.totalStaked == Sum(t.s.stakers, AmountOf())
    && t.s.pool.totalStaked <= t.s.brainVault
  }

  /** [p] Everything deposited or handed out by rounding is paid, checkpointed, credited or dust. */
  ghost predicate Balanced(t: Tracked)
  {
    var rps := t.s.pool.rewardPerShare;
    PRECISION * t.s.pool.totalRewardsDistributed + t.h.gain
    == PRECISION * t.h.paid + PRECISION * Sum(t.s.stakers, PendingOf())
       + Sum(t.s.stakers, PositionOf(rps)) + t.h.dust
  }

  predicate RoundingBounded(t: Tracked)
  {
    && t.h.gain <= (PRECISION - 1) * t.h.resets
    && t.h.dust <= t.h.weightSum + PRECISION * t.h.epochs + PRECISION * t.h.forfeited
    && t.s.rewardVault == t.h.seed + t.s.pool.totalRewardsDistributed - t.h.paid
  }

  ghost predicate Inv(t: Tracked)
  {
    Aggregates(t) && Balanced(t) && RoundingBounded(t)
  }
}
