/** When rewards are collected does not matter: claiming before leaving, claiming in another order and
    claiming more often all end in the same totals. */
module Schedules {
  import opened Numeric
  import opened Rewards
  import opened Staking
  import opened RewardLedger
  import opened LedgerProofs
  import opened Conservation
  import opened ClosedForms

  // ---- claim, then unstake ----

  /** On an unpaused pool and at a paying tier, claiming and then unstaking at the same time does what
      unstaking alone does: the same accounts, the same lamports in total, the same principal, or the
      same error. Nothing is assumed about the accounts. */
  lemma ClaimThenUnstake(s: State, user: Pubkey, env: Env)
    requires user in s.stakers && !s.pool.isPaused
    requires GetMultiplier(s.stakers[user].stakeTimestamp, env.now) > 0
    ensures var c := Claim(s, user, env);
      match Unstake(s, user, env)
      case Ok(d) =>
        && c.Ok? && c.value.pay == Payment(d.pay.lamports, 0)
        && Unstake(c.value.s, user, env) == Ok(Done(d.s, Payment(0, d.pay.brain)))
      case Err(e) => c == Err(e) || (c.Ok? && Unstake(c.value.s, user, env) == Err(e))
  {
    var c := Claim(s, user, env);
    if c.Ok? {
      ClaimedIsSettled(s, user, env);
      var s' := c.value.s;
      var s1 := Settled(s, user, env.now);
      assert s'.stakers - {user} == s.stakers - {user} == s1.stakers - {user};
      assert Settled(s', user, env.now).stakers == s'.stakers;
      hide Weight, Accrued, Payable, OwedFits, SettleFits, Settle, WeightAfter, GetMultiplier;
    }
  }

  /** After a successful claim at a paying tier the position is settled and owed nothing. */
  lemma ClaimedIsSettled(s: State, user: Pubkey, env: Env)
    requires Claim(s, user, env).Ok?
    requires GetMultiplier(s.stakers[user].stakeTimestamp, env.now) > 0
    ensures var s' := Claim(s, user, env).value.s;
      var k := s.stakers[user];
      var m := GetMultiplier(k.stakeTimestamp, env.now);
      && user in s'.stakers && s'.stakers[user].stakeTimestamp == k.stakeTimestamp
      && s'.pool.rewardPerShare == s.pool.rewardPerShare
      && SettleFits(s'.stakers[user], m, s'.pool.totalWeightedStake, s.pool.rewardPerShare)
      && Settle(s'.stakers[user], m, s'.pool.totalWeightedStake, s.pool.rewardPerShare) == s'.stakers[user]
      && WeightAfter(s'.stakers[user], m, s'.pool.totalWeightedStake, s.pool.rewardPerShare)
         == s'.pool.totalWeightedStake
      && OwedFits(s'.stakers[user], s.pool.rewardPerShare)
      && Payable(s'.stakers[user], s.pool.rewardPerShare) == 0
      && Weight(s'.stakers[user]) == Weight(Settled(s, user, env.now).stakers[user])
      && s'.stakers[user].stakedAmount == k.stakedAmount
  {
  }

  // ---- claims by different stakers commute ----

  /** No vault check refuses the call and no payment pauses the pool. */
  predicate VaultHolds(s: State, env: Env, e: Event)
  {
    match Execute(s, env, e)
    case Ok(d) => d.s.pool.isPaused == s.pool.isPaused
    case Err(x) => x != InsufficientRewards && x != RentExemptViolation
  }

  function Told(t: Tracked, env: Env, e: Event): (p: Result<Payment>)
  {
    Outcome(Execute(t.s, env, e))
  }

  /** Two stakers' claims, each at its own time, across tier changes or not: while the vault holds, the
      order matters to no account, to neither answer, and not to the ledger. */
  lemma ClaimsCommute(t: Tracked, u: Pubkey, v: Pubkey, envU: Env, envV: Env)
    requires Inv(t) && u != v && envU.rentMin == envV.rentMin
    requires VaultHolds(t.s, envU, ClaimEvent(u)) && VaultHolds(Step(t, envU, ClaimEvent(u)).s, envV, ClaimEvent(v))
    ensures var tu, tv := Step(t, envU, ClaimEvent(u)), Step(t, envV, ClaimEvent(v));
      && Step(tu, envV, ClaimEvent(v)) == Step(tv, envU, ClaimEvent(u))
      && Told(tu, envV, ClaimEvent(v)) == Told(t, envV, ClaimEvent(v))
      && Told(tv, envU, ClaimEvent(u)) == Told(t, envU, ClaimEvent(u))
  {
    hide *;
    if u in t.s.stakers && v in t.s.stakers && !t.s.pool.isPaused {
      ClaimForm(t, u, envU);
      ClaimForm(t, v, envV);
      SecondClaim(t, u, v, envU, envV);
      FirstClaimHolds(t, u, v, envU, envV);
      SecondClaim(t, v, u, envV, envU);
      SecondClaimHolds(t, u, v, envU, envV);
      PlainClaim(t, u, envU);
      PlainClaim(Step(t, envU, ClaimEvent(u)), v, envV);
      PlainClaim(t, v, envV);
      PlainClaim(Step(t, envV, ClaimEvent(v)), u, envU);
      PresentClaimsCommute(t, u, v, envU, envV);
    } else {
      LoneClaim(t, u, v, envU, envV);
    }
  }

  /** A claim on a paused pool or by somebody without a position has no effect, before or after another. */
  lemma LoneClaim(t: Tracked, u: Pubkey, v: Pubkey, envU: Env, envV: Env)
    requires u != v && (t.s.pool.isPaused || u !in t.s.stakers || v !in t.s.stakers)
    requires VaultHolds(t.s, envU, ClaimEvent(u)) && VaultHolds(Step(t, envU, ClaimEvent(u)).s, envV, ClaimEvent(v))
    ensures var tu, tv := Step(t, envU, ClaimEvent(u)), Step(t, envV, ClaimEvent(v));
      && Step(tu, envV, ClaimEvent(v)) == Step(tv, envU, ClaimEvent(u))
      && Told(tu, envV, ClaimEvent(v)) == Told(t, envV, ClaimEvent(v))
      && Told(tv, envU, ClaimEvent(u)) == Told(t, envU, ClaimEvent(u))
  {
    hide SettleFits, OwedFits, GetMultiplier, Payable, Accrued, Weight, Settle, WeightAfter, RecordTier, RecordPayment;
  }

  /** `user`'s claim of `due` lamports took `s` to `s'`, where the position is `k` and weighs `dw` more. */
  predicate Took(s: State, s': State, user: Pubkey, k: Staker, due: int, dw: int)
  {
    && s'.pool == s.pool.(totalWeightedStake := s'.pool.totalWeightedStake)
    && s'.pool.totalWeightedStake == s.pool.totalWeightedStake + dw
    && s'.stakers == s.stakers[user := k]
    && s'.rewardVault == s.rewardVault - due
    && s'.brainVault == s.brainVault && s'.treasury == s.treasury
  }

  lemma AccountsCommute(s: State, su: State, suv: State, sv: State, svu: State, u: Pubkey, v: Pubkey,
                        ku: Staker, kv: Staker, dueU: int, dueV: int, dwU: int, dwV: int)
    requires u != v
    requires Took(s, su, u, ku, dueU, dwU) && Took(su, suv, v, kv, dueV, dwV)
    requires Took(s, sv, v, kv, dueV, dwV) && Took(sv, svu, u, ku, dueU, dwU)
    ensures suv == svu
  {
    assert s.stakers[u := ku][v := kv] == s.stakers[v := kv][u := ku];
  }

  /** The ledger after a successful claim. */
  function ClaimHistory(h: History, user: Pubkey, k: Staker, m: Multiplier, rps: nat, paid: nat): (h': History)
  {
    var h1 := RecordTier(h, k, m, rps);
    RecordPayment(h1, user, paid).(snap := h1.snap[user := rps])
  }

  /** What a claim adds to the ledger's totals. */
  datatype Added = Added(paid: nat, gain: nat, resets: nat, dust: nat, epochs: nat)

  function Additions(k: Staker, m: Multiplier, rps: nat, paid: nat): (a: Added)
  {
    if m == k.currentMultiplier then Added(paid, 0, 0, 0, 0)
    else
      var given, lost := Fraction(k.stakedAmount * m, rps), Fraction(Weight(k), rps);
      Added(paid, given, One(given > 0), lost, One(lost > 0))
  }

  /** `h'` is `h` with the additions and the two entries of `user`, field by field. */
  predicate Entered(h: History, h': History, user: Pubkey, rps: nat, a: Added)
  {
    && h'.paidTo == h.paidTo[user := PaidTo(h, user) + a.paid] && h'.snap == h.snap[user := rps]
    && h'.paid == h.paid + a.paid && h'.gain == h.gain + a.gain && h'.resets == h.resets + a.resets
    && h'.dust == h.dust + a.dust && h'.epochs == h.epochs + a.epochs
    && h'.seed == h.seed && h'.weightSum == h.weightSum && h'.forfeited == h.forfeited && h'.opens == h.opens
  }

  lemma ClaimEnters(h: History, user: Pubkey, k: Staker, m: Multiplier, rps: nat, paid: nat)
    ensures Entered(h, ClaimHistory(h, user, k, m, rps, paid), user, rps, Additions(k, m, rps, paid))
  {
    hide Fraction, Weight;
  }

  lemma EntriesCommute(h: History, hu: History, huv: History, hv: History, hvu: History, u: Pubkey, v: Pubkey,
                       rps: nat, a: Added, b: Added)
    requires u != v
    requires Entered(h, hu, u, rps, a) && Entered(hu, huv, v, rps, b)
    requires Entered(h, hv, v, rps, b) && Entered(hv, hvu, u, rps, a)
    ensures huv == hvu
  {
    PaidToOthers(h, hu, u, v);
    PaidToOthers(h, hv, v, u);
    PutsCommute(h.snap, u, rps, v, rps);
    PutsCommute(h.paidTo, u, PaidTo(h, u) + a.paid, v, PaidTo(h, v) + b.paid);
    hide PaidTo;
  }

  lemma PaidToOthers(h: History, h': History, user: Pubkey, other: Pubkey)
    requires user in h'.paidTo && h'.paidTo == h.paidTo[user := h'.paidTo[user]] && other != user
    ensures PaidTo(h', other) == PaidTo(h, other)
  {
  }

  lemma PutsCommute<K, V>(m: map<K, V>, j: K, x: V, k: K, y: V)
    requires j != k
    ensures m[j := x][k := y] == m[k := y][j := x]
  {
  }

  lemma LedgersCommute(h: History, u: Pubkey, v: Pubkey, k: Staker, j: Staker,
                       m: Multiplier, n: Multiplier, rps: nat, paidU: nat, paidV: nat)
    requires u != v
    ensures ClaimHistory(ClaimHistory(h, u, k, m, rps, paidU), v, j, n, rps, paidV)
         == ClaimHistory(ClaimHistory(h, v, j, n, rps, paidV), u, k, m, rps, paidU)
  {
    hide *;
    var hu, hv := ClaimHistory(h, u, k, m, rps, paidU), ClaimHistory(h, v, j, n, rps, paidV);
    ClaimEnters(h, u, k, m, rps, paidU);
    ClaimEnters(hu, v, j, n, rps, paidV);
    ClaimEnters(h, v, j, n, rps, paidV);
    ClaimEnters(hv, u, k, m, rps, paidU);
    EntriesCommute(h, hu, ClaimHistory(hu, v, j, n, rps, paidV), hv, ClaimHistory(hv, u, k, m, rps, paidU), u, v,
                   rps, Additions(k, m, rps, paidU), Additions(j, n, rps, paidV));
  }

  /** A claim of a present position in the form that commutes. */
  predicate ClaimsPlainly(t: Tracked, user: Pubkey, env: Env, k: Staker, rps: u128)
  {
    var m := GetMultiplier(k.stakeTimestamp, env.now);
    var t' := Step(t, env, ClaimEvent(user));
    if PositionFits(k, m, rps) then
      && 0 <= Due(k, m, rps) <= U64_MAX
      && Told(t, env, ClaimEvent(user)) == Ok(Payment(Due(k, m, rps), 0))
      && Took(t.s, t'.s, user, AfterClaim(k, m, rps, env.now), Due(k, m, rps), k.stakedAmount * m - Weight(k))
      && t'.h == ClaimHistory(t.h, user, k, m, rps, Due(k, m, rps))
    else
      Told(t, env, ClaimEvent(user)) == Err(MathOverflow) && t' == t
  }

  lemma PlainClaim(t: Tracked, user: Pubkey, env: Env)
    requires user in t.s.stakers && !t.s.pool.isPaused && VaultHolds(t.s, env, ClaimEvent(user))
    requires ClaimedAs(t.s, user, env, Claim(t.s, user, env))
    ensures ClaimsPlainly(t, user, env, t.s.stakers[user], t.s.pool.rewardPerShare)
  {
    hide Claim, PositionFits, AfterClaim, Payable, Weight, GetMultiplier, RecordTier, RecordPayment;
  }

  lemma PresentClaimsCommute(t: Tracked, u: Pubkey, v: Pubkey, envU: Env, envV: Env)
    requires u != v && u in t.s.stakers && v in t.s.stakers
    requires var rps := t.s.pool.rewardPerShare;
      var k, j := t.s.stakers[u], t.s.stakers[v];
      && ClaimsPlainly(t, u, envU, k, rps) && ClaimsPlainly(Step(t, envU, ClaimEvent(u)), v, envV, j, rps)
      && ClaimsPlainly(t, v, envV, j, rps) && ClaimsPlainly(Step(t, envV, ClaimEvent(v)), u, envU, k, rps)
    ensures var tu, tv := Step(t, envU, ClaimEvent(u)), Step(t, envV, ClaimEvent(v));
      && Step(tu, envV, ClaimEvent(v)) == Step(tv, envU, ClaimEvent(u))
      && Told(tu, envV, ClaimEvent(v)) == Told(t, envV, ClaimEvent(v))
      && Told(tv, envU, ClaimEvent(u)) == Told(t, envU, ClaimEvent(u))
  {
    hide Step, Told, PositionFits, AfterClaim, Due, Weight, GetMultiplier, ClaimHistory;
    var rps := t.s.pool.rewardPerShare;
    var k, j := t.s.stakers[u], t.s.stakers[v];
    var m, n := GetMultiplier(k.stakeTimestamp, envU.now), GetMultiplier(j.stakeTimestamp, envV.now);
    if PositionFits(k, m, rps) && PositionFits(j, n, rps) {
      var tu, tv := Step(t, envU, ClaimEvent(u)), Step(t, envV, ClaimEvent(v));
      AccountsCommute(t.s, tu.s, Step(tu, envV, ClaimEvent(v)).s, tv.s, Step(tv, envU, ClaimEvent(u)).s, u, v,
                      AfterClaim(k, m, rps, envU.now), AfterClaim(j, n, rps, envV.now),
                      Due(k, m, rps), Due(j, n, rps),
                      k.stakedAmount * m - Weight(k), j.stakedAmount * n - Weight(j));
      LedgersCommute(t.h, u, v, k, j, m, n, rps, Due(k, m, rps), Due(j, n, rps));
    }
  }

  /** After the claim of `u`, that of `v` finds its own position, the accumulator, and a smaller vault. */
  lemma SecondClaim(t: Tracked, u: Pubkey, v: Pubkey, envU: Env, envV: Env)
    requires Inv(t) && u != v && u in t.s.stakers && v in t.s.stakers && !t.s.pool.isPaused
    requires VaultHolds(t.s, envU, ClaimEvent(u))
    ensures var s := Step(t, envU, ClaimEvent(u)).s;
      && v in s.stakers && s.stakers[v] == t.s.stakers[v] && !s.pool.isPaused
      && s.pool.rewardPerShare == t.s.pool.rewardPerShare
      && ClaimedAs(s, v, envV, Claim(s, v, envV))
  {
    var tu := Step(t, envU, ClaimEvent(u));
    ClaimForm(t, u, envU);
    StepKeepsInv(t, envU, ClaimEvent(u));
    hide Inv, Claim, PositionFits, AfterClaim, Payable, Weight, GetMultiplier, Due, Record;
    ClaimForm(tu, v, envV);
  }

  /** Neither claim draws more than the vault can spare even after the other. */
  lemma FirstClaimHolds(t: Tracked, u: Pubkey, v: Pubkey, envU: Env, envV: Env)
    requires Inv(t) && u != v && u in t.s.stakers && v in t.s.stakers && !t.s.pool.isPaused
    requires envU.rentMin == envV.rentMin
    requires ClaimedAs(t.s, u, envU, Claim(t.s, u, envU)) && ClaimedAs(t.s, v, envV, Claim(t.s, v, envV))
    requires var s := Step(t, envU, ClaimEvent(u)).s;
      && v in s.stakers && s.stakers[v] == t.s.stakers[v] && !s.pool.isPaused
      && s.pool.rewardPerShare == t.s.pool.rewardPerShare
      && ClaimedAs(s, v, envV, Claim(s, v, envV)) && VaultHolds(s, envV, ClaimEvent(v))
    ensures VaultHolds(t.s, envV, ClaimEvent(v))
  {
    PayableNonNegative(t);
    hide Inv, Claim, PositionFits, AfterClaim, Payable, Weight, GetMultiplier, Record;
  }

  lemma SecondClaimHolds(t: Tracked, u: Pubkey, v: Pubkey, envU: Env, envV: Env)
    requires Inv(t) && u != v && u in t.s.stakers && v in t.s.stakers && !t.s.pool.isPaused
    requires envU.rentMin == envV.rentMin
    requires ClaimedAs(t.s, u, envU, Claim(t.s, u, envU)) && ClaimedAs(t.s, v, envV, Claim(t.s, v, envV))
    requires VaultHolds(t.s, envU, ClaimEvent(u)) && VaultHolds(t.s, envV, ClaimEvent(v))
    requires var s := Step(t, envU, ClaimEvent(u)).s;
      && v in s.stakers && s.stakers[v] == t.s.stakers[v] && !s.pool.isPaused
      && s.pool.rewardPerShare == t.s.pool.rewardPerShare
      && ClaimedAs(s, v, envV, Claim(s, v, envV)) && VaultHolds(s, envV, ClaimEvent(v))
    requires var s := Step(t, envV, ClaimEvent(v)).s;
      && u in s.stakers && s.stakers[u] == t.s.stakers[u] && !s.pool.isPaused
      && s.pool.rewardPerShare == t.s.pool.rewardPerShare
      && ClaimedAs(s, u, envU, Claim(s, u, envU))
    ensures VaultHolds(Step(t, envV, ClaimEvent(v)).s, envU, ClaimEvent(u))
  {
    PayableNonNegative(t);
    hide Inv, Claim, PositionFits, AfterClaim, Payable, Weight, GetMultiplier, Record;
  }

  // ---- extra claims within a tier change nobody's total ----

  predicate SamePosition(k: Staker, k': Staker)
  {
    && k'.stakedAmount == k.stakedAmount && k'.stakeTimestamp == k.stakeTimestamp
    && k'.currentMultiplier == k.currentMultiplier
  }

  /** Two histories of one pool that differ only in when rewards were collected. */
  ghost predicate SameTotals(t: Tracked, t': Tracked)
  {
    && t'.s.pool == t.s.pool && t'.s.brainVault == t.s.brainVault && t'.s.treasury == t.s.treasury
    && t'.s.stakers.Keys == t.s.stakers.Keys
    && (forall u :: u in t.s.stakers ==> SamePosition(t.s.stakers[u], t'.s.stakers[u]))
    && (forall u :: Lifetime(t', u) == Lifetime(t, u))
  }

  /** No vault check, automatic pause or overflow of a balance or of a payout stops the call, and it
      forfeits nothing. */
  predicate Smooth(t: Tracked, env: Env, e: Event)
  {
    match Execute(t.s, env, e)
    case Ok(d) =>
      e.ClaimEvent? || e.UnstakeEvent? ==>
        d.s.pool.isPaused == t.s.pool.isPaused && Step(t, env, e).h.forfeited == t.h.forfeited
    case Err(x) =>
      && x != InsufficientRewards && x != RentExemptViolation && x != BalanceOverflow
      && (e.ClaimEvent? || e.UnstakeEvent? ==> x != MathOverflow)
  }

  /** A claim that pauses nothing moves lamports from payable to paid, and weight as the tier says. */
  lemma ClaimMoves(t: Tracked, user: Pubkey, env: Env)
    requires Inv(t) && user in t.s.stakers && !t.s.pool.isPaused
    requires Claim(t.s, user, env).Ok? && !Claim(t.s, user, env).value.s.pool.isPaused
    ensures var s, s' := t.s, Claim(t.s, user, env).value.s;
      var k := s.stakers[user];
      var m := GetMultiplier(k.stakeTimestamp, env.now);
      && s'.pool == s.pool.(totalWeightedStake := s'.pool.totalWeightedStake)
      && s'.pool.totalWeightedStake == s.pool.totalWeightedStake - Weight(k) + k.stakedAmount * m
      && s'.brainVault == s.brainVault && s'.treasury == s.treasury
      && user in s'.stakers && s'.stakers == s.stakers[user := s'.stakers[user]]
      && SamePosition(k.(currentMultiplier := m), s'.stakers[user])
  {
    ClaimForm(t, user, env);
    hide Inv, Claim, PositionFits, Payable, Weight, Accrued, GetMultiplier;
  }

  /** What the others keep, and `user`'s position becomes alike in both. */
  lemma SameAfterPut(t: Tracked, t': Tracked, d: Tracked, d': Tracked, user: Pubkey)
    requires SameTotals(t, t') && user in d.s.stakers && user in d'.s.stakers
    requires d.s.stakers == t.s.stakers[user := d.s.stakers[user]]
    requires d'.s.stakers == t'.s.stakers[user := d'.s.stakers[user]]
    requires SamePosition(d.s.stakers[user], d'.s.stakers[user])
    requires forall u :: Lifetime(d, u) == Lifetime(t, u) && Lifetime(d', u) == Lifetime(t', u)
    requires d'.s.pool == d.s.pool && d'.s.brainVault == d.s.brainVault && d'.s.treasury == d.s.treasury
    ensures SameTotals(d, d')
  {
    hide Lifetime;
    forall u ensures Lifetime(d', u) == Lifetime(d, u) { assert Lifetime(t', u) == Lifetime(t, u); }
    forall u | u in d.s.stakers ensures SamePosition(d.s.stakers[u], d'.s.stakers[u]) {
      if u != user { assert SamePosition(t.s.stakers[u], t'.s.stakers[u]); }
    }
  }

  lemma SameClaim(t: Tracked, t': Tracked, user: Pubkey, env: Env)
    requires SameTotals(t, t') && Inv(t) && Inv(t')
    requires Smooth(t, env, ClaimEvent(user)) && Smooth(t', env, ClaimEvent(user))
    ensures SameTotals(Step(t, env, ClaimEvent(user)), Step(t', env, ClaimEvent(user)))
  {
    if user in t.s.stakers && !t.s.pool.isPaused {
      BothClaim(t, user, env);
      BothClaim(t', user, env);
      ClaimMoves(t, user, env);
      ClaimMoves(t', user, env);
      RiseIsShared(t.s.stakers[user], t'.s.stakers[user], 0, 0);
      forall u ensures Lifetime(Step(t, env, ClaimEvent(user)), u) == Lifetime(t, u) {
        LifetimeOverClaim(t, env, user, u);
      }
      forall u ensures Lifetime(Step(t', env, ClaimEvent(user)), u) == Lifetime(t', u) {
        LifetimeOverClaim(t', env, user, u);
      }
      hide Inv, Smooth, Lifetime, Claim, Record, Weight, GetMultiplier;
      SameAfterPut(t, t', Step(t, env, ClaimEvent(user)), Step(t', env, ClaimEvent(user)), user);
    } else {
      hide SameTotals, Inv;
    }
  }

  lemma BothClaim(t: Tracked, user: Pubkey, env: Env)
    requires Inv(t) && user in t.s.stakers && !t.s.pool.isPaused && Smooth(t, env, ClaimEvent(user))
    ensures Claim(t.s, user, env).Ok? && !Claim(t.s, user, env).value.s.pool.isPaused
  {
    ClaimForm(t, user, env);
    hide Inv, Claim, PositionFits, Payable, Weight, GetMultiplier, Step, AfterClaim;
  }

  /** An extra claim that changes no tier. */
  lemma ExtraClaim(t: Tracked, t': Tracked, user: Pubkey, env: Env)
    requires SameTotals(t, t') && Inv(t) && HarmlessExtra(t, user, env)
    ensures SameTotals(Step(t, env, ClaimEvent(user)), t')
  {
    if Claim(t.s, user, env).Ok? {
      ClaimMoves(t, user, env);
      forall u ensures Lifetime(Step(t, env, ClaimEvent(user)), u) == Lifetime(t, u) {
        LifetimeOverClaim(t, env, user, u);
      }
      var d := Step(t, env, ClaimEvent(user));
      assert SamePosition(t.s.stakers[user], d.s.stakers[user]);
      assert d.s.pool.totalWeightedStake == t.s.pool.totalWeightedStake;
      hide Inv, Lifetime, Claim, Record, Weight, GetMultiplier;
      SameAfterPut(t, t', d, t', user);
    }
  }

  /** The claim finds the position at the tier it already has, and does not pause the pool. */
  predicate HarmlessExtra(t: Tracked, user: Pubkey, env: Env)
  {
    && (user in t.s.stakers ==>
          GetMultiplier(t.s.stakers[user].stakeTimestamp, env.now) == t.s.stakers[user].currentMultiplier)
    && (Claim(t.s, user, env).Ok? ==> !Claim(t.s, user, env).value.s.pool.isPaused)
  }

  /** Leaving without a forfeit takes the position out of the totals and changes nobody's total. */
  lemma UnstakeMoves(t: Tracked, user: Pubkey, env: Env)
    requires Inv(t) && user in t.s.stakers && Smooth(t, env, UnstakeEvent(user))
    ensures var s, s' := t.s, Step(t, env, UnstakeEvent(user)).s;
      var k := s.stakers[user];
      && s'.pool == s.pool.(totalWeightedStake := s'.pool.totalWeightedStake, totalStaked := s'.pool.totalStaked)
      && s'.pool.totalWeightedStake == s.pool.totalWeightedStake - Weight(k)
      && s'.pool.totalStaked == s.pool.totalStaked - k.stakedAmount
      && s'.brainVault == s.brainVault - k.stakedAmount && s'.treasury == s.treasury
      && s'.stakers == s.stakers - {user}
  {
    UnstakeForm(t, user, env);
    if Unstake(t.s, user, env).Ok? { RateOverUnstake(t, env, user); }
    hide Inv, Unstake, PositionFits, Payable, Weight, GetMultiplier, Record, ForfeitIncrement;
  }

  lemma LifetimesAfterUnstake(t: Tracked, user: Pubkey, env: Env)
    requires Inv(t) && user in t.s.stakers && Smooth(t, env, UnstakeEvent(user))
    ensures forall u :: Lifetime(Step(t, env, UnstakeEvent(user)), u) == Lifetime(t, u)
  {
    RateOverUnstake(t, env, user);
    hide Inv, Unstake, Record, Accrued;
    forall u ensures Lifetime(Step(t, env, UnstakeEvent(user)), u) == Lifetime(t, u) {
      LifetimeOverUnstake(t, env, user, u);
    }
  }

  lemma SameUnstake(t: Tracked, t': Tracked, user: Pubkey, env: Env)
    requires SameTotals(t, t') && Inv(t) && Inv(t')
    requires Smooth(t, env, UnstakeEvent(user)) && Smooth(t', env, UnstakeEvent(user))
    ensures SameTotals(Step(t, env, UnstakeEvent(user)), Step(t', env, UnstakeEvent(user)))
  {
    if user in t.s.stakers {
      UnstakeMoves(t, user, env);
      UnstakeMoves(t', user, env);
      LifetimesAfterUnstake(t, user, env);
      LifetimesAfterUnstake(t', user, env);
      RiseIsShared(t.s.stakers[user], t'.s.stakers[user], 0, 0);
      hide Inv, Smooth, Lifetime, Step, Weight;
      forall u
        ensures Lifetime(Step(t', env, UnstakeEvent(user)), u) == Lifetime(Step(t, env, UnstakeEvent(user)), u)
      {
        assert Lifetime(t', u) == Lifetime(t, u);
      }
    }
  }

  /** What a rise of the accumulator is worth depends only on the weight. */
  lemma RiseIsShared(k: Staker, k': Staker, rps: nat, later: nat)
    requires SamePosition(k, k')
    ensures Payable(k', later) - Payable(k', rps) == Payable(k, later) - Payable(k, rps)
    ensures Weight(k') == Weight(k)
  {
  }

  /** Two pools that change alike without anybody being paid. */
  lemma SameWithoutPayment(t: Tracked, t': Tracked, d: Tracked, d': Tracked)
    requires SameTotals(t, t')
    requires d.s.stakers == t.s.stakers && d'.s.stakers == t'.s.stakers
    requires d.h.paidTo == t.h.paidTo && d'.h.paidTo == t'.h.paidTo
    requires d'.s.pool == d.s.pool && d'.s.brainVault == d.s.brainVault && d'.s.treasury == d.s.treasury
    ensures SameTotals(d, d')
  {
    var rps, later := t.s.pool.rewardPerShare, d.s.pool.rewardPerShare;
    forall u | u in t.s.stakers
      ensures Payable(t'.s.stakers[u], later) - Payable(t'.s.stakers[u], rps)
           == Payable(t.s.stakers[u], later) - Payable(t.s.stakers[u], rps)
    {
      RiseIsShared(t.s.stakers[u], t'.s.stakers[u], rps, later);
    }
    hide Payable;
    forall u
      ensures Lifetime(d', u) == Lifetime(d, u)
    {
      assert Lifetime(t', u) == Lifetime(t, u);
    }
  }

  lemma SameDeposit(t: Tracked, t': Tracked, env: Env, e: Event)
    requires SameTotals(t, t') && e.DepositEvent? && Smooth(t, env, e) && Smooth(t', env, e)
    ensures SameTotals(Step(t, env, e), Step(t', env, e))
  {
    SameDepositOutcome(t.s, t'.s, env, e);
    if Execute(t.s, env, e).Ok? {
      var net := DepositRaises(t, env, e.authority, e.amount, e.funds);
      var net' := DepositRaises(t', env, e.authority, e.amount, e.funds);
      hide Step, Payable, Execute, Increment, Lifetime;
      SameWithoutPayment(t, t', Step(t, env, e), Step(t', env, e));
    }
  }

  lemma SameDepositOutcome(s: State, s': State, env: Env, e: Event)
    requires s'.pool == s.pool && s'.treasury == s.treasury && e.DepositEvent?
    requires Execute(s, env, e) != Err(BalanceOverflow) && Execute(s', env, e) != Err(BalanceOverflow)
    ensures Execute(s, env, e).Ok? == Execute(s', env, e).Ok?
  {
    hide Increment, Fee;
  }

  lemma SameStake(t: Tracked, t': Tracked, env: Env, e: Event)
    requires SameTotals(t, t') && e.StakeEvent?
    ensures SameTotals(Step(t, env, e), Step(t', env, e))
  {
    if Execute(t.s, env, e).Ok? {
      var d, d' := Step(t, env, e), Step(t', env, e);
      var k := Staker(e.amount, env.now, 0, 0, env.now, 0);
      assert Weight(k) == 0 && Payable(k, t.s.pool.rewardPerShare) == 0;
      assert d.s.stakers == t.s.stakers[e.user := k] && d'.s.stakers == t'.s.stakers[e.user := k];
      hide Step, Execute, Payable, Weight;
      forall u
        ensures Lifetime(d', u) == Lifetime(d, u)
      {
        assert Lifetime(t', u) == Lifetime(t, u);
      }
    }
  }

  lemma SameSetting(t: Tracked, t': Tracked, env: Env, e: Event)
    requires SameTotals(t, t') && Smooth(t, env, e) && Smooth(t', env, e)
    requires e.ConfigEvent? || e.PauseEvent? || e.ResumeEvent? || e.GiftEvent?
    ensures SameTotals(Step(t, env, e), Step(t', env, e))
  {
    assert t'.s.pool == t.s.pool && t'.s.brainVault == t.s.brainVault && t'.s.treasury == t.s.treasury;
    hide SameTotals;
    SameWithoutPayment(t, t', Step(t, env, e), Step(t', env, e));
  }

  lemma SameStep(t: Tracked, t': Tracked, env: Env, e: Event)
    requires SameTotals(t, t') && Inv(t) && Inv(t') && Smooth(t, env, e) && Smooth(t', env, e)
    ensures SameTotals(Step(t, env, e), Step(t', env, e))
  {
    hide *;
    match e
    case StakeEvent(_, _, _) => SameStake(t, t', env, e);
    case DepositEvent(_, _, _) => SameDeposit(t, t', env, e);
    case ClaimEvent(user) => SameClaim(t, t', user, env);
    case UnstakeEvent(user) => SameUnstake(t, t', user, env);
    case ConfigEvent(_, _, _) => SameSetting(t, t', env, e);
    case PauseEvent(_) => SameSetting(t, t', env, e);
    case ResumeEvent(_) => SameSetting(t, t', env, e);
    case GiftEvent(_, _) => SameSetting(t, t', env, e);
  }

  // ---- whole schedules ----

  /** One entry of a schedule; an extra one is left out of the leaner schedule. */
  datatype Entry = Entry(call: Call, extra: bool)

  function Full(entries: seq<Entry>): (calls: seq<Call>)
  {
    if entries == [] then [] else [entries[0].call] + Full(entries[1..])
  }

  function Lean(entries: seq<Entry>): (calls: seq<Call>)
  {
    if entries == [] then []
    else (if entries[0].extra then [] else [entries[0].call]) + Lean(entries[1..])
  }

  /** Along the full schedule from `t` and the lean one from `t'`, extra entries are harmless claims, and
      the others are stopped by no vault check, pause or overflow and forfeit nothing. */
  predicate Comfortable(t: Tracked, t': Tracked, entries: seq<Entry>)
    decreases |entries|
  {
    entries != [] ==>
      var c := entries[0].call;
      var next := Step(t, c.env, c.event);
      if entries[0].extra then
        c.event.ClaimEvent? && HarmlessExtra(t, c.event.user, c.env) && Comfortable(next, t', entries[1..])
      else
        && Smooth(t, c.env, c.event) && Smooth(t', c.env, c.event)
        && Comfortable(next, Step(t', c.env, c.event), entries[1..])
  }

  /** Any number of extra claims within a tier, under any clock, leaves the pool, the principal and every
      staker's total (paid plus payable) as they are without them. */
  lemma {:induction false} ExtraClaimsChangeNothing(t: Tracked, t': Tracked, entries: seq<Entry>)
    requires SameTotals(t, t') && Inv(t) && Inv(t') && Comfortable(t, t', entries)
    ensures SameTotals(Run(t, Full(entries)), Run(t', Lean(entries)))
    decreases |entries|
  {
    hide Step, Inv, SameTotals, Smooth, HarmlessExtra;
    if entries != [] {
      var c := entries[0].call;
      var rest := entries[1..];
      var t1 := Step(t, c.env, c.event);
      StepKeepsInv(t, c.env, c.event);
      assert Full(entries)[1..] == Full(rest);
      if entries[0].extra {
        assert Lean(entries) == Lean(rest);
        ExtraClaim(t, t', c.event.user, c.env);
        ExtraClaimsChangeNothing(t1, t', rest);
      } else {
        StepKeepsInv(t', c.env, c.event);
        SameStep(t, t', c.env, c.event);
        assert Lean(entries)[1..] == Lean(rest);
        ExtraClaimsChangeNothing(t1, Step(t', c.env, c.event), rest);
      }
    }
  }
}
