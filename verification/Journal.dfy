/** A journal of what users and depositors asked for, written from their calls alone, and how the accounts
    agree with it in every reachable state: when each position was opened and with how much, what was
    deposited and what fee was due on it, and the BRAIN that reached the vault. */
module Journal {
  import opened Numeric
  import opened Rewards
  import opened Staking
  import opened StakingForms
  import opened RewardLedger
  import opened LedgerProofs
  import opened ClosedForms
  import opened StepwiseShare

  datatype Journal = Journal(
    openedAt: map<Pubkey, i64>,    // when the open position of each user was staked
    principal: map<Pubkey, u64>,   // the amount it was staked with
    gross: nat,                    // lamports deposited, fees included
    due: nat,                      // fees due on them, in 1/10_000 lamports
    deposits: nat,                 // how many deposits
    gifts: nat,                    // BRAIN sent to the vault without a stake
    treasury: nat,                 // the treasury, the net deposits and the vault's BRAIN at the beginning
    net: nat,
    brain: nat)

  /** The journal opened on accounts without positions. */
  function Opened(s: State): (j: Journal)
  {
    Journal(map[], map[], 0, 0, 0, 0, s.treasury, s.pool.totalRewardsDistributed, s.brainVault)
  }

  /** One entry for a call that succeeds, none for one that fails. */
  function Note(j: Journal, s: State, env: Env, e: Event): (j': Journal)
  {
    if Execute(s, env, e).Err? then j
    else
      match e
      case StakeEvent(user, amount, _) =>
        j.(openedAt := j.openedAt[user := env.now], principal := j.principal[user := amount])
      case UnstakeEvent(user) => j.(openedAt := j.openedAt - {user}, principal := j.principal - {user})
      case DepositEvent(_, amount, _) =>
        j.(gross := j.gross + amount, due := j.due + amount * s.pool.protocolFeeBps, deposits := j.deposits + 1)
      case GiftEvent(_, brain) => j.(gifts := j.gifts + brain)
      case _ => j
  }

  function Kept(j: Journal, t: Tracked, calls: seq<Call>): (j': Journal)
    decreases |calls|
  {
    if calls == [] then j
    else
      var c := calls[0];
      Kept(Note(j, t.s, c.env, c.event), Step(t, c.env, c.event), calls[1..])
  }

  predicate Positions(j: Journal, s: State)
  {
    && j.openedAt.Keys == s.stakers.Keys == j.principal.Keys
    && (forall u :: u in s.stakers ==>
          s.stakers[u].stakeTimestamp == j.openedAt[u] && s.stakers[u].stakedAmount == j.principal[u])
  }

  /** All that was deposited reached the treasury or the net deposits; the treasury got the fees due, each
      rounded down; and the vault holds the principals besides what it was given. */
  predicate Amounts(j: Journal, s: State)
  {
    && (s.treasury - j.treasury) + (s.pool.totalRewardsDistributed - j.net) == j.gross
    && 10_000 * (s.treasury - j.treasury) <= j.due <= 10_000 * (s.treasury - j.treasury) + 9_999 * j.deposits
    && s.brainVault == j.brain + j.gifts + s.pool.totalStaked
    && s.pool.protocolFeeBps <= 500 && 20 * (s.treasury - j.treasury) <= j.gross
  }

  predicate Agrees(j: Journal, s: State)
  {
    Positions(j, s) && Amounts(j, s)
  }

  // ---- every call keeps the agreement ----

  lemma PositionsKept(j: Journal, t: Tracked, c: Call)
    requires Positions(j, t.s) && Inv(t)
    ensures Positions(Note(j, t.s, c.env, c.event), Step(t, c.env, c.event).s)
  {
    hide Inv, Claim, Unstake, Stake, DepositRewards, Record, PositionFits, Payable, Weight, Accrued, GetMultiplier,
         ForfeitIncrement;
    match c.event
    case StakeEvent(user, amount, wallet) => StakeForm(t.s, user, amount, wallet, c.env);
    case DepositEvent(authority, amount, funds) =>
      if DepositRewards(t.s, authority, amount, funds).Ok? { DepositForm(t.s, authority, amount, funds); }
    case ClaimEvent(user) =>
      ClaimClosed(t.s, user, c.env);
      if Claim(t.s, user, c.env).Ok? { ClaimForm(t, user, c.env); }
    case UnstakeEvent(user) =>
      ClaimClosed(t.s, user, c.env);
      if Unstake(t.s, user, c.env).Ok? { UnstakeForm(t, user, c.env); }
    case _ =>
  }

  lemma AmountsKept(j: Journal, t: Tracked, c: Call)
    requires Amounts(j, t.s) && Inv(t)
    ensures Amounts(Note(j, t.s, c.env, c.event), Step(t, c.env, c.event).s)
  {
    hide Inv, Claim, Unstake, Stake, DepositRewards, Record, ClaimedAs, UnstakedAs;
    match c.event
    case StakeEvent(user, amount, wallet) => StakeForm(t.s, user, amount, wallet, c.env);
    case DepositEvent(authority, amount, funds) =>
      if DepositRewards(t.s, authority, amount, funds).Ok? { DepositForm(t.s, authority, amount, funds); }
    case ClaimEvent(user) => ClaimAmounts(t, user, c.env);
    case UnstakeEvent(user) => UnstakeAmounts(t, user, c.env);
    case _ =>
  }

  /** What claims and unstakes leave alone: the treasury, the recorded deposits, the fee, and the BRAIN in the
      vault beyond the principals. */
  predicate SameAmounts(s: State, s': State)
  {
    && s'.treasury == s.treasury && s'.pool.totalRewardsDistributed == s.pool.totalRewardsDistributed
    && s'.pool.protocolFeeBps == s.pool.protocolFeeBps
    && s'.brainVault - s'.pool.totalStaked == s.brainVault - s.pool.totalStaked
  }

  lemma ClaimAmounts(t: Tracked, user: Pubkey, env: Env)
    requires Inv(t)
    ensures SameAmounts(t.s, Step(t, env, ClaimEvent(user)).s)
  {
    ClaimClosed(t.s, user, env);
    if Claim(t.s, user, env).Ok? { ClaimForm(t, user, env); }
    hide Inv, Claim, Record, PositionFits, AfterClaim, Payable, Weight, GetMultiplier;
  }

  lemma UnstakeAmounts(t: Tracked, user: Pubkey, env: Env)
    requires Inv(t)
    ensures SameAmounts(t.s, Step(t, env, UnstakeEvent(user)).s)
  {
    ClaimClosed(t.s, user, env);
    if Unstake(t.s, user, env).Ok? { UnstakeForm(t, user, env); }
    hide Inv, Unstake, Record, PositionFits, Payable, Weight, GetMultiplier, ForfeitIncrement;
  }

  lemma NoteAgrees(j: Journal, t: Tracked, c: Call)
    requires Agrees(j, t.s) && Inv(t)
    ensures Agrees(Note(j, t.s, c.env, c.event), Step(t, c.env, c.event).s)
  {
    PositionsKept(j, t, c);
    AmountsKept(j, t, c);
    hide Inv, Step, Note, Positions, Amounts;
  }

  lemma {:induction false} RunAgrees(j: Journal, t: Tracked, calls: seq<Call>)
    requires Agrees(j, t.s) && Inv(t)
    ensures Agrees(Kept(j, t, calls), Run(t, calls).s)
    decreases |calls|
  {
    hide Step, Inv, Note, Agrees;
    if calls != [] {
      var c := calls[0];
      NoteAgrees(j, t, c);
      StepKeepsInv(t, c.env, c.event);
      RunAgrees(Note(j, t.s, c.env, c.event), Step(t, c.env, c.event), calls[1..]);
    }
  }

  /** In every reachable state, under any clock, the accounts agree with the journal. */
  lemma AccountsAgree(t: Tracked, calls: seq<Call>)
    requires Initial(t) && t.s.pool.protocolFeeBps <= 500
    ensures Agrees(Kept(Opened(t.s), t, calls), Run(t, calls).s)
  {
    InitialInv(t);
    hide Inv, Kept, Run;
    RunAgrees(Opened(t.s), t, calls);
  }

  // ---- what a staker can rely on ----

  /** One call leaves the amount and the date of a position that stays open as they were. */
  lemma CallKeepsDate(t: Tracked, c: Call, user: Pubkey)
    requires Inv(t) && user in t.s.stakers && user in Step(t, c.env, c.event).s.stakers
    ensures Step(t, c.env, c.event).s.stakers[user].stakeTimestamp == t.s.stakers[user].stakeTimestamp
    ensures Step(t, c.env, c.event).s.stakers[user].stakedAmount == t.s.stakers[user].stakedAmount
  {
    var j := Opened(t.s).(
      openedAt := map u | u in t.s.stakers :: t.s.stakers[u].stakeTimestamp,
      principal := map u | u in t.s.stakers :: t.s.stakers[u].stakedAmount);
    PositionsKept(j, t, c);
    StakersOnly(t, c);
    hide Inv, Step;
  }

  /** Only a user without a position can stake, so no call re-dates an open one. */
  lemma StakersOnly(t: Tracked, c: Call)
    ensures c.event.StakeEvent? && c.event.user in t.s.stakers ==> Execute(t.s, c.env, c.event).Err?
  {
  }

  lemma {:induction false} RunKeepsDate(t: Tracked, calls: seq<Call>, user: Pubkey)
    requires Inv(t) && StaysOpen(t, calls, user)
    ensures user in Run(t, calls).s.stakers
    ensures Run(t, calls).s.stakers[user].stakeTimestamp == t.s.stakers[user].stakeTimestamp
    ensures Run(t, calls).s.stakers[user].stakedAmount == t.s.stakers[user].stakedAmount
    decreases |calls|
  {
    hide Step, Inv;
    if calls != [] {
      var t' := Step(t, calls[0].env, calls[0].event);
      assert StaysOpen(t', calls[1..], user);
      CallKeepsDate(t, calls[0], user);
      StepKeepsInv(t, calls[0].env, calls[0].event);
      RunKeepsDate(t', calls[1..], user);
    }
  }

  /** Whatever happens in between and whatever the clock does: a claim less than seven days after the user's own
      stake pays nothing and leaves tier 0, and a claim that succeeds leaves tier 1, 2 or 3 exactly when 7, 30
      or 90 days have passed since that stake. Unstaking returns what was staked. */
  lemma TiersFollowTheStake(t: Tracked, env: Env, user: Pubkey, amount: u64, wallet: u64, calls: seq<Call>, later: Env)
    requires Inv(t) && Stake(t.s, user, amount, wallet, env).Ok?
    requires StaysOpen(Step(t, env, StakeEvent(user, amount, wallet)), calls, user)
    ensures var r := Run(Step(t, env, StakeEvent(user, amount, wallet)), calls);
      var c, u := Claim(r.s, user, later), Unstake(r.s, user, later);
      && user in r.s.stakers && r.s.stakers[user].stakeTimestamp == env.now
      && (c.Ok? ==>
            var k := c.value.s.stakers[user];
            && (later.now - env.now < 604_800 <==> k.currentMultiplier == 0)
            && (604_800 <= later.now - env.now < 2_592_000 <==> k.currentMultiplier == 1)
            && (2_592_000 <= later.now - env.now < 7_776_000 <==> k.currentMultiplier == 2)
            && (7_776_000 <= later.now - env.now <==> k.currentMultiplier == 3)
            && (later.now - env.now < 604_800 ==> c.value.pay.lamports == 0))
      && (u.Ok? ==> u.value.pay.brain == amount && (later.now - env.now < 604_800 ==> u.value.pay.lamports == 0))
  {
    var t1 := Step(t, env, StakeEvent(user, amount, wallet));
    var r := Run(t1, calls);
    StepKeepsInv(t, env, StakeEvent(user, amount, wallet));
    StakeForm(t.s, user, amount, wallet, env);
    RunKeepsDate(t1, calls, user);
    RunKeepsInv(t1, calls);
    TierMonotone(env.now, later.now, later.now);
    hide Inv, Run, Stake, Claim, Unstake, GetMultiplier, StaysOpen;
    if Claim(r.s, user, later).Ok? { ClaimPaysByTier(r, user, later); }
    if Unstake(r.s, user, later).Ok? { UnstakePaysByTier(r, user, later); }
  }

  lemma ClaimPaysByTier(t: Tracked, user: Pubkey, env: Env)
    requires Inv(t) && user in t.s.stakers && Claim(t.s, user, env).Ok?
    ensures var d, m := Claim(t.s, user, env).value, GetMultiplier(t.s.stakers[user].stakeTimestamp, env.now);
      && user in d.s.stakers && d.s.stakers[user].currentMultiplier == m && (m == 0 ==> d.pay.lamports == 0)
  {
    ClaimClosed(t.s, user, env);
    ClaimForm(t, user, env);
    hide Inv, Claim, PositionFits, Payable, Weight, Accrued, GetMultiplier;
  }

  lemma UnstakePaysByTier(t: Tracked, user: Pubkey, env: Env)
    requires Inv(t) && user in t.s.stakers && Unstake(t.s, user, env).Ok?
    ensures var d, k := Unstake(t.s, user, env).value, t.s.stakers[user];
      d.pay.brain == k.stakedAmount && (GetMultiplier(k.stakeTimestamp, env.now) == 0 ==> d.pay.lamports == 0)
  {
    UnstakeForm(t, user, env);
    hide Inv, Unstake, PositionFits, Payable, Weight, GetMultiplier, ForfeitIncrement;
  }
}
