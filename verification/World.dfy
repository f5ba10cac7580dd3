/** The staking pool, governance and the exits together: any interleaving of their instructions. */
module World {
  import opened Numeric
  import opened Rewards
  import opened Staking
  import opened RewardLedger
  import opened LedgerProofs
  import opened Solvency
  import opened Exits
  import opened Governance
  import opened VoteLedger
  import opened Voting

  datatype World = World(stk: Tracked, gov: GovTracked)

  /** Votes and halts read or write both halves; every other instruction belongs to one. */
  datatype Instr =
    | StakingInstr(event: Event)
    | GovInstr(gov: GovEvent)
    | VoteInstr(voter: Pubkey, id: u64, option: u8, wallet: u64, withStake: bool)
    | HaltInstr(authority: Pubkey, listed: set<ExitKey>)

  /** What governance reads from the staking pool. */
  function CtxOf(w: World, poolKey: Pubkey, env: Env): (c: Ctx)
  {
    var p := w.stk.s.pool;
    Ctx(env.now, poolKey, p.owner, p.crank, p.isPaused, p.totalWeightedStake)
  }

  ghost function WorldStep(w: World, poolKey: Pubkey, env: Env, i: Instr): (w': World)
  {
    var ctx := CtxOf(w, poolKey, env);
    match i
    case StakingInstr(e) => w.(stk := Step(w.stk, env, e))
    case GovInstr(e) => if e.VoteEvent? || e.HaltEvent? then w else w.(gov := GovStep(w.gov, ctx, e))
    case VoteInstr(voter, id, option, wallet, withStake) =>
      if withStake && voter !in w.stk.s.stakers then w
      else
        var staked := if withStake then w.stk.s.stakers[voter].stakedAmount else 0;
        w.(gov := GovStep(w.gov, ctx, VoteEvent(voter, id, option, wallet, staked)))
    case HaltInstr(authority, listed) =>
      World(Step(w.stk, env, PauseEvent(authority)), GovStep(w.gov, ctx, HaltEvent(authority, listed)))
  }

  datatype WorldCall = WorldCall(env: Env, instr: Instr)

  ghost function WorldRun(w: World, poolKey: Pubkey, calls: seq<WorldCall>): (w': World)
    decreases |calls|
  {
    if calls == [] then w else WorldRun(WorldStep(w, poolKey, calls[0].env, calls[0].instr), poolKey, calls[1..])
  }

  /** The clock does not go back. */
  predicate Clocked(clock: i64, calls: seq<WorldCall>)
    decreases |calls|
  {
    calls != [] ==> clock <= calls[0].env.now && Clocked(calls[0].env.now, calls[1..])
  }

  function LastClock(clock: i64, calls: seq<WorldCall>): (c: i64)
    decreases |calls|
  {
    if calls == [] then clock else LastClock(calls[0].env.now, calls[1..])
  }

  ghost predicate WorldInitial(w: World)
  {
    Initial(w.stk) && GovInitial(w.gov) && w.gov.g.exits == map[]
  }

  predicate SnapshotsBounded(g: Gov)
  {
    forall id :: id in g.proposals ==> g.proposals[id].quorumSnapshot <= 3 * U64_MAX
  }

  predicate OwnExits(exits: ExitMap, poolKey: Pubkey)
  {
    forall k :: k in exits ==> exits[k].pool == poolKey
  }

  /** Both halves keep their invariants, snapshots are weights a pool can have, and exits are of this pool. */
  ghost predicate WorldInv(w: World, poolKey: Pubkey)
  {
    && Inv(w.stk)
    && GovInv(w.gov)
    && SnapshotsBounded(w.gov.g)
    && OwnExits(w.gov.g.exits, poolKey)
  }

  // ---- kept by every instruction ----

  /** The pool's weight is at most three times what is staked, which is a 64-bit number. */
  lemma PoolWeightBounded(t: Tracked)
    requires Inv(t)
    ensures t.s.pool.totalWeightedStake <= 3 * U64_MAX
  {
    WeightAtMostTriple(t.s.stakers);
  }

  lemma GovStepKeepsSnapshots(t: GovTracked, ctx: Ctx, e: GovEvent)
    requires SnapshotsBounded(t.g) && ctx.totalWeightedStake <= 3 * U64_MAX
    ensures SnapshotsBounded(GovStep(t, ctx, e).g)
  {
    if TouchesProposals(e) {
      hide RecordGov, SaturatingSub, Winner, QuorumMet;
      match e
      case CreateEvent(_, _) =>
      case VoteEvent(_, _, _, _, _) =>
      case CloseEvent(_) =>
      case GovExitEvent(_, _, _, _, _) =>
    } else {
      ProposalsUntouched(t, ctx, e);
    }
  }

  lemma GovStepKeepsOwnExits(t: GovTracked, ctx: Ctx, e: GovEvent)
    requires OwnExits(t.g.exits, ctx.poolKey)
    ensures OwnExits(GovStep(t, ctx, e).g.exits, ctx.poolKey)
  {
    hide RecordGov, SaturatingSub, Decided;
    match e
    case InitiateEvent(_, _, _, _) =>
    case GovExitEvent(_, _, _, _, _) =>
    case _ =>
  }

  lemma WorldStepKeepsInv(w: World, poolKey: Pubkey, env: Env, i: Instr)
    requires WorldInv(w, poolKey)
    ensures WorldInv(WorldStep(w, poolKey, env, i), poolKey)
  {
    hide Inv, GovInv, Step, GovStep, SnapshotsBounded, OwnExits;
    var ctx := CtxOf(w, poolKey, env);
    PoolWeightBounded(w.stk);
    match i
    case StakingInstr(e) => StepKeepsInv(w.stk, env, e);
    case GovInstr(e) => GovHalfKept(w, ctx, e);
    case VoteInstr(voter, id, option, wallet, withStake) =>
      if !(withStake && voter !in w.stk.s.stakers) {
        var staked := if withStake then w.stk.s.stakers[voter].stakedAmount else 0;
        GovHalfKept(w, ctx, VoteEvent(voter, id, option, wallet, staked));
      }
    case HaltInstr(authority, listed) =>
      StepKeepsInv(w.stk, env, PauseEvent(authority));
      GovHalfKept(w, ctx, HaltEvent(authority, listed));
  }

  lemma GovHalfKept(w: World, ctx: Ctx, e: GovEvent)
    requires GovInv(w.gov) && SnapshotsBounded(w.gov.g) && OwnExits(w.gov.g.exits, ctx.poolKey)
    requires ctx.totalWeightedStake <= 3 * U64_MAX
    ensures var t' := GovStep(w.gov, ctx, e); GovInv(t') && SnapshotsBounded(t'.g) && OwnExits(t'.g.exits, ctx.poolKey)
  {
    hide *;
    GovStepKeepsInv(w.gov, ctx, e);
    GovStepKeepsSnapshots(w.gov, ctx, e);
    GovStepKeepsOwnExits(w.gov, ctx, e);
  }

  lemma {:induction false} WorldRunKeepsInv(w: World, poolKey: Pubkey, calls: seq<WorldCall>)
    requires WorldInv(w, poolKey)
    ensures WorldInv(WorldRun(w, poolKey, calls), poolKey)
    decreases |calls|
  {
    hide WorldInv, WorldStep;
    if calls != [] {
      WorldStepKeepsInv(w, poolKey, calls[0].env, calls[0].instr);
      WorldRunKeepsInv(WorldStep(w, poolKey, calls[0].env, calls[0].instr), poolKey, calls[1..]);
    }
  }

  lemma InitialWorldInv(w: World, poolKey: Pubkey)
    requires WorldInitial(w)
    ensures WorldInv(w, poolKey)
  {
    InitialInv(w.stk);
    hide Inv;
  }

  // ---- kept while the clock does not go back ----

  lemma WorldStepKeepsTimely(w: World, poolKey: Pubkey, clock: i64, env: Env, i: Instr)
    requires Inv(w.stk) && Timely(w.stk, clock, 0) && clock <= env.now
    ensures Timely(WorldStep(w, poolKey, env, i).stk, env.now, 0)
  {
    hide Inv, Timely, Step, GovStep;
    AllOnTimeLater(w.stk, clock, env.now, 0);
    match i
    case StakingInstr(e) => StepKeepsTimely(w.stk, clock, env, e, 0);
    case GovInstr(_) =>
    case VoteInstr(_, _, _, _, _) =>
    case HaltInstr(authority, _) => StepKeepsTimely(w.stk, clock, env, PauseEvent(authority), 0);
  }

  lemma {:induction false} WorldRunKeepsTimely(w: World, poolKey: Pubkey, clock: i64, calls: seq<WorldCall>)
    requires WorldInv(w, poolKey) && Timely(w.stk, clock, 0) && Clocked(clock, calls)
    ensures Timely(WorldRun(w, poolKey, calls).stk, LastClock(clock, calls), 0)
    decreases |calls|
  {
    hide Inv, GovInv, Timely, WorldStep, SnapshotsBounded, OwnExits;
    if calls != [] {
      WorldStepKeepsInv(w, poolKey, calls[0].env, calls[0].instr);
      WorldStepKeepsTimely(w, poolKey, clock, calls[0].env, calls[0].instr);
      WorldRunKeepsTimely(WorldStep(w, poolKey, calls[0].env, calls[0].instr), poolKey, calls[0].env.now, calls[1..]);
    }
  }

  // ---- the quorum is never waived ----

  lemma SmallSnapshotFits(snapshot: u128, bps: u16)
    requires snapshot <= 3 * U64_MAX
    ensures RequiredWeight(snapshot, bps) == snapshot * bps / 10_000
  {
    ProductMonotone(snapshot, 3 * U64_MAX, bps, 0xFFFF);
  }

  /** Asking for no quorum is the same as asking for a zero share. */
  lemma SharePositive(snapshot: u128, bps: u16)
    ensures 0 <= snapshot * bps / 10_000 && (bps == 0 ==> snapshot * bps / 10_000 == 0)
  {
  }

  /** In every reachable state the quorum asks for the exact share of the weight the pool had when the
      proposal was created: the product never leaves 128 bits, so it is never waived. */
  lemma QuorumNeverWaived(w: World, poolKey: Pubkey, calls: seq<WorldCall>, id: u64, bps: u16)
    requires WorldInitial(w)
    requires id in WorldRun(w, poolKey, calls).gov.g.proposals
    ensures var p := WorldRun(w, poolKey, calls).gov.g.proposals[id];
            && p.quorumSnapshot <= 3 * U64_MAX
            && (QuorumMet(p, bps) <==> p.quorumSnapshot * bps / 10_000 <= p.totalVoteWeight)
  {
    InitialWorldInv(w, poolKey);
    WorldRunKeepsInv(w, poolKey, calls);
    hide WorldRun, RequiredWeight, Inv, GovInv;
    var p := WorldRun(w, poolKey, calls).gov.g.proposals[id];
    SmallSnapshotFits(p.quorumSnapshot, bps);
    SharePositive(p.quorumSnapshot, bps);
  }

  // ---- after an emergency halt ----

  predicate NobodyActive(exits: ExitMap)
  {
    forall k :: k in exits ==> exits[k].status != ACTIVE
  }

  /** What stays as it was at `w0`, up to closed exits and returned stakes. */
  predicate Frozen(w0: World, w: World)
  {
    && w.stk.s.pool.isPaused && w.stk.s.pool.owner == w0.stk.s.pool.owner
    && w.stk.s.pool.rewardPerShare == w0.stk.s.pool.rewardPerShare
    && w.stk.s.pool.totalRewardsDistributed == w0.stk.s.pool.totalRewardsDistributed
    && w.stk.s.pool.totalStaked <= w0.stk.s.pool.totalStaked
    && w.stk.s.stakers.Keys <= w0.stk.s.stakers.Keys
    && NobodyActive(w.gov.g.exits)
    && (forall k :: k in w.gov.g.exits ==> k in w0.gov.g.exits && w.gov.g.exits[k] == w0.gov.g.exits[k])
    && w.gov.g.proposals == w0.gov.g.proposals
    && w.gov.h == w0.gov.h
  }

  predicate Resumes(i: Instr, owner: Pubkey)
  {
    i.StakingInstr? && i.event == ResumeEvent(owner)
  }

  /** Nobody resumes the pool. */
  predicate StaysHalted(calls: seq<WorldCall>, owner: Pubkey)
  {
    forall n :: 0 <= n < |calls| ==> !Resumes(calls[n].instr, owner)
  }

  /** On a paused pool only unstakes move the stake, and only down; under a clock that does not go back
      they forfeit nothing, so the accumulator stands still. */
  lemma PausedStakingStep(t: Tracked, env: Env, e: Event)
    requires Inv(t) && Timely(t, env.now, 0) && t.s.pool.isPaused && e != ResumeEvent(t.s.pool.owner)
    ensures OnlyShrinks(t.s, Step(t, env, e).s)
  {
    if e.UnstakeEvent? {
      if Unstake(t.s, e.user, env).Ok? { PausedUnstake(t, env, e.user); }
    } else {
      hide Record, Inv, Timely, Unstake;
    }
  }

  predicate OnlyShrinks(s: State, s': State)
  {
    && s'.pool.isPaused && s'.pool.owner == s.pool.owner
    && s'.pool.rewardPerShare == s.pool.rewardPerShare
    && s'.pool.totalRewardsDistributed == s.pool.totalRewardsDistributed
    && s'.pool.totalStaked <= s.pool.totalStaked && s'.stakers.Keys <= s.stakers.Keys
  }

  lemma PausedUnstake(t: Tracked, env: Env, user: Pubkey)
    requires Inv(t) && Timely(t, env.now, 0) && Unstake(t.s, user, env).Ok? && t.s.pool.isPaused
    ensures OnlyShrinks(t.s, Unstake(t.s, user, env).value.s)
  {
    hide Inv, SettleFits, Weight, Accrued, GetMultiplier, Settle, WeightAfter, CloseStake, ReleaseRewards;
    var m := GetMultiplier(t.s.stakers[user].stakeTimestamp, env.now);
    SettledTimely(t, user, env.now, 0);
    var s1 := Settled(t.s, user, env.now);
    var k1 := s1.stakers[user];
    var rewards := if m > 0 then Payable(k1, t.s.pool.rewardPerShare) else k1.pendingRewards;
    ReleaseShrinks(s1, m, rewards, env.rentMin);
    CloseShrinks(ReleaseRewards(s1, m, rewards, env.rentMin).value, user, if m > 0 then rewards else 0);
  }

  lemma ReleaseShrinks(s: State, m: Multiplier, rewards: u64, rentMin: u64)
    requires s.pool.isPaused && ReleaseRewards(s, m, rewards, rentMin).Ok? && (m == 0 ==> rewards == 0)
    ensures var s' := ReleaseRewards(s, m, rewards, rentMin).value; OnlyShrinks(s, s') && s'.stakers == s.stakers
  {
  }

  lemma CloseShrinks(s: State, user: Pubkey, lamports: u64)
    requires s.pool.isPaused && user in s.stakers && CloseStake(s, user, lamports).Ok?
    ensures OnlyShrinks(s, CloseStake(s, user, lamports).value.s)
  {
  }

  /** Governance instructions that read a paused pool open nothing and change no proposal. */
  lemma PausedGovStep(t: GovTracked, ctx: Ctx, e: GovEvent)
    requires ctx.isPaused && NobodyActive(t.g.exits)
    ensures var g' := GovStep(t, ctx, e).g;
            && g'.proposals == t.g.proposals && GovStep(t, ctx, e).h == t.h
            && NobodyActive(g'.exits)
            && forall k :: k in g'.exits ==> k in t.g.exits && g'.exits[k] == t.g.exits[k]
  {
    hide SaturatingSub, Decided;
    if TouchesProposals(e) {
      match e
      case CreateEvent(_, _) =>
      case VoteEvent(_, _, _, _, _) =>
      case CloseEvent(_) =>
      case GovExitEvent(_, _, _, _, _) =>
    } else {
      hide CreateProposal, CastVote, CloseProposal, GovernanceInitiateExit;
    }
  }

  lemma FrozenStep(w0: World, w: World, poolKey: Pubkey, clock: i64, env: Env, i: Instr)
    requires Frozen(w0, w) && WorldInv(w, poolKey) && Timely(w.stk, clock, 0) && clock <= env.now
    requires !Resumes(i, w0.stk.s.pool.owner)
    ensures Frozen(w0, WorldStep(w, poolKey, env, i))
  {
    hide Inv, Timely, GovInv, Step, GovStep, NobodyActive;
    var ctx := CtxOf(w, poolKey, env);
    AllOnTimeLater(w.stk, clock, env.now, 0);
    match i
    case StakingInstr(e) => PausedStakingStep(w.stk, env, e);
    case GovInstr(e) => PausedGovStep(w.gov, ctx, e);
    case VoteInstr(voter, id, option, wallet, withStake) =>
      if !(withStake && voter !in w.stk.s.stakers) {
        var staked := if withStake then w.stk.s.stakers[voter].stakedAmount else 0;
        PausedGovStep(w.gov, ctx, VoteEvent(voter, id, option, wallet, staked));
      }
    case HaltInstr(authority, listed) =>
      PausedStakingStep(w.stk, env, PauseEvent(authority));
      PausedGovStep(w.gov, ctx, HaltEvent(authority, listed));
  }

  lemma {:induction false} FrozenRun(w0: World, w: World, poolKey: Pubkey, clock: i64, calls: seq<WorldCall>)
    requires Frozen(w0, w) && WorldInv(w, poolKey) && Timely(w.stk, clock, 0) && Clocked(clock, calls)
    requires StaysHalted(calls, w0.stk.s.pool.owner)
    ensures Frozen(w0, WorldRun(w, poolKey, calls))
    decreases |calls|
  {
    hide Frozen, Inv, GovInv, Timely, SnapshotsBounded, OwnExits, WorldStep, Resumes;
    if calls != [] {
      FrozenStep(w0, w, poolKey, clock, calls[0].env, calls[0].instr);
      WorldStepKeepsInv(w, poolKey, calls[0].env, calls[0].instr);
      WorldStepKeepsTimely(w, poolKey, clock, calls[0].env, calls[0].instr);
      FrozenRun(w0, WorldStep(w, poolKey, calls[0].env, calls[0].instr), poolKey, calls[0].env.now, calls[1..]);
    }
  }

  /** The owner's halt that lists every Active exit leaves the pool paused and no exit Active, and
      otherwise only marks those exits. */
  lemma HaltStops(w: World, poolKey: Pubkey, env: Env, listed: set<ExitKey>)
    requires WorldInv(w, poolKey)
    requires forall k :: k in w.gov.g.exits && w.gov.g.exits[k].status == ACTIVE ==> k in listed
    ensures var w1 := WorldStep(w, poolKey, env, HaltInstr(w.stk.s.pool.owner, listed));
            && Frozen(w1, w1)
            && w1.stk.s == w.stk.s.(pool := w.stk.s.pool.(isPaused := true))
            && w1.gov.g.exits.Keys == w.gov.g.exits.Keys
            && w1.gov.g.proposals == w.gov.g.proposals
            && forall k :: k in w.gov.g.exits ==>
                 w1.gov.g.exits[k] == (if w.gov.g.exits[k].status == ACTIVE
                                       then Finished(w.gov.g.exits[k], TERMINATED, env.now) else w.gov.g.exits[k])
  {
    hide Inv, GovInv, SnapshotsBounded;
    HaltStopsExactly(w.gov.g.exits, poolKey, listed, env.now);
  }

  /** From any reachable state: after a halt that lists every Active exit, and until the owner resumes,
      every interleaving of every instruction leaves the pool paused, no exit Active, each remaining exit
      with the SOL it had claimed, the accumulator where it was, and the stake no larger. */
  lemma HaltFreezes(w: World, poolKey: Pubkey, clock: i64, before: seq<WorldCall>, env: Env, listed: set<ExitKey>,
                    after: seq<WorldCall>)
    requires WorldInitial(w) && Clocked(clock, before) && LastClock(clock, before) <= env.now && Clocked(env.now, after)
    requires var w1 := WorldRun(w, poolKey, before);
             && (forall k :: k in w1.gov.g.exits && w1.gov.g.exits[k].status == ACTIVE ==> k in listed)
             && StaysHalted(after, w1.stk.s.pool.owner)
    ensures var w1 := WorldRun(w, poolKey, before);
            var w2 := WorldRun(WorldStep(w1, poolKey, env, HaltInstr(w1.stk.s.pool.owner, listed)), poolKey, after);
            && w2.stk.s.pool.isPaused
            && w2.stk.s.pool.rewardPerShare == w1.stk.s.pool.rewardPerShare
            && w2.stk.s.pool.totalStaked <= w1.stk.s.pool.totalStaked
            && w2.gov.g.proposals == w1.gov.g.proposals
            && forall k :: k in w2.gov.g.exits ==>
                 && w2.gov.g.exits[k].status != ACTIVE
                 && k in w1.gov.g.exits
                 && w2.gov.g.exits[k].totalSolClaimed == w1.gov.g.exits[k].totalSolClaimed
  {
    hide Inv, GovInv, Timely, SnapshotsBounded, OwnExits, WorldStep, WorldRun, WorldInitial;
    InitialWorldInv(w, poolKey);
    StartsTimely(w, clock);
    WorldRunKeepsInv(w, poolKey, before);
    WorldRunKeepsTimely(w, poolKey, clock, before);
    var w1 := WorldRun(w, poolKey, before);
    var halt := HaltInstr(w1.stk.s.pool.owner, listed);
    HaltStops(w1, poolKey, env, listed);
    WorldStepKeepsInv(w1, poolKey, env, halt);
    WorldStepKeepsTimely(w1, poolKey, LastClock(clock, before), env, halt);
    var halted := WorldStep(w1, poolKey, env, halt);
    FrozenRun(halted, halted, poolKey, env.now, after);
  }

  lemma StartsTimely(w: World, clock: i64)
    requires WorldInitial(w)
    ensures Timely(w.stk, clock, 0)
  {
    InitialTimely(w.stk, clock, 0);
  }

  /** The halt that does not list an Active exit leaves it Active: the owner opens an exit and halts with an
      empty list. */
  lemma UnlistedExitSurvives(w: World, poolKey: Pubkey, env: Env, key: ExitKey, position: Pubkey, bump: u8)
    requires WorldInitial(w) && !w.stk.s.pool.isPaused
    ensures var owner := w.stk.s.pool.owner;
            var w' := WorldRun(w, poolKey, [WorldCall(env, GovInstr(InitiateEvent(owner, key, position, bump))),
                                            WorldCall(env, HaltInstr(owner, {}))]);
            w'.stk.s.pool.isPaused && key in w'.gov.g.exits && w'.gov.g.exits[key].status == ACTIVE
  {
    var owner := w.stk.s.pool.owner;
    var open := WorldCall(env, GovInstr(InitiateEvent(owner, key, position, bump)));
    var halt := WorldCall(env, HaltInstr(owner, {}));
    assert [open, halt][1..] == [halt] && [halt][1..] == [];
    var w1 := WorldStep(w, poolKey, env, open.instr);
    assert w1.gov.g.exits == map[key := Opened(CtxOf(w, poolKey, env), owner, key, position, 0, bump)];
    assert WorldRun(w1, poolKey, [halt]) == WorldRun(WorldStep(w1, poolKey, env, halt.instr), poolKey, []);
  }

  /** A halt asked for by anybody but the owner does nothing. */
  lemma HaltByOthers(w: World, poolKey: Pubkey, env: Env, authority: Pubkey, listed: set<ExitKey>)
    requires authority != w.stk.s.pool.owner
    ensures WorldStep(w, poolKey, env, HaltInstr(authority, listed)) == w
  {
  }

  /** A vote counts the stake the voter has at that moment, if it brings the staker account, and none if not;
      with an account that does not exist it is refused. */
  lemma VoteCountsStake(w: World, poolKey: Pubkey, env: Env, voter: Pubkey, id: u64, option: u8, wallet: u64,
                        withStake: bool)
    ensures var w' := WorldStep(w, poolKey, env, VoteInstr(voter, id, option, wallet, withStake));
            && w'.stk == w.stk
            && (withStake && voter !in w.stk.s.stakers ==> w' == w)
            && (w' != w ==>
                  var stake := if withStake then w.stk.s.stakers[voter].stakedAmount else 0;
                  && w'.gov.h.ballots == w.gov.h.ballots + [Ballot(id, voter, option, wallet, stake, env.now)]
                  && id in w.gov.g.proposals && id in w'.gov.g.proposals
                  && w'.gov.g.proposals[id].totalVoteWeight
                     == w.gov.g.proposals[id].totalVoteWeight + wallet + stake + stake)
  {
  }
}
