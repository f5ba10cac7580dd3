/** The governance and exit instructions in the form the program has: handlers that check, then write
    the accounts they were given. */
module GovernanceProgram {
  import opened Numeric
  import opened Exits
  import opened Governance
  import opened VoteLedger
  import opened Voting

  /** The tally loop. Its flag is raised exactly when the highest positive count is shared; otherwise the
      index it ends with is the winner, which is option 0 when nobody has any weight. */
  method TallyVotes(counts: seq<u64>) returns (maxIndex: nat, isTie: bool)
    requires counts != []
    ensures isTie <==> SharedLead(counts)
    ensures !isTie ==> Winner(counts) == Some(maxIndex)
  {
    var maxWeight: u64 := 0;
    maxIndex, isTie := 0, false;
    for i := 0 to |counts|
      invariant maxIndex < |counts|
      invariant forall k :: 0 <= k < i ==> counts[k] <= maxWeight
      invariant maxWeight == 0 ==> maxIndex == 0 && !isTie
      invariant maxWeight > 0 ==> maxIndex < i && counts[maxIndex] == maxWeight
      invariant isTie <==> 0 < maxWeight && exists k :: 0 <= k < i && k != maxIndex && counts[k] == maxWeight
    {
      if counts[i] > maxWeight {
        maxWeight := counts[i];
        maxIndex := i;
        isTie := false;
      } else if counts[i] == maxWeight && counts[i] > 0 {
        isTie := true;
      }
    }
    LoopVerdict(counts, maxIndex, isTie, maxWeight);
  }

  lemma LoopVerdict(counts: seq<u64>, maxIndex: nat, isTie: bool, maxWeight: u64)
    requires maxIndex < |counts| && forall k :: 0 <= k < |counts| ==> counts[k] <= maxWeight
    requires maxWeight == 0 ==> maxIndex == 0 && !isTie
    requires maxWeight > 0 ==> counts[maxIndex] == maxWeight
    requires isTie <==> 0 < maxWeight && exists k :: 0 <= k < |counts| && k != maxIndex && counts[k] == maxWeight
    ensures isTie <==> SharedLead(counts)
    ensures !isTie ==> Winner(counts) == Some(maxIndex)
  {
    NoWinnerMeansTie(counts);
    if isTie {
      var k :| 0 <= k < |counts| && k != maxIndex && counts[k] == maxWeight;
      var lo, hi := if k < maxIndex then k else maxIndex, if k < maxIndex then maxIndex else k;
      assert 0 < counts[lo] == counts[hi];
    } else if maxWeight > 0 {
      assert Leads(counts, maxIndex);
    }
  }

  function Verdict(r: Result<Gov>): (v: Result<()>)
  {
    match r
    case Ok(_) => Ok(())
    case Err(e) => Err(e)
  }

  class GovernanceAccounts {
    var nextProposalId: u64
    var autoExecute: bool
    var minQuorumBps: u16
    var proposals: map<u64, Proposal>
    var records: map<(u64, Pubkey), VoteRecord>
    var exits: map<ExitKey, DlmmExit>
    ghost var history: GovHistory

    ghost function Accounts(): (g: Gov)
      reads this
    {
      Gov(Config(nextProposalId, autoExecute, minQuorumBps), proposals, records, exits)
    }

    ghost function Now(): (t: GovTracked)
      reads this
    {
      GovTracked(Accounts(), history)
    }

    ghost predicate Valid()
      reads this
    {
      GovInv(Now())
    }

    constructor InitializeGovernance()
      ensures GovInitial(Now()) && Valid() && exits == map[] && !autoExecute && minQuorumBps == 0
    {
      nextProposalId, autoExecute, minQuorumBps := 0, false, 0;
      proposals, records, exits := map[], map[], map[];
      history := GovHistory(map[], map[], [], []);
    }

    method CreateProposal(ctx: Ctx, authority: Pubkey, d: Draft) returns (r: Result<()>)
      requires Valid()
      modifies this
      ensures Valid() && Now() == GovStep(old(Now()), ctx, CreateEvent(authority, d))
      ensures r == Verdict(ExecuteGov(old(Accounts()), ctx, CreateEvent(authority, d)))
    {
      hide GovInv, RecordGov;
      ghost var before := Now();
      GovStepKeepsInv(before, ctx, CreateEvent(authority, d));
      if authority != ctx.owner { return Err(Unauthorized); }
      if nextProposalId in proposals { return Err(AccountAlreadyInUse); }
      if ctx.isPaused { return Err(PoolPaused); }
      if d.title == [] || |d.title| > MAX_TITLE_LEN { return Err(TitleTooLong); }
      if |d.options| < MIN_PROPOSAL_OPTIONS { return Err(TooFewOptions); }
      if |d.options| > MAX_PROPOSAL_OPTIONS { return Err(TooManyOptions); }
      if d.votingEnds <= d.votingStarts { return Err(InvalidVotingPeriod); }
      var duration := SaturatingSub(d.votingEnds, d.votingStarts);
      if duration < MIN_VOTING_PERIOD_SECONDS { return Err(InvalidVotingPeriod); }
      if d.votingStarts < ctx.now { return Err(InvalidVotingPeriod); }

      var zeros: seq<u64> := seq(|d.options|, _ => 0);
      var p := Proposal(nextProposalId, authority, d.title, d.descriptionUri, d.proposalType, d.options, zeros,
                        d.votingStarts, d.votingEnds, VOTING, 0, UNRESOLVED, false, 0, ctx.totalWeightedStake);
      var next :- CheckedAdd64(nextProposalId, 1);

      proposals := proposals[nextProposalId := p];
      nextProposalId := next;
      history := RecordGov(before.h, before.g, ctx, CreateEvent(authority, d));
      return Ok(());
    }

    method CastVote(ctx: Ctx, voter: Pubkey, id: u64, option: u8, wallet: u64, staked: u64) returns (r: Result<()>)
      requires Valid()
      modifies this
      ensures Valid() && Now() == GovStep(old(Now()), ctx, VoteEvent(voter, id, option, wallet, staked))
      ensures r == Verdict(ExecuteGov(old(Accounts()), ctx, VoteEvent(voter, id, option, wallet, staked)))
    {
      hide GovInv, RecordGov;
      ghost var before := Now();
      GovStepKeepsInv(before, ctx, VoteEvent(voter, id, option, wallet, staked));
      if id !in proposals { return Err(AccountNotInitialized); }
      if (id, voter) in records { return Err(AccountAlreadyInUse); }
      var p := proposals[id];
      if ctx.isPaused { return Err(PoolPaused); }
      if p.status != VOTING { return Err(ProposalNotActive); }
      if ctx.now < p.votingStarts { return Err(VotingPeriodNotStarted); }
      if ctx.now >= p.votingEnds { return Err(VotingPeriodEnded); }
      if option >= |p.options| { return Err(InvalidOptionIndex); }
      var stakedWeight :- CheckedMul64(staked, 2);
      var weight :- CheckedAdd64(wallet, stakedWeight);
      if weight == 0 { return Err(NoVotingPower); }
      var record := VoteRecord(id, voter, option, weight, ctx.now);

      if option >= |p.voteCounts| { return Err(Panicked); }
      var count :- CheckedAdd64(p.voteCounts[option], weight);
      p := p.(voteCounts := p.voteCounts[option := count]);
      var total :- CheckedAdd128(p.totalVoteWeight, weight);
      p := p.(totalVoteWeight := total);

      proposals := proposals[id := p];
      records := records[(id, voter) := record];
      history := RecordGov(before.h, before.g, ctx, VoteEvent(voter, id, option, wallet, staked));
      return Ok(());
    }

    method CloseProposal(ctx: Ctx, id: u64) returns (r: Result<()>)
      requires Valid()
      modifies this
      ensures Valid() && Now() == GovStep(old(Now()), ctx, CloseEvent(id))
      ensures r == Verdict(ExecuteGov(old(Accounts()), ctx, CloseEvent(id)))
    {
      hide GovInv, RecordGov, Winner;
      ghost var before := Now();
      GovStepKeepsInv(before, ctx, CloseEvent(id));
      if id !in proposals { return Err(AccountNotInitialized); }
      var p := proposals[id];
      if p.status != VOTING { return Err(ProposalNotActive); }
      if ctx.now < p.votingEnds { return Err(VotingPeriodNotEnded); }
      if p.voteCounts == [] { return Err(InvalidProposalState); }
      if |p.voteCounts| != |p.options| { return Err(InvalidProposalState); }
      if ctx.isPaused { return Err(PoolPaused); }
      p := Decide(p, minQuorumBps, ctx.now);
      proposals := proposals[id := p];
      history := RecordGov(before.h, before.g, ctx, CloseEvent(id));
      return Ok(());
    }

    /** The part of close_proposal that writes the verdict, with its two early rejections. */
    method Decide(proposal: Proposal, bps: u16, now: i64) returns (p: Proposal)
      requires proposal.voteCounts != []
      ensures p == Decided(proposal, bps, now)
    {
      hide RequiredWeight;
      p := proposal;
      if p.totalVoteWeight == 0 {
        p := p.(status := REJECTED);
        p := p.(winningOptionIndex := UNRESOLVED);
        return;
      }
      if bps > 0 {
        var required := Required(p.quorumSnapshot, bps);
        if p.totalVoteWeight < required {
          p := p.(status := REJECTED);
          p := p.(winningOptionIndex := UNRESOLVED);
          return;
        }
      }
      var maxIndex, isTie := TallyVotes(p.voteCounts);
      NoWinnerMeansTie(p.voteCounts);
      if isTie {
        p := p.(status := REJECTED);
        p := p.(winningOptionIndex := UNRESOLVED);
        p := p.(passedAt := 0);
      } else {
        p := p.(winningOptionIndex := maxIndex % 256);
        if maxIndex == 0 {
          p := p.(status := PASSED);
          p := p.(passedAt := now);
        } else {
          p := p.(status := REJECTED);
          p := p.(passedAt := 0);
        }
      }
    }

    method Required(quorumBase: u128, bps: u16) returns (required: u128)
      ensures required == RequiredWeight(quorumBase, bps)
    {
      var product := CheckedMul128(quorumBase, bps);
      required := (if product.Ok? then product.value else 0) / 10_000;
    }

    method CloseVoteRecord(ctx: Ctx, voter: Pubkey, id: u64) returns (r: Result<()>)
      requires Valid()
      modifies this
      ensures Valid() && Now() == GovStep(old(Now()), ctx, CloseRecordEvent(voter, id))
      ensures r == Verdict(ExecuteGov(old(Accounts()), ctx, CloseRecordEvent(voter, id)))
    {
      hide GovInv;
      GovStepKeepsInv(Now(), ctx, CloseRecordEvent(voter, id));
      if id !in proposals { return Err(AccountNotInitialized); }
      if (id, voter) !in records { return Err(AccountNotInitialized); }
      if proposals[id].status == VOTING { return Err(ProposalNotActive); }
      records := records - {(id, voter)};
      return Ok(());
    }

    method GovernanceInitiateExit(ctx: Ctx, authority: Pubkey, id: u64, key: ExitKey, position: Pubkey, bump: u8)
      returns (r: Result<()>)
      requires Valid()
      modifies this
      ensures Valid() && Now() == GovStep(old(Now()), ctx, GovExitEvent(authority, id, key, position, bump))
      ensures r == Verdict(ExecuteGov(old(Accounts()), ctx, GovExitEvent(authority, id, key, position, bump)))
    {
      hide GovInv, RecordGov;
      ghost var before := Now();
      GovStepKeepsInv(before, ctx, GovExitEvent(authority, id, key, position, bump));
      if id !in proposals { return Err(AccountNotInitialized); }
      if key in exits { return Err(AccountAlreadyInUse); }
      var p := proposals[id];
      if ctx.isPaused { return Err(PoolPaused); }
      var isOwner := authority == ctx.owner;
      var isCrank := authority == ctx.crank;
      if !(isOwner || (isCrank && autoExecute)) { return Err(Unauthorized); }
      if p.status != PASSED { return Err(ProposalNotPassed); }
      if p.passedAt > 0 {
        var timeSincePassed := SaturatingSub(ctx.now, p.passedAt);
        if timeSincePassed < MIN_EXECUTION_DELAY_SECONDS { return Err(ProposalNotPassed); }
      }
      if p.winningOptionIndex != 0 { return Err(InvalidProposalState); }
      if p.proposalType != PROPOSAL_TYPE_SELL { return Err(InvalidProposalType); }
      if p.executed { return Err(ProposalAlreadyExecuted); }

      exits := exits[key := DlmmExit(ctx.poolKey, ctx.owner, key.assetMint, key.dlmmPool, position, 0, ACTIVE,
                                     ctx.now, 0, id, 0, bump)];
      proposals := proposals[id := p.(executed := true)];
      history := RecordGov(before.h, before.g, ctx, GovExitEvent(authority, id, key, position, bump));
      return Ok(());
    }

    method SetQuorum(ctx: Ctx, authority: Pubkey, bps: u16) returns (r: Result<()>)
      requires Valid()
      modifies this
      ensures Valid() && Now() == GovStep(old(Now()), ctx, QuorumEvent(authority, bps))
      ensures r == Verdict(ExecuteGov(old(Accounts()), ctx, QuorumEvent(authority, bps)))
      ensures r.Ok? <==> authority == ctx.owner
      ensures minQuorumBps == (if r.Ok? then bps else old(minQuorumBps)) && autoExecute == old(autoExecute)
      ensures proposals == old(proposals) && records == old(records) && nextProposalId == old(nextProposalId)
      ensures exits == old(exits)
    {
      hide GovInv;
      GovStepKeepsInv(Now(), ctx, QuorumEvent(authority, bps));
      if authority != ctx.owner { return Err(Unauthorized); }
      minQuorumBps := bps;
      return Ok(());
    }

    method SetAutoExecute(ctx: Ctx, authority: Pubkey, enabled: bool) returns (r: Result<()>)
      requires Valid()
      modifies this
      ensures Valid() && Now() == GovStep(old(Now()), ctx, AutoExecuteEvent(authority, enabled))
      ensures r == Verdict(ExecuteGov(old(Accounts()), ctx, AutoExecuteEvent(authority, enabled)))
      ensures r.Ok? <==> authority == ctx.owner
      ensures autoExecute == (if r.Ok? then enabled else old(autoExecute)) && minQuorumBps == old(minQuorumBps)
      ensures proposals == old(proposals) && records == old(records) && nextProposalId == old(nextProposalId)
      ensures exits == old(exits)
    {
      hide GovInv;
      GovStepKeepsInv(Now(), ctx, AutoExecuteEvent(authority, enabled));
      if authority != ctx.owner { return Err(Unauthorized); }
      autoExecute := enabled;
      return Ok(());
    }

    method InitiateExit(ctx: Ctx, authority: Pubkey, key: ExitKey, position: Pubkey, bump: u8) returns (r: Result<()>)
      requires Valid()
      modifies this
      ensures Valid() && Now() == GovStep(old(Now()), ctx, InitiateEvent(authority, key, position, bump))
      ensures r == Verdict(ExecuteGov(old(Accounts()), ctx, InitiateEvent(authority, key, position, bump)))
      ensures proposals == old(proposals) && records == old(records) && nextProposalId == old(nextProposalId)
      ensures r.Ok? ==> key !in old(exits) && !ctx.isPaused && authority == ctx.owner
      ensures r.Ok? ==> key in exits && exits[key].status == ACTIVE && exits[key].totalSolClaimed == 0
      ensures exits == if r.Ok? then old(exits)[key := exits[key]] else old(exits)
    {
      hide GovInv;
      GovStepKeepsInv(Now(), ctx, InitiateEvent(authority, key, position, bump));
      if authority != ctx.owner { return Err(Unauthorized); }
      if key in exits { return Err(AccountAlreadyInUse); }
      if ctx.isPaused { return Err(PoolPaused); }
      exits := exits[key := DlmmExit(ctx.poolKey, authority, key.assetMint, key.dlmmPool, position, 0, ACTIVE,
                                     ctx.now, 0, 0, 0, bump)];
      return Ok(());
    }

    method RecordClaim(ctx: Ctx, authority: Pubkey, key: ExitKey, amount: u64) returns (r: Result<()>)
      requires Valid()
      modifies this
      ensures Valid() && Now() == GovStep(old(Now()), ctx, RecordClaimEvent(authority, key, amount))
      ensures r == Verdict(ExecuteGov(old(Accounts()), ctx, RecordClaimEvent(authority, key, amount)))
      ensures proposals == old(proposals) && records == old(records) && nextProposalId == old(nextProposalId)
      ensures r.Ok? ==> key in old(exits) && key in exits && Recorded(old(exits)[key], exits[key])
      ensures r.Ok? ==> exits[key].lastClaimedAmount == amount
      ensures exits == if r.Ok? then old(exits)[key := exits[key]] else old(exits)
    {
      hide GovInv;
      GovStepKeepsInv(Now(), ctx, RecordClaimEvent(authority, key, amount));
      if authority != ctx.owner && authority != ctx.crank { return Err(Unauthorized); }
      if key !in exits { return Err(AccountNotInitialized); }
      var exit := exits[key];
      if exit.pool != ctx.poolKey { return Err(Unauthorized); }
      if amount == 0 { return Err(ZeroAmount); }
      if exit.status != ACTIVE { return Err(ExitNotActive); }
      if exit.lastClaimedAmount != 0 && exit.lastClaimedAmount == amount { return Err(InvalidState); }
      var total :- CheckedAdd64(exit.totalSolClaimed, amount);
      exit := exit.(totalSolClaimed := total);
      exit := exit.(lastClaimedAmount := amount);
      exits := exits[key := exit];
      return Ok(());
    }

    method CompleteExit(ctx: Ctx, authority: Pubkey, key: ExitKey) returns (r: Result<()>)
      requires Valid()
      modifies this
      ensures Valid() && Now() == GovStep(old(Now()), ctx, CompleteEvent(authority, key))
      ensures r == Verdict(ExecuteGov(old(Accounts()), ctx, CompleteEvent(authority, key)))
      ensures proposals == old(proposals) && records == old(records) && nextProposalId == old(nextProposalId)
      ensures r.Ok? ==> key in old(exits) && old(exits)[key].status == ACTIVE
      ensures exits == if r.Ok? then old(exits)[key := Finished(old(exits)[key], COMPLETED, ctx.now)] else old(exits)
    {
      hide GovInv;
      GovStepKeepsInv(Now(), ctx, CompleteEvent(authority, key));
      if authority != ctx.owner && authority != ctx.crank { return Err(Unauthorized); }
      if key !in exits { return Err(AccountNotInitialized); }
      var exit := exits[key];
      if exit.pool != ctx.poolKey { return Err(Unauthorized); }
      if exit.status != ACTIVE { return Err(ExitNotActive); }
      exit := exit.(status := COMPLETED);
      exit := exit.(completedAt := ctx.now);
      exits := exits[key := exit];
      return Ok(());
    }

    method TerminateExit(ctx: Ctx, authority: Pubkey, key: ExitKey) returns (r: Result<()>)
      requires Valid()
      modifies this
      ensures Valid() && Now() == GovStep(old(Now()), ctx, TerminateEvent(authority, key))
      ensures r == Verdict(ExecuteGov(old(Accounts()), ctx, TerminateEvent(authority, key)))
      ensures proposals == old(proposals) && records == old(records) && nextProposalId == old(nextProposalId)
      ensures r.Ok? ==> key in old(exits) && old(exits)[key].status == ACTIVE
      ensures exits == if r.Ok? then old(exits)[key := Finished(old(exits)[key], TERMINATED, ctx.now)] else old(exits)
    {
      hide GovInv;
      GovStepKeepsInv(Now(), ctx, TerminateEvent(authority, key));
      if authority != ctx.owner { return Err(Unauthorized); }
      if key !in exits { return Err(AccountNotInitialized); }
      var exit := exits[key];
      if exit.status != ACTIVE { return Err(ExitNotActive); }
      exit := exit.(status := TERMINATED);
      exit := exit.(completedAt := ctx.now);
      exits := exits[key := exit];
      return Ok(());
    }

    method CloseDlmmExit(ctx: Ctx, authority: Pubkey, key: ExitKey) returns (r: Result<()>)
      requires Valid()
      modifies this
      ensures Valid() && Now() == GovStep(old(Now()), ctx, CloseExitEvent(authority, key))
      ensures r == Verdict(ExecuteGov(old(Accounts()), ctx, CloseExitEvent(authority, key)))
      ensures proposals == old(proposals) && records == old(records) && nextProposalId == old(nextProposalId)
      ensures r.Ok? ==> key in old(exits) && old(exits)[key].status != ACTIVE
      ensures exits == if r.Ok? then old(exits) - {key} else old(exits)
    {
      hide GovInv;
      GovStepKeepsInv(Now(), ctx, CloseExitEvent(authority, key));
      if authority != ctx.owner { return Err(Unauthorized); }
      if key !in exits { return Err(AccountNotInitialized); }
      if exits[key].status == ACTIVE { return Err(ExitAlreadyActive); }
      exits := exits - {key};
      return Ok(());
    }
  }
}
