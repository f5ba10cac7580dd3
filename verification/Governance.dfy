/** Proposals, votes and the exits that passed proposals open, as functions on the accounts. */
module Governance {
  import opened Numeric
  import opened Exits

  const MIN_PROPOSAL_OPTIONS: int := 2
  const MAX_PROPOSAL_OPTIONS: int := 5
  const MAX_TITLE_LEN: int := 64
  const PROPOSAL_TYPE_SELL: u8 := 1
  const MIN_VOTING_PERIOD_SECONDS: int := 24 * 60 * 60
  const MIN_EXECUTION_DELAY_SECONDS: int := 48 * 60 * 60

  const VOTING: u8 := 0
  const PASSED: u8 := 1
  const REJECTED: u8 := 2
  const UNRESOLVED: u8 := 255

  datatype Proposal = Proposal(
    id: u64,
    proposer: Pubkey,
    title: seq<byte>,
    descriptionUri: seq<byte>,
    proposalType: u8,
    options: seq<seq<byte>>,
    voteCounts: seq<u64>,
    votingStarts: i64,
    votingEnds: i64,
    status: u8,
    totalVoteWeight: u128,
    winningOptionIndex: u8,
    executed: bool,
    passedAt: i64,
    quorumSnapshot: u128)

  datatype Config = Config(nextProposalId: u64, autoExecute: bool, minQuorumBps: u16)

  datatype VoteRecord = VoteRecord(proposalId: u64, voter: Pubkey, optionIndex: u8, weight: u64, votedAt: i64)

  datatype Gov = Gov(
    config: Config,
    proposals: map<u64, Proposal>,
    records: map<(u64, Pubkey), VoteRecord>,
    exits: ExitMap)

  // ---- create_proposal.rs ----

  datatype Draft = Draft(title: seq<byte>, descriptionUri: seq<byte>, proposalType: u8, options: seq<seq<byte>>,
                         votingStarts: i64, votingEnds: i64)

  function CreateProposal(g: Gov, ctx: Ctx, authority: Pubkey, d: Draft): (r: Result<Gov>)
  {
    var id := g.config.nextProposalId;
    if authority != ctx.owner then Err(Unauthorized)
    else if id in g.proposals then Err(AccountAlreadyInUse)
    else if ctx.isPaused then Err(PoolPaused)
    else if d.title == [] || |d.title| > MAX_TITLE_LEN then Err(TitleTooLong)
    else if |d.options| < MIN_PROPOSAL_OPTIONS then Err(TooFewOptions)
    else if |d.options| > MAX_PROPOSAL_OPTIONS then Err(TooManyOptions)
    else if d.votingEnds <= d.votingStarts then Err(InvalidVotingPeriod)
    else if SaturatingSub(d.votingEnds, d.votingStarts) < MIN_VOTING_PERIOD_SECONDS then Err(InvalidVotingPeriod)
    else if d.votingStarts < ctx.now then Err(InvalidVotingPeriod)
    else if id == U64_MAX then Err(MathOverflow)
    else
      var p := Proposal(id, authority, d.title, d.descriptionUri, d.proposalType, d.options,
                        seq(|d.options|, _ => 0), d.votingStarts, d.votingEnds, VOTING, 0, UNRESOLVED,
                        false, 0, ctx.totalWeightedStake);
      Ok(g.(proposals := g.proposals[id := p], config := g.config.(nextProposalId := id + 1)))
  }

  // ---- cast_vote.rs ----

  /** Voting weight: the wallet balance plus twice the stake. */
  function VotingWeight(wallet: u64, staked: u64): (w: nat) { wallet + 2 * staked }

  function CastVote(g: Gov, ctx: Ctx, voter: Pubkey, id: u64, option: u8, wallet: u64, staked: u64): (r: Result<Gov>)
  {
    if id !in g.proposals then Err(AccountNotInitialized)
    else if (id, voter) in g.records then Err(AccountAlreadyInUse)
    else
      var p := g.proposals[id];
      var weight := VotingWeight(wallet, staked);
      if ctx.isPaused then Err(PoolPaused)
      else if p.status != VOTING then Err(ProposalNotActive)
      else if ctx.now < p.votingStarts then Err(VotingPeriodNotStarted)
      else if ctx.now >= p.votingEnds then Err(VotingPeriodEnded)
      else if option >= |p.options| then Err(InvalidOptionIndex)
      else if weight > U64_MAX then Err(MathOverflow)
      else if weight == 0 then Err(NoVotingPower)
      else if option >= |p.voteCounts| then Err(Panicked)
      else if p.voteCounts[option] + weight > U64_MAX then Err(MathOverflow)
      else if p.totalVoteWeight + weight > U128_MAX then Err(MathOverflow)
      else
        var p' := p.(voteCounts := p.voteCounts[option := p.voteCounts[option] + weight],
                     totalVoteWeight := p.totalVoteWeight + weight);
        Ok(g.(proposals := g.proposals[id := p'],
              records := g.records[(id, voter) := VoteRecord(id, voter, option, weight, ctx.now)]))
  }

  // ---- close_proposal.rs ----

  /** Option `i` has strictly more weight than every other option. */
  predicate Leads(counts: seq<u64>, i: nat)
  {
    i < |counts| && forall j :: 0 <= j < |counts| && j != i ==> counts[j] < counts[i]
  }

  predicate AllZero(counts: seq<u64>)
  {
    forall j :: 0 <= j < |counts| ==> counts[j] == 0
  }

  /** What the tally declares the winner. With no weight anywhere it is option 0. */
  ghost function Winner(counts: seq<u64>): (w: Option<nat>)
    requires counts != []
    ensures w.Some? ==> w.value < |counts|
  {
    if AllZero(counts) then Some(0)
    else if exists i: nat :: Leads(counts, i) then
      var i: nat :| Leads(counts, i);
      Some(i)
    else None
  }

  /** The weight a quorum asks for, where a product too large for 128 bits asks for nothing. */
  function RequiredWeight(snapshot: u128, bps: u16): (w: nat)
  {
    if snapshot * bps > U128_MAX then 0 else snapshot * bps / 10_000
  }

  predicate QuorumMet(p: Proposal, bps: u16)
  {
    bps == 0 || RequiredWeight(p.quorumSnapshot, bps) <= p.totalVoteWeight
  }

  /** A closed proposal. The index is stored in one byte; five options never exceed it. */
  ghost function Decided(p: Proposal, bps: u16, now: i64): (r: Proposal)
    requires p.voteCounts != []
  {
    if p.totalVoteWeight == 0 || !QuorumMet(p, bps) then
      p.(status := REJECTED, winningOptionIndex := UNRESOLVED)
    else
      match Winner(p.voteCounts)
      case None => p.(status := REJECTED, winningOptionIndex := UNRESOLVED, passedAt := 0)
      case Some(i) =>
        if i == 0 then p.(status := PASSED, winningOptionIndex := 0, passedAt := now)
        else p.(status := REJECTED, winningOptionIndex := i % 256, passedAt := 0)
  }

  ghost function CloseProposal(g: Gov, ctx: Ctx, id: u64): (r: Result<Gov>)
  {
    if id !in g.proposals then Err(AccountNotInitialized)
    else
      var p := g.proposals[id];
      if p.status != VOTING then Err(ProposalNotActive)
      else if ctx.now < p.votingEnds then Err(VotingPeriodNotEnded)
      else if p.voteCounts == [] || |p.voteCounts| != |p.options| then Err(InvalidProposalState)
      else if ctx.isPaused then Err(PoolPaused)
      else Ok(g.(proposals := g.proposals[id := Decided(p, g.config.minQuorumBps, ctx.now)]))
  }

  // ---- close_vote_record.rs ----

  function CloseVoteRecord(g: Gov, voter: Pubkey, id: u64): (r: Result<Gov>)
  {
    if id !in g.proposals || (id, voter) !in g.records then Err(AccountNotInitialized)
    else if g.proposals[id].status == VOTING then Err(ProposalNotActive)
    else Ok(g.(records := g.records - {(id, voter)}))
  }

  // ---- governance_initiate_exit.rs ----

  function GovernanceInitiateExit(g: Gov, ctx: Ctx, authority: Pubkey, id: u64, key: ExitKey, position: Pubkey,
                                  bump: u8): (r: Result<Gov>)
  {
    if id !in g.proposals then Err(AccountNotInitialized)
    else if key in g.exits then Err(AccountAlreadyInUse)
    else
      var p := g.proposals[id];
      if ctx.isPaused then Err(PoolPaused)
      else if !(authority == ctx.owner || (authority == ctx.crank && g.config.autoExecute)) then Err(Unauthorized)
      else if p.status != PASSED then Err(ProposalNotPassed)
      else if p.passedAt > 0 && SaturatingSub(ctx.now, p.passedAt) < MIN_EXECUTION_DELAY_SECONDS then
        Err(ProposalNotPassed)
      else if p.winningOptionIndex != 0 then Err(InvalidProposalState)
      else if p.proposalType != PROPOSAL_TYPE_SELL then Err(InvalidProposalType)
      else if p.executed then Err(ProposalAlreadyExecuted)
      else Ok(g.(exits := g.exits[key := Opened(ctx, ctx.owner, key, position, id, bump)],
                 proposals := g.proposals[id := p.(executed := true)]))
  }

  // ---- one step ----

  datatype GovEvent =
    | CreateEvent(authority: Pubkey, draft: Draft)
    | VoteEvent(voter: Pubkey, id: u64, option: u8, wallet: u64, staked: u64)
    | CloseEvent(id: u64)
    | CloseRecordEvent(voter: Pubkey, id: u64)
    | GovExitEvent(authority: Pubkey, id: u64, key: ExitKey, position: Pubkey, bump: u8)
    | QuorumEvent(authority: Pubkey, bps: u16)
    | AutoExecuteEvent(authority: Pubkey, enabled: bool)
    | InitiateEvent(authority: Pubkey, key: ExitKey, position: Pubkey, bump: u8)
    | RecordClaimEvent(authority: Pubkey, key: ExitKey, amount: u64)
    | CompleteEvent(authority: Pubkey, key: ExitKey)
    | TerminateEvent(authority: Pubkey, key: ExitKey)
    | CloseExitEvent(authority: Pubkey, key: ExitKey)
    | HaltEvent(authority: Pubkey, listed: set<ExitKey>)

  function WithExits(g: Gov, r: Result<ExitMap>): (r': Result<Gov>)
  {
    if r.Ok? then Ok(g.(exits := r.value)) else Err(r.error)
  }

  ghost function ExecuteGov(g: Gov, ctx: Ctx, e: GovEvent): (r: Result<Gov>)
  {
    match e
    case CreateEvent(authority, draft) => CreateProposal(g, ctx, authority, draft)
    case VoteEvent(voter, id, option, wallet, staked) => CastVote(g, ctx, voter, id, option, wallet, staked)
    case CloseEvent(id) => CloseProposal(g, ctx, id)
    case CloseRecordEvent(voter, id) => CloseVoteRecord(g, voter, id)
    case GovExitEvent(authority, id, key, position, bump) =>
      GovernanceInitiateExit(g, ctx, authority, id, key, position, bump)
    case QuorumEvent(authority, bps) =>
      if authority != ctx.owner then Err(Unauthorized) else Ok(g.(config := g.config.(minQuorumBps := bps)))
    case AutoExecuteEvent(authority, enabled) =>
      if authority != ctx.owner then Err(Unauthorized) else Ok(g.(config := g.config.(autoExecute := enabled)))
    case InitiateEvent(authority, key, position, bump) =>
      WithExits(g, InitiateExit(g.exits, ctx, authority, key, position, bump))
    case RecordClaimEvent(authority, key, amount) => WithExits(g, RecordClaim(g.exits, ctx, authority, key, amount))
    case CompleteEvent(authority, key) => WithExits(g, CompleteExit(g.exits, ctx, authority, key))
    case TerminateEvent(authority, key) => WithExits(g, TerminateExit(g.exits, ctx, authority, key))
    case CloseExitEvent(authority, key) => WithExits(g, CloseDlmmExit(g.exits, ctx, authority, key))
    case HaltEvent(authority, listed) =>
      if authority != ctx.owner then Err(Unauthorized)
      else Ok(g.(exits := HaltExits(g.exits, ctx.poolKey, listed, ctx.now)))
  }
}
