/** The governance and exit instructions: exactly when each succeeds, with which error it is refused, and
    every account it changes, in plain numbers. */
module GovernanceForms {
  import opened Numeric
  import opened Exits
  import opened Governance
  import opened VoteLedger

  // ---- proposals ----

  predicate DraftFits(ctx: Ctx, d: Draft)
  {
    && 1 <= |d.title| <= 64 && 2 <= |d.options| <= 5
    && d.votingStarts + 86_400 <= d.votingEnds && ctx.now <= d.votingStarts
  }

  /** A new proposal carries the draft, no votes, and the pool weight of the moment. */
  lemma CreateForm(g: Gov, ctx: Ctx, authority: Pubkey, d: Draft)
    ensures var r := CreateProposal(g, ctx, authority, d);
      var id := g.config.nextProposalId;
      var may := authority == ctx.owner && id !in g.proposals;
      && (r.Ok? <==> may && !ctx.isPaused && DraftFits(ctx, d) && id < U64_MAX)
      && (r == Err(Unauthorized) <==> authority != ctx.owner)
      && (r == Err(AccountAlreadyInUse) <==> authority == ctx.owner && id in g.proposals)
      && (r == Err(PoolPaused) <==> may && ctx.isPaused)
      && (r == Err(TitleTooLong) <==> may && !ctx.isPaused && !(1 <= |d.title| <= 64))
      && (r == Err(TooFewOptions) <==> may && !ctx.isPaused && 1 <= |d.title| <= 64 && |d.options| < 2)
      && (r == Err(TooManyOptions) <==> may && !ctx.isPaused && 1 <= |d.title| <= 64 && 5 < |d.options|)
      && (r == Err(InvalidVotingPeriod) <==>
            may && !ctx.isPaused && 1 <= |d.title| <= 64 && 2 <= |d.options| <= 5 && !DraftFits(ctx, d))
      && (r == Err(MathOverflow) <==> may && !ctx.isPaused && DraftFits(ctx, d) && id == U64_MAX)
    ensures var r := CreateProposal(g, ctx, authority, d);
      var id := g.config.nextProposalId;
      r.Ok? ==>
        var g' := r.value;
        && g' == g.(proposals := g'.proposals, config := g.config.(nextProposalId := id + 1))
        && g'.proposals.Keys == g.proposals.Keys + {id}
        && (forall j :: j in g.proposals ==> g'.proposals[j] == g.proposals[j])
        && var p := g'.proposals[id];
        && p.id == id && p.proposer == authority && p.title == d.title && p.descriptionUri == d.descriptionUri
        && p.proposalType == d.proposalType && p.options == d.options
        && p.votingStarts == d.votingStarts && p.votingEnds == d.votingEnds
        && |p.voteCounts| == |d.options| && AllZero(p.voteCounts) && p.totalVoteWeight == 0
        && p.status == 0 && p.winningOptionIndex == 255 && !p.executed && p.passedAt == 0
        && p.quorumSnapshot == ctx.totalWeightedStake
  {
  }

  /** Who may vote on `p` now, and for what. */
  predicate Votable(p: Proposal, ctx: Ctx, option: u8)
  {
    && !ctx.isPaused && p.status == 0 && p.votingStarts <= ctx.now < p.votingEnds
    && option < |p.options|
  }

  /** The weight fits the counters it is added to. */
  predicate Countable(p: Proposal, option: u8, weight: int)
  {
    && 0 < weight <= U64_MAX && option < |p.voteCounts|
    && p.voteCounts[option] + weight <= U64_MAX && p.totalVoteWeight + weight <= U128_MAX
  }

  lemma VoteAccepted(g: Gov, ctx: Ctx, voter: Pubkey, id: u64, option: u8, wallet: u64, staked: u64)
    ensures var r := CastVote(g, ctx, voter, id, option, wallet, staked);
      && (r == Err(AccountNotInitialized) <==> id !in g.proposals)
      && (r == Err(AccountAlreadyInUse) <==> id in g.proposals && (id, voter) in g.records)
      && (id in g.proposals && (id, voter) !in g.records ==>
            var p := g.proposals[id];
            && (r.Ok? <==> Votable(p, ctx, option) && Countable(p, option, wallet + staked + staked))
            && (r == Err(PoolPaused) <==> ctx.isPaused)
            && (r == Err(ProposalNotActive) <==> !ctx.isPaused && p.status != 0)
            && (r == Err(VotingPeriodNotStarted) <==> !ctx.isPaused && p.status == 0 && ctx.now < p.votingStarts)
            && (r == Err(VotingPeriodEnded) <==>
                  !ctx.isPaused && p.status == 0 && p.votingStarts <= ctx.now && p.votingEnds <= ctx.now)
            && (r == Err(InvalidOptionIndex) <==>
                  !ctx.isPaused && p.status == 0 && p.votingStarts <= ctx.now < p.votingEnds && |p.options| <= option)
            && (r == Err(NoVotingPower) <==> Votable(p, ctx, option) && wallet == 0 == staked))
  {
  }

  /** A vote adds the wallet once and the stake twice to its option, to the turnout and to the record, and
      changes nothing else. */
  lemma VoteForm(g: Gov, ctx: Ctx, voter: Pubkey, id: u64, option: u8, wallet: u64, staked: u64)
    requires CastVote(g, ctx, voter, id, option, wallet, staked).Ok?
    ensures var g' := CastVote(g, ctx, voter, id, option, wallet, staked).value;
      var p, p' := g.proposals[id], g'.proposals[id];
      var weight := wallet + staked + staked;
      && g' == g.(proposals := g.proposals[id := p'], records := g'.records)
      && p' == p.(voteCounts := p'.voteCounts, totalVoteWeight := p'.totalVoteWeight)
      && |p'.voteCounts| == |p.voteCounts| && option < |p.voteCounts|
      && p'.voteCounts[option] - p.voteCounts[option] == weight
      && (forall j :: 0 <= j < |p.voteCounts| && j != option ==> p'.voteCounts[j] == p.voteCounts[j])
      && p'.totalVoteWeight - p.totalVoteWeight == weight
      && g'.records.Keys == g.records.Keys + {(id, voter)}
      && (forall k :: k in g.records ==> g'.records[k] == g.records[k])
      && g'.records[(id, voter)] == VoteRecord(id, voter, option, weight, ctx.now)
  {
  }

  /** In every reachable state closing depends on the proposal's status, the time and the pause alone; how
      people voted never stops it. */
  lemma CloseForm(t: GovTracked, ctx: Ctx, id: u64)
    requires GovInv(t)
    ensures ClosedAs(t.g, ctx, id, CloseProposal(t.g, ctx, id))
  {
    hide *;
    if id in t.g.proposals { OptionsCounted(t, id); }
    CloseUnfolds(t.g, ctx, id);
  }

  lemma OptionsCounted(t: GovTracked, id: u64)
    requires GovInv(t) && id in t.g.proposals
    ensures var p := t.g.proposals[id]; p.voteCounts != [] && |p.voteCounts| == |p.options|
  {
    assert ProposalOk(t, id);
    hide Tallied, Lifecycle;
  }

  lemma CloseUnfolds(g: Gov, ctx: Ctx, id: u64)
    requires id in g.proposals ==> g.proposals[id].voteCounts != []
                                   && |g.proposals[id].voteCounts| == |g.proposals[id].options|
    ensures ClosedAs(g, ctx, id, CloseProposal(g, ctx, id))
  {
    hide Winner, QuorumMet;
  }

  ghost predicate ClosedAs(g: Gov, ctx: Ctx, id: u64, r: Result<Gov>)
  {
    && (r.Ok? <==> id in g.proposals && g.proposals[id].status == 0 && g.proposals[id].votingEnds <= ctx.now
                   && !ctx.isPaused)
    && (r == Err(AccountNotInitialized) <==> id !in g.proposals)
    && (r == Err(ProposalNotActive) <==> id in g.proposals && g.proposals[id].status != 0)
    && (r == Err(VotingPeriodNotEnded) <==>
          id in g.proposals && g.proposals[id].status == 0 && ctx.now < g.proposals[id].votingEnds)
    && (r == Err(PoolPaused) <==> && id in g.proposals && g.proposals[id].status == 0
                                  && g.proposals[id].votingEnds <= ctx.now && ctx.isPaused)
    && (r.Ok? ==>
          id in g.proposals && id in r.value.proposals &&
          var p, p' := g.proposals[id], r.value.proposals[id];
          && r.value == g.(proposals := g.proposals[id := p'])
          && p' == p.(status := p'.status, winningOptionIndex := p'.winningOptionIndex, passedAt := p'.passedAt)
          && p'.status != 0)
  }

  /** A vote record goes exactly when its proposal is no longer open, and nothing else goes. */
  lemma CloseRecordForm(g: Gov, voter: Pubkey, id: u64)
    ensures var r := CloseVoteRecord(g, voter, id);
      && (r.Ok? <==> id in g.proposals && (id, voter) in g.records && g.proposals[id].status != 0)
      && (r == Err(ProposalNotActive) <==> id in g.proposals && (id, voter) in g.records && g.proposals[id].status == 0)
      && (r.Err? && r.error != ProposalNotActive ==> r.error == AccountNotInitialized)
      && (r.Ok? ==>
            && r.value == g.(records := r.value.records)
            && r.value.records.Keys == g.records.Keys - {(id, voter)}
            && forall k :: k in r.value.records ==> r.value.records[k] == g.records[k])
  {
  }

  // ---- exits ----

  predicate Entitled(g: Gov, ctx: Ctx, authority: Pubkey)
  {
    authority == ctx.owner || (authority == ctx.crank && g.config.autoExecute)
  }

  /** 48 hours have gone by since a positive passing time. */
  predicate DelayOver(p: Proposal, now: i64)
  {
    p.passedAt <= 0 || p.passedAt + 172_800 <= now
  }

  /** Exactly who may open an exit by a proposal, when, and how anybody else is refused. */
  lemma GovernanceExitForm(g: Gov, ctx: Ctx, authority: Pubkey, id: u64, key: ExitKey, position: Pubkey, bump: u8)
    ensures var r := GovernanceInitiateExit(g, ctx, authority, id, key, position, bump);
      && (r == Err(AccountNotInitialized) <==> id !in g.proposals)
      && (r == Err(AccountAlreadyInUse) <==> id in g.proposals && key in g.exits)
      && (id in g.proposals && key !in g.exits ==>
            var p := g.proposals[id];
            var may := !ctx.isPaused && Entitled(g, ctx, authority);
            var ready := may && p.status == 1 && DelayOver(p, ctx.now);
            && (r.Ok? <==> ready && p.winningOptionIndex == 0 && p.proposalType == 1 && !p.executed)
            && (r == Err(PoolPaused) <==> ctx.isPaused)
            && (r == Err(Unauthorized) <==> !ctx.isPaused && !Entitled(g, ctx, authority))
            && (r == Err(ProposalNotPassed) <==> may && !ready)
            && (r == Err(InvalidProposalState) <==> ready && p.winningOptionIndex != 0)
            && (r == Err(InvalidProposalType) <==> ready && p.winningOptionIndex == 0 && p.proposalType != 1)
            && (r == Err(ProposalAlreadyExecuted) <==>
                  ready && p.winningOptionIndex == 0 && p.proposalType == 1 && p.executed))
    ensures var r := GovernanceInitiateExit(g, ctx, authority, id, key, position, bump);
      r.Ok? ==>
        && r.value == g.(proposals := r.value.proposals, exits := r.value.exits)
        && r.value.proposals == g.proposals[id := g.proposals[id].(executed := true)]
        && NewExit(g.exits, r.value.exits, key, ctx, ctx.owner, position, id, bump)
  {
  }

  /** The only change is a new Active exit under `key` with nothing claimed. */
  predicate NewExit(exits: ExitMap, exits': ExitMap, key: ExitKey, ctx: Ctx, owner: Pubkey, position: Pubkey,
                    proposalId: u64, bump: u8)
  {
    && exits'.Keys == exits.Keys + {key}
    && (forall k :: k in exits && k != key ==> exits'[k] == exits[k])
    && var e := exits'[key];
    && e.pool == ctx.poolKey && e.owner == owner && e.position == position
    && e.assetMint == key.assetMint && e.dlmmPool == key.dlmmPool
    && e.status == 0 && e.totalSolClaimed == 0 && e.lastClaimedAmount == 0
    && e.createdAt == ctx.now && e.completedAt == 0 && e.proposalId == proposalId && e.bump == bump
  }

  lemma InitiateForm(exits: ExitMap, ctx: Ctx, authority: Pubkey, key: ExitKey, position: Pubkey, bump: u8)
    ensures var r := InitiateExit(exits, ctx, authority, key, position, bump);
      && (r.Ok? <==> authority == ctx.owner && key !in exits && !ctx.isPaused)
      && (r == Err(Unauthorized) <==> authority != ctx.owner)
      && (r == Err(AccountAlreadyInUse) <==> authority == ctx.owner && key in exits)
      && (r == Err(PoolPaused) <==> authority == ctx.owner && key !in exits && ctx.isPaused)
      && (r.Ok? ==> NewExit(exits, r.value, key, ctx, authority, position, 0, bump))
  {
  }

  /** Owner or crank, on an exit of this pool. */
  predicate Reaches(exits: ExitMap, ctx: Ctx, authority: Pubkey, key: ExitKey)
  {
    (authority == ctx.owner || authority == ctx.crank) && key in exits && exits[key].pool == ctx.poolKey
  }

  /** The only change is to the exit under `key`. */
  predicate OnlyAt(exits: ExitMap, exits': ExitMap, key: ExitKey)
  {
    exits'.Keys == exits.Keys && forall k :: k in exits && k != key ==> exits'[k] == exits[k]
  }

  /** A claim is recorded on an Active exit unless it repeats the last amount, and is added to the total. */
  lemma RecordForm(exits: ExitMap, ctx: Ctx, authority: Pubkey, key: ExitKey, amount: u64)
    ensures var r := RecordClaim(exits, ctx, authority, key, amount);
      && (!Reaches(exits, ctx, authority, key) ==> r == Err(Unauthorized) || r == Err(AccountNotInitialized))
      && (r == Err(AccountNotInitialized) <==>
            (authority == ctx.owner || authority == ctx.crank) && key !in exits)
      && (Reaches(exits, ctx, authority, key) ==>
            var e := exits[key];
            var due := 0 < amount && e.status == 0 && e.lastClaimedAmount != amount;
            && (r.Ok? <==> due && e.totalSolClaimed + amount <= U64_MAX)
            && (r == Err(ZeroAmount) <==> amount == 0)
            && (r == Err(ExitNotActive) <==> 0 < amount && e.status != 0)
            && (r == Err(InvalidState) <==> 0 < amount && e.status == 0 && e.lastClaimedAmount == amount)
            && (r == Err(MathOverflow) <==> due && e.totalSolClaimed + amount > U64_MAX))
      && (r.Ok? ==>
            var e, e' := exits[key], r.value[key];
            && OnlyAt(exits, r.value, key)
            && e'.totalSolClaimed - e.totalSolClaimed == amount && e'.lastClaimedAmount == amount
            && e' == e.(totalSolClaimed := e'.totalSolClaimed, lastClaimedAmount := e'.lastClaimedAmount))
  {
  }

  lemma CompleteForm(exits: ExitMap, ctx: Ctx, authority: Pubkey, key: ExitKey)
    ensures var r := CompleteExit(exits, ctx, authority, key);
      && (r.Ok? <==> Reaches(exits, ctx, authority, key) && exits[key].status == 0)
      && (r == Err(ExitNotActive) <==> Reaches(exits, ctx, authority, key) && exits[key].status != 0)
      && (r == Err(AccountNotInitialized) <==>
            (authority == ctx.owner || authority == ctx.crank) && key !in exits)
      && (r.Err? ==> r.error in {ExitNotActive, AccountNotInitialized, Unauthorized})
      && (r.Ok? ==> OnlyAt(exits, r.value, key) && Ended(exits[key], r.value[key], 1, ctx.now))
  {
  }

  /** Only status and completion time differ. */
  predicate Ended(e: DlmmExit, e': DlmmExit, status: u8, now: i64)
  {
    && e'.status == status && e'.completedAt == now
    && e' == e.(status := e'.status, completedAt := e'.completedAt)
  }

  lemma TerminateForm(exits: ExitMap, ctx: Ctx, authority: Pubkey, key: ExitKey)
    ensures var r := TerminateExit(exits, ctx, authority, key);
      && (r.Ok? <==> authority == ctx.owner && key in exits && exits[key].status == 0)
      && (r == Err(Unauthorized) <==> authority != ctx.owner)
      && (r == Err(AccountNotInitialized) <==> authority == ctx.owner && key !in exits)
      && (r == Err(ExitNotActive) <==> authority == ctx.owner && key in exits && exits[key].status != 0)
      && (r.Ok? ==> OnlyAt(exits, r.value, key) && Ended(exits[key], r.value[key], 2, ctx.now))
  {
  }

  /** Closing frees the key of a finished exit: the owner can open a new one there at once. */
  lemma CloseExitForm(exits: ExitMap, ctx: Ctx, authority: Pubkey, key: ExitKey)
    ensures var r := CloseDlmmExit(exits, ctx, authority, key);
      && (r.Ok? <==> authority == ctx.owner && key in exits && exits[key].status != 0)
      && (r == Err(Unauthorized) <==> authority != ctx.owner)
      && (r == Err(AccountNotInitialized) <==> authority == ctx.owner && key !in exits)
      && (r == Err(ExitAlreadyActive) <==> authority == ctx.owner && key in exits && exits[key].status == 0)
      && (r.Ok? ==>
            && r.value.Keys == exits.Keys - {key} && (forall k :: k in r.value ==> r.value[k] == exits[k])
            && forall position, bump: u8 ::
                 InitiateExit(r.value, ctx, authority, key, position, bump).Ok? <==> !ctx.isPaused)
  {
  }

  /** The owner, and nobody else, sets the quorum and auto-execution, each without touching anything else. */
  lemma SettingForm(g: Gov, ctx: Ctx, authority: Pubkey, bps: u16, enabled: bool)
    ensures var q := ExecuteGov(g, ctx, QuorumEvent(authority, bps));
      var a := ExecuteGov(g, ctx, AutoExecuteEvent(authority, enabled));
      if authority == ctx.owner then
        && q.Ok? && q.value == g.(config := q.value.config)
        && q.value.config == g.config.(minQuorumBps := q.value.config.minQuorumBps)
        && q.value.config.minQuorumBps == bps
        && a.Ok? && a.value == g.(config := a.value.config)
        && a.value.config == g.config.(autoExecute := a.value.config.autoExecute)
        && a.value.config.autoExecute == enabled
      else
        q == Err(Unauthorized) == a
  {
  }
}
