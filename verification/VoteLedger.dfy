/** What governance has done since it was set up, and what every run keeps true of it. */
module VoteLedger {
  import opened Numeric
  import opened Exits
  import opened Governance

  /** What the history keeps is taken from the calls alone: who asked for what, when, and what the caller
      held or the pool allowed at that moment. */
  datatype Ballot = Ballot(pid: u64, voter: Pubkey, option: u8, wallet: u64, stake: u64, at: i64)
  datatype Opening = Opening(pid: u64, key: ExitKey, at: i64, caller: Pubkey, owner: Pubkey, crank: Pubkey,
                             autoExecute: bool)
  datatype Creation = Creation(at: i64, weight: u128, proposer: Pubkey, draft: Draft)
  datatype Closing = Closing(at: i64, bps: u16)

  datatype GovHistory = GovHistory(
    creations: map<u64, Creation>,
    closings: map<u64, Closing>,
    ballots: seq<Ballot>,
    openings: seq<Opening>)

  datatype GovTracked = GovTracked(g: Gov, h: GovHistory)

  function OpeningBy(g: Gov, ctx: Ctx, authority: Pubkey, id: u64, key: ExitKey): (o: Opening)
  {
    Opening(id, key, ctx.now, authority, ctx.owner, ctx.crank, g.config.autoExecute)
  }

  function RecordGov(h: GovHistory, g: Gov, ctx: Ctx, e: GovEvent): (h': GovHistory)
  {
    match e
    case CreateEvent(authority, d) =>
      var c := Creation(ctx.now, ctx.totalWeightedStake, authority, d);
      h.(creations := h.creations[g.config.nextProposalId := c])
    case VoteEvent(voter, id, option, wallet, staked) =>
      h.(ballots := h.ballots + [Ballot(id, voter, option, wallet, staked, ctx.now)])
    case CloseEvent(id) => h.(closings := h.closings[id := Closing(ctx.now, g.config.minQuorumBps)])
    case GovExitEvent(authority, id, key, _, _) =>
      h.(openings := h.openings + [OpeningBy(g, ctx, authority, id, key)])
    case _ => h
  }

  /** One instruction: its effect and its record, or nothing when it fails. */
  ghost function GovStep(t: GovTracked, ctx: Ctx, e: GovEvent): (t': GovTracked)
  {
    match ExecuteGov(t.g, ctx, e)
    case Ok(g') => GovTracked(g', RecordGov(t.h, t.g, ctx, e))
    case Err(_) => t
  }

  datatype GovCall = GovCall(ctx: Ctx, event: GovEvent)

  ghost function GovRun(t: GovTracked, calls: seq<GovCall>): (t': GovTracked)
    decreases |calls|
  {
    if calls == [] then t else GovRun(GovStep(t, calls[0].ctx, calls[0].event), calls[1..])
  }

  ghost predicate GovInitial(t: GovTracked)
  {
    && t.g.config.nextProposalId == 0 && t.g.proposals == map[] && t.g.records == map[]
    && t.h == GovHistory(map[], map[], [], [])
  }

  // ---- what the ballots say ----

  /** A ballot counts each token in the wallet once and each staked token twice. */
  function BallotWeight(b: Ballot): (w: nat) { b.wallet + b.stake + b.stake }

  /** The weight cast for one option of one proposal. */
  function Tally(ballots: seq<Ballot>, pid: u64, option: nat): (w: nat)
  {
    if ballots == [] then 0
    else
      var b := ballots[|ballots| - 1];
      Tally(ballots[..|ballots| - 1], pid, option) + (if b.pid == pid && b.option == option then BallotWeight(b) else 0)
  }

  /** The weight cast on one proposal, whatever the option. */
  function Turnout(ballots: seq<Ballot>, pid: u64): (w: nat)
  {
    if ballots == [] then 0
    else
      var b := ballots[|ballots| - 1];
      Turnout(ballots[..|ballots| - 1], pid) + (if b.pid == pid then BallotWeight(b) else 0)
  }

  function SeqSum(s: seq<u64>): (n: nat)
  {
    if s == [] then 0 else SeqSum(s[..|s| - 1]) + s[|s| - 1]
  }

  ghost predicate Tallied(p: Proposal, ballots: seq<Ballot>)
  {
    && (forall i: nat :: i < |p.voteCounts| ==> p.voteCounts[i] == Tally(ballots, p.id, i))
    && p.totalVoteWeight == Turnout(ballots, p.id) == SeqSum(p.voteCounts)
  }

  // ---- the invariant ----

  /** The form a proposal was created with, at that time and pool weight. */
  predicate Shape(p: Proposal, c: Creation)
  {
    && MIN_PROPOSAL_OPTIONS <= |p.options| <= MAX_PROPOSAL_OPTIONS
    && |p.voteCounts| == |p.options|
    && c.at <= p.votingStarts
    && p.quorumSnapshot == c.weight
    && p.votingStarts + MIN_VOTING_PERIOD_SECONDS <= p.votingEnds
    && p.proposer == c.proposer && p.title == c.draft.title && p.descriptionUri == c.draft.descriptionUri
    && p.proposalType == c.draft.proposalType && p.options == c.draft.options
    && p.votingStarts == c.draft.votingStarts && p.votingEnds == c.draft.votingEnds
  }

  /** Option `i` beat every other option, with the quorum asked for at closing time. */
  predicate Carried(p: Proposal, bps: u16, i: nat)
  {
    p.totalVoteWeight > 0 && QuorumMet(p, bps) && Leads(p.voteCounts, i)
  }

  /** The recorded winner is the option that carried, if one did. */
  predicate WinnerRecorded(p: Proposal, bps: u16)
  {
    && (forall i: nat :: i < |p.voteCounts| ==> (Carried(p, bps, i) <==> p.winningOptionIndex == i))
    && (p.winningOptionIndex == UNRESOLVED || p.winningOptionIndex < |p.voteCounts|)
  }

  predicate Lifecycle(p: Proposal, h: GovHistory)
  {
    if p.status == VOTING then
      p.id !in h.closings && p.passedAt == 0 && p.winningOptionIndex == UNRESOLVED && !p.executed
    else
      && p.id in h.closings
      && p.votingEnds <= h.closings[p.id].at
      && WinnerRecorded(p, h.closings[p.id].bps)
      && p.status == (if p.winningOptionIndex == 0 then PASSED else REJECTED)
      && p.passedAt == (if p.status == PASSED then h.closings[p.id].at else 0)
      && (p.executed ==> p.status == PASSED)
  }

  predicate BallotOk(g: Gov, b: Ballot)
  {
    && b.pid in g.proposals
    && b.option < |g.proposals[b.pid].voteCounts|
    && 0 < BallotWeight(b)
    && (g.proposals[b.pid].status == VOTING ==> (b.pid, b.voter) in g.records)
  }

  predicate OneVoteEach(ballots: seq<Ballot>)
  {
    forall i, j :: 0 <= i < j < |ballots| ==> (ballots[i].pid, ballots[i].voter) != (ballots[j].pid, ballots[j].voter)
  }

  predicate OnceOnly(openings: seq<Opening>)
  {
    forall i, j :: 0 <= i < j < |openings| ==> openings[i].pid != openings[j].pid
  }

  /** A stored vote record is that of a ballot. */
  predicate RecordsBallot(ballots: seq<Ballot>, k: (u64, Pubkey), r: VoteRecord)
  {
    exists i :: 0 <= i < |ballots| && Matching(ballots[i], k, r)
  }

  predicate Matching(b: Ballot, k: (u64, Pubkey), r: VoteRecord)
  {
    && b.pid == k.0 == r.proposalId && b.voter == k.1 == r.voter
    && r.optionIndex == b.option && r.weight == BallotWeight(b) && r.votedAt == b.at
  }

  /** The proposal asked for a sale and had passed, the caller was entitled, and the delay has run from its
      passing whenever that time is positive. */
  predicate OpeningOk(t: GovTracked, o: Opening)
  {
    && o.pid in t.g.proposals
    && t.g.proposals[o.pid].executed
    && t.g.proposals[o.pid].proposalType == 1
    && (o.caller == o.owner || (o.caller == o.crank && o.autoExecute))
    && (0 < t.g.proposals[o.pid].passedAt ==> t.g.proposals[o.pid].passedAt + MIN_EXECUTION_DELAY_SECONDS <= o.at)
  }

  predicate Opens(openings: seq<Opening>, pid: u64)
  {
    exists i :: 0 <= i < |openings| && openings[i].pid == pid
  }

  ghost predicate ProposalOk(t: GovTracked, id: u64)
    requires id in t.g.proposals
  {
    var p := t.g.proposals[id];
    && p.id == id < t.g.config.nextProposalId
    && id in t.h.creations && Shape(p, t.h.creations[id])
    && Tallied(p, t.h.ballots)
    && Lifecycle(p, t.h)
    && (p.executed ==> Opens(t.h.openings, id))
  }

  ghost predicate GovInv(t: GovTracked)
  {
    && (forall id :: id in t.g.proposals ==> ProposalOk(t, id))
    && (forall id :: id in t.h.closings ==> id in t.g.proposals)
    && (forall i :: 0 <= i < |t.h.ballots| ==> BallotOk(t.g, t.h.ballots[i]))
    && OneVoteEach(t.h.ballots)
    && (forall k :: k in t.g.records ==> RecordsBallot(t.h.ballots, k, t.g.records[k]))
    && (forall i :: 0 <= i < |t.h.openings| ==> OpeningOk(t, t.h.openings[i]))
    && OnceOnly(t.h.openings)
  }

  // ---- sums ----

  lemma {:induction false} TallyNone(ballots: seq<Ballot>, pid: u64)
    requires forall i :: 0 <= i < |ballots| ==> ballots[i].pid != pid
    ensures Turnout(ballots, pid) == 0 && forall option: nat :: Tally(ballots, pid, option) == 0
  {
    if ballots != [] {
      TallyNone(ballots[..|ballots| - 1], pid);
    }
  }

  lemma {:induction false} SumOfZeros(s: seq<u64>)
    requires AllZero(s)
    ensures SeqSum(s) == 0
  {
    if s != [] {
      SumOfZeros(s[..|s| - 1]);
    }
  }

  lemma {:induction false} SumUpdated(s: seq<u64>, i: nat, v: u64)
    requires i < |s|
    ensures SeqSum(s[i := v]) == SeqSum(s) - s[i] + v
  {
    var last := |s| - 1;
    if i < last {
      assert s[i := v][..last] == s[..last][i := v];
      SumUpdated(s[..last], i, v);
    } else {
      assert s[i := v][..last] == s[..last];
    }
  }

  lemma TallyAppend(ballots: seq<Ballot>, b: Ballot, pid: u64)
    ensures forall option: nat ::
              Tally(ballots + [b], pid, option)
              == Tally(ballots, pid, option) + (if b.pid == pid && b.option == option then BallotWeight(b) else 0)
    ensures Turnout(ballots + [b], pid) == Turnout(ballots, pid) + (if b.pid == pid then BallotWeight(b) else 0)
  {
  }

  // ---- every step keeps the invariant ----

  /** `id` is the only proposal a step touches, and any new ballot is on it. */
  ghost predicate Touches(t: GovTracked, t': GovTracked, id: u64)
  {
    && t'.g.proposals.Keys == t.g.proposals.Keys + {id}
    && t.g.config.nextProposalId <= t'.g.config.nextProposalId
    && (forall j :: j in t.g.proposals && j != id ==> t'.g.proposals[j] == t.g.proposals[j])
    && (forall j :: j in t.h.creations && j != id ==> j in t'.h.creations && t'.h.creations[j] == t.h.creations[j])
    && (forall j :: j in t.h.closings ==> j in t'.h.closings && (j != id ==> t'.h.closings[j] == t.h.closings[j]))
    && (forall j :: j in t'.h.closings && j != id ==> j in t.h.closings)
    && |t.h.openings| <= |t'.h.openings| && t'.h.openings[..|t.h.openings|] == t.h.openings
    && (t'.h.ballots == t.h.ballots
        || (|t'.h.ballots| == |t.h.ballots| + 1 && t'.h.ballots[..|t.h.ballots|] == t.h.ballots
            && t'.h.ballots[|t.h.ballots|].pid == id))
  }

  lemma OthersKept(t: GovTracked, t': GovTracked, id: u64, j: u64)
    requires Touches(t, t', id) && j != id && j in t.g.proposals && ProposalOk(t, j)
    ensures ProposalOk(t', j)
  {
  }

  /** Old ballots stay in order: open proposals keep their records, and none is reopened. */
  lemma BallotsKept(t: GovTracked, t': GovTracked)
    requires forall i :: 0 <= i < |t.h.ballots| ==> BallotOk(t.g, t.h.ballots[i])
    requires forall j :: j in t.g.proposals ==>
               && j in t'.g.proposals
               && |t'.g.proposals[j].voteCounts| == |t.g.proposals[j].voteCounts|
               && (t'.g.proposals[j].status == VOTING ==> t.g.proposals[j].status == VOTING)
    requires forall k :: k in t.g.records && k.0 in t'.g.proposals && t'.g.proposals[k.0].status == VOTING ==>
               k in t'.g.records
    ensures forall i :: 0 <= i < |t.h.ballots| ==> BallotOk(t'.g, t.h.ballots[i])
  {
  }

  lemma OpeningsKept(t: GovTracked, t': GovTracked)
    requires forall i :: 0 <= i < |t.h.openings| ==> OpeningOk(t, t.h.openings[i])
    requires forall j :: j in t.g.proposals ==>
               && j in t'.g.proposals
               && (t.g.proposals[j].executed ==>
                    && t'.g.proposals[j].executed && t'.g.proposals[j].passedAt == t.g.proposals[j].passedAt
                    && t'.g.proposals[j].proposalType == t.g.proposals[j].proposalType)
    ensures forall i :: 0 <= i < |t.h.openings| ==> OpeningOk(t', t.h.openings[i])
  {
  }

  lemma CreatedOk(t: GovTracked, ctx: Ctx, authority: Pubkey, d: Draft)
    requires GovInv(t) && CreateProposal(t.g, ctx, authority, d).Ok?
    ensures ProposalOk(GovStep(t, ctx, CreateEvent(authority, d)), t.g.config.nextProposalId)
  {
    hide WinnerRecorded, Tally, Turnout;
    var id := t.g.config.nextProposalId;
    forall i | 0 <= i < |t.h.ballots| ensures t.h.ballots[i].pid != id {
      assert BallotOk(t.g, t.h.ballots[i]);
    }
    TallyNone(t.h.ballots, id);
    SumOfZeros(GovStep(t, ctx, CreateEvent(authority, d)).g.proposals[id].voteCounts);
  }

  lemma CreateKeepsInv(t: GovTracked, ctx: Ctx, authority: Pubkey, d: Draft)
    requires GovInv(t) && CreateProposal(t.g, ctx, authority, d).Ok?
    ensures GovInv(GovStep(t, ctx, CreateEvent(authority, d)))
  {
    hide ProposalOk;
    var t' := GovStep(t, ctx, CreateEvent(authority, d));
    CreatedOk(t, ctx, authority, d);
    forall j | j in t.g.proposals ensures ProposalOk(t', j) {
      OthersKept(t, t', t.g.config.nextProposalId, j);
    }
    BallotsKept(t, t');
    OpeningsKept(t, t');
  }

  /** A vote moves the counts, their sum and the turnout together. */
  lemma VoteKeepsTally(p: Proposal, ballots: seq<Ballot>, b: Ballot, p': Proposal)
    requires Tallied(p, ballots) && b.pid == p.id && b.option < |p.voteCounts|
    requires p.voteCounts[b.option] + BallotWeight(b) <= U64_MAX && p.totalVoteWeight + BallotWeight(b) <= U128_MAX
    requires p' == p.(voteCounts := p.voteCounts[b.option := p.voteCounts[b.option] + BallotWeight(b)],
                      totalVoteWeight := p.totalVoteWeight + BallotWeight(b))
    ensures Tallied(p', ballots + [b])
  {
    TallyAppend(ballots, b, p.id);
    SumUpdated(p.voteCounts, b.option, p.voteCounts[b.option] + BallotWeight(b));
    hide Tally, Turnout, SeqSum;
  }

  lemma RecordsGrow(ballots: seq<Ballot>, b: Ballot)
    ensures forall k, r :: RecordsBallot(ballots, k, r) ==> RecordsBallot(ballots + [b], k, r)
    ensures forall k, r :: Matching(b, k, r) ==> RecordsBallot(ballots + [b], k, r)
  {
    forall k, r | RecordsBallot(ballots, k, r) ensures RecordsBallot(ballots + [b], k, r) {
      var i :| 0 <= i < |ballots| && Matching(ballots[i], k, r);
      assert Matching((ballots + [b])[i], k, r);
    }
    forall k, r | Matching(b, k, r) ensures RecordsBallot(ballots + [b], k, r) {
      assert Matching((ballots + [b])[|ballots|], k, r);
    }
  }

  lemma VotedOk(t: GovTracked, ctx: Ctx, voter: Pubkey, id: u64, option: u8, wallet: u64, staked: u64)
    requires GovInv(t) && CastVote(t.g, ctx, voter, id, option, wallet, staked).Ok?
    ensures ProposalOk(GovStep(t, ctx, VoteEvent(voter, id, option, wallet, staked)), id)
  {
    hide WinnerRecorded, Tallied;
    assert ProposalOk(t, id);
    VoteKeepsTally(t.g.proposals[id], t.h.ballots, Ballot(id, voter, option, wallet, staked, ctx.now),
                   GovStep(t, ctx, VoteEvent(voter, id, option, wallet, staked)).g.proposals[id]);
  }

  lemma VoteKeepsInv(t: GovTracked, ctx: Ctx, voter: Pubkey, id: u64, option: u8, wallet: u64, staked: u64)
    requires GovInv(t) && CastVote(t.g, ctx, voter, id, option, wallet, staked).Ok?
    ensures GovInv(GovStep(t, ctx, VoteEvent(voter, id, option, wallet, staked)))
  {
    hide ProposalOk;
    var t' := GovStep(t, ctx, VoteEvent(voter, id, option, wallet, staked));
    VotedOk(t, ctx, voter, id, option, wallet, staked);
    forall j | j in t'.g.proposals && j != id ensures ProposalOk(t', j) {
      OthersKept(t, t', id, j);
    }
    BallotsKept(t, t');
    var b := Ballot(id, voter, option, wallet, staked, ctx.now);
    assert BallotOk(t'.g, b);
    RecordsGrow(t.h.ballots, b);
    assert Matching(t'.h.ballots[|t.h.ballots|], (id, voter), t'.g.records[(id, voter)]);
    hide RecordsBallot;
    forall i | 0 <= i < |t.h.ballots| ensures (t.h.ballots[i].pid, t.h.ballots[i].voter) != (id, voter) {
      assert BallotOk(t.g, t.h.ballots[i]);
    }
    OpeningsKept(t, t');
  }

  /** The counts of a proposal with a turnout cannot all be zero: they add up to it. */
  lemma DecidedLifecycle(p: Proposal, bps: u16, now: i64)
    requires 2 <= |p.voteCounts| <= MAX_PROPOSAL_OPTIONS && SeqSum(p.voteCounts) == p.totalVoteWeight
    requires p.passedAt == 0
    ensures var p' := Decided(p, bps, now);
            && WinnerRecorded(p', bps)
            && p'.status == (if p'.winningOptionIndex == 0 then PASSED else REJECTED)
            && p'.passedAt == (if p'.status == PASSED then now else 0)
            && p' == p.(status := p'.status, passedAt := p'.passedAt, winningOptionIndex := p'.winningOptionIndex)
  {
    if AllZero(p.voteCounts) {
      SumOfZeros(p.voteCounts);
    } else {
      WinnerLeads(p.voteCounts);
    }
    hide RequiredWeight, SeqSum, QuorumMet, Winner, Leads;
  }

  /** Where somebody has weight, the winner is the option that leads, if one does. */
  lemma WinnerLeads(counts: seq<u64>)
    requires counts != [] && !AllZero(counts)
    ensures match Winner(counts)
            case None => forall i: nat :: !Leads(counts, i)
            case Some(w) => Leads(counts, w) && forall i: nat :: Leads(counts, i) ==> i == w
  {
  }

  /** The verdict reads only the counts, the turnout, the snapshot and the recorded winner. */
  lemma SameVerdict(p: Proposal, p': Proposal, bps: u16)
    requires p'.voteCounts == p.voteCounts && p'.totalVoteWeight == p.totalVoteWeight
    requires p'.quorumSnapshot == p.quorumSnapshot
    requires p'.winningOptionIndex == p.winningOptionIndex
    ensures WinnerRecorded(p', bps) == WinnerRecorded(p, bps)
  {
    assert forall i: nat :: Carried(p', bps, i) == Carried(p, bps, i);
  }

  lemma ClosedOk(t: GovTracked, ctx: Ctx, id: u64)
    requires GovInv(t) && CloseProposal(t.g, ctx, id).Ok?
    ensures var t' := GovStep(t, ctx, CloseEvent(id));
            && ProposalOk(t', id) && !t.g.proposals[id].executed
            && |t'.g.proposals[id].voteCounts| == |t.g.proposals[id].voteCounts|
            && t'.g.proposals[id].status != VOTING
  {
    hide Decided, WinnerRecorded, Tally, Turnout, SeqSum;
    var t' := GovStep(t, ctx, CloseEvent(id));
    assert ProposalOk(t, id);
    DecidedLifecycle(t.g.proposals[id], t.g.config.minQuorumBps, ctx.now);
  }

  lemma CloseKeepsInv(t: GovTracked, ctx: Ctx, id: u64)
    requires GovInv(t) && CloseProposal(t.g, ctx, id).Ok?
    ensures GovInv(GovStep(t, ctx, CloseEvent(id)))
  {
    hide ProposalOk, Decided;
    var t' := GovStep(t, ctx, CloseEvent(id));
    ClosedOk(t, ctx, id);
    forall j | j in t'.g.proposals && j != id ensures ProposalOk(t', j) {
      OthersKept(t, t', id, j);
    }
    BallotsKept(t, t');
    OpeningsKept(t, t');
  }

  lemma SameShape(p: Proposal, p': Proposal, c: Creation)
    requires Shape(p, c) && p' == p.(executed := p'.executed)
    ensures Shape(p', c)
  {
  }

  lemma OpenedOk(t: GovTracked, ctx: Ctx, authority: Pubkey, id: u64, key: ExitKey, position: Pubkey, bump: u8)
    requires GovInv(t) && GovernanceInitiateExit(t.g, ctx, authority, id, key, position, bump).Ok?
    ensures var t' := GovStep(t, ctx, GovExitEvent(authority, id, key, position, bump));
            ProposalOk(t', id) && OpeningOk(t', OpeningBy(t.g, ctx, authority, id, key))
  {
    hide WinnerRecorded, Tally, Turnout, SeqSum, Shape;
    var t' := GovStep(t, ctx, GovExitEvent(authority, id, key, position, bump));
    assert ProposalOk(t, id);
    SameVerdict(t.g.proposals[id], t'.g.proposals[id], t.h.closings[id].bps);
    SameShape(t.g.proposals[id], t'.g.proposals[id], t.h.creations[id]);
    assert t'.h.openings[|t.h.openings|].pid == id;
  }

  /** What opening an exit changes: the exit, the mark on the proposal, and one more opening. */
  lemma OpenEffect(t: GovTracked, ctx: Ctx, authority: Pubkey, id: u64, key: ExitKey, position: Pubkey, bump: u8)
    requires GovernanceInitiateExit(t.g, ctx, authority, id, key, position, bump).Ok?
    ensures var t' := GovStep(t, ctx, GovExitEvent(authority, id, key, position, bump));
            && id in t.g.proposals && !t.g.proposals[id].executed
            && t'.g == t.g.(exits := t'.g.exits, proposals := t.g.proposals[id := t.g.proposals[id].(executed := true)])
            && t'.h == t.h.(openings := t.h.openings + [OpeningBy(t.g, ctx, authority, id, key)])
  {
    hide SaturatingSub;
  }

  lemma OpenKeepsInv(t: GovTracked, ctx: Ctx, authority: Pubkey, id: u64, key: ExitKey, position: Pubkey, bump: u8)
    requires GovInv(t) && GovernanceInitiateExit(t.g, ctx, authority, id, key, position, bump).Ok?
    ensures GovInv(GovStep(t, ctx, GovExitEvent(authority, id, key, position, bump)))
  {
    hide ProposalOk, GovStep, GovernanceInitiateExit;
    var t' := GovStep(t, ctx, GovExitEvent(authority, id, key, position, bump));
    OpenEffect(t, ctx, authority, id, key, position, bump);
    OpenedOk(t, ctx, authority, id, key, position, bump);
    forall i | 0 <= i < |t.h.openings| ensures t.h.openings[i].pid != id {
      assert OpeningOk(t, t.h.openings[i]);
    }
    forall j | j in t'.g.proposals && j != id ensures ProposalOk(t', j) {
      OthersKept(t, t', id, j);
    }
    BallotsKept(t, t');
    OpeningsKept(t, t');
  }

  /** Deleting a vote record is safe: the proposal it voted on is no longer open for votes. */
  lemma CloseRecordKeepsInv(t: GovTracked, ctx: Ctx, voter: Pubkey, id: u64)
    requires GovInv(t) && CloseVoteRecord(t.g, voter, id).Ok?
    ensures GovInv(GovStep(t, ctx, CloseRecordEvent(voter, id)))
  {
    hide Tallied, Lifecycle, Shape, RecordsBallot;
    var t' := GovStep(t, ctx, CloseRecordEvent(voter, id));
    forall j | j in t'.g.proposals ensures ProposalOk(t', j) { assert ProposalOk(t, j); }
    forall i | 0 <= i < |t'.h.ballots| ensures BallotOk(t'.g, t'.h.ballots[i]) {
      assert BallotOk(t.g, t.h.ballots[i]);
    }
    forall i | 0 <= i < |t'.h.openings| ensures OpeningOk(t', t'.h.openings[i]) {
      assert OpeningOk(t, t.h.openings[i]);
    }
  }

  /** Configuration and exit instructions leave proposals, records and their history alone. */
  lemma SameProposals(t: GovTracked, t': GovTracked)
    requires GovInv(t) && t'.h == t.h
    requires t'.g.proposals == t.g.proposals && t'.g.records == t.g.records
    requires t'.g.config.nextProposalId == t.g.config.nextProposalId
    ensures GovInv(t')
  {
    forall j | j in t'.g.proposals ensures ProposalOk(t', j) { assert ProposalOk(t, j); }
    forall i | 0 <= i < |t'.h.ballots| ensures BallotOk(t'.g, t'.h.ballots[i]) {
      assert BallotOk(t.g, t.h.ballots[i]);
    }
    forall i | 0 <= i < |t'.h.openings| ensures OpeningOk(t', t'.h.openings[i]) {
      assert OpeningOk(t, t.h.openings[i]);
    }
  }

  lemma GovStepKeepsInv(t: GovTracked, ctx: Ctx, e: GovEvent)
    requires GovInv(t)
    ensures GovInv(GovStep(t, ctx, e))
  {
    hide GovInv, CreateProposal, CastVote, CloseProposal, GovernanceInitiateExit, CloseVoteRecord;
    if ExecuteGov(t.g, ctx, e).Ok? {
      match e
      case CreateEvent(authority, d) => CreateKeepsInv(t, ctx, authority, d);
      case VoteEvent(voter, id, option, wallet, staked) => VoteKeepsInv(t, ctx, voter, id, option, wallet, staked);
      case CloseEvent(id) => CloseKeepsInv(t, ctx, id);
      case CloseRecordEvent(voter, id) => CloseRecordKeepsInv(t, ctx, voter, id);
      case GovExitEvent(authority, id, key, position, bump) =>
        OpenKeepsInv(t, ctx, authority, id, key, position, bump);
      case _ => SameProposals(t, GovStep(t, ctx, e));
    }
  }

  lemma {:induction false} GovRunKeepsInv(t: GovTracked, calls: seq<GovCall>)
    requires GovInv(t)
    ensures GovInv(GovRun(t, calls))
    decreases |calls|
  {
    hide GovStep, GovInv;
    if calls != [] {
      GovStepKeepsInv(t, calls[0].ctx, calls[0].event);
      GovRunKeepsInv(GovStep(t, calls[0].ctx, calls[0].event), calls[1..]);
    }
  }

  lemma InitialGovInv(t: GovTracked)
    requires GovInitial(t)
    ensures GovInv(t)
  {
  }
}
