/** What governance promises: one counted vote per voter, a verdict that is the voters', and exits that
    wait and happen once. */
module Voting {
  import opened Numeric
  import opened Exits
  import opened Governance
  import opened VoteLedger

  // ---- the verdict ----

  /** Closing passes a proposal exactly when somebody voted, the quorum is met, and option 0 beats every
      other option or no option has any weight. */
  lemma PassesExactly(g: Gov, ctx: Ctx, id: u64)
    requires CloseProposal(g, ctx, id).Ok?
    ensures var p := g.proposals[id];
            CloseProposal(g, ctx, id).value.proposals[id].status == PASSED
            <==> p.totalVoteWeight > 0 && QuorumMet(p, g.config.minQuorumBps)
                 && (Leads(p.voteCounts, 0) || AllZero(p.voteCounts))
  {
  }

  /** The all-zero case is real for counts that do not add up to the turnout: such a proposal would pass. */
  lemma AllZeroPasses()
    ensures exists g: Gov, ctx: Ctx ::
              CloseProposal(g, ctx, 0).Ok? && CloseProposal(g, ctx, 0).value.proposals[0].status == PASSED
              && g.proposals[0].voteCounts == [0, 0]
  {
    var p := Proposal(0, [], [1], [], PROPOSAL_TYPE_SELL, [[1], [2]], [0, 0], 0, MIN_VOTING_PERIOD_SECONDS, VOTING,
                      1, UNRESOLVED, false, 0, 0);
    var g := Gov(Config(1, false, 0), map[0 := p], map[], map[]);
    var ctx := Ctx(MIN_VOTING_PERIOD_SECONDS, [], [], [], false, 0);
    assert g.proposals[0] == p;
    assert AllZero(p.voteCounts);
    assert CloseProposal(g, ctx, 0).Ok?;
  }

  /** Two options share the highest count, and it is positive: what the loop's tie flag stands for. */
  predicate SharedLead(counts: seq<u64>)
  {
    exists i, j :: 0 <= i < j < |counts| && 0 < counts[i] == counts[j]
                   && forall k :: 0 <= k < |counts| ==> counts[k] <= counts[i]
  }

  lemma {:induction false} HighestExists(counts: seq<u64>) returns (i: nat)
    requires counts != []
    ensures i < |counts| && forall k :: 0 <= k < |counts| ==> counts[k] <= counts[i]
  {
    i := 0;
    if |counts| > 1 {
      var last := |counts| - 1;
      i := HighestExists(counts[..last]);
      assert forall k :: 0 <= k < last ==> counts[k] == counts[..last][k];
      if counts[i] < counts[last] { i := last; }
    }
  }

  /** There is no winner exactly when the highest positive count is shared. */
  lemma NoWinnerMeansTie(counts: seq<u64>)
    requires counts != []
    ensures Winner(counts) == None <==> SharedLead(counts)
  {
    var i := HighestExists(counts);
    if !AllZero(counts) {
      if j: nat :| j < |counts| && j != i && counts[j] == counts[i] {
        var lo, hi := if i < j then i else j, if i < j then j else i;
        assert 0 < counts[lo] == counts[hi];
        assert SharedLead(counts);
      } else {
        assert Leads(counts, i);
      }
    }
  }

  /** The ballots give option `i` strictly more weight than every other of the `n` options. */
  predicate Prefers(ballots: seq<Ballot>, id: u64, n: nat, i: nat)
  {
    forall j: nat :: j < n && j != i ==> Tally(ballots, id, j) < Tally(ballots, id, i)
  }

  lemma LeadIsPreference(p: Proposal, ballots: seq<Ballot>)
    requires Tallied(p, ballots)
    ensures forall i: nat :: i < |p.voteCounts| ==>
              (Leads(p.voteCounts, i) <==> Prefers(ballots, p.id, |p.voteCounts|, i))
  {
    hide Tally, Turnout, SeqSum;
    forall i: nat | i < |p.voteCounts| && Leads(p.voteCounts, i)
      ensures Prefers(ballots, p.id, |p.voteCounts|, i)
    {
      forall j: nat | j < |p.voteCounts| && j != i ensures Tally(ballots, p.id, j) < Tally(ballots, p.id, i) {
        assert p.voteCounts[j] == Tally(ballots, p.id, j);
      }
    }
  }

  /** Somebody voted, and the turnout reaches the asked share of the weight the pool had at creation. */
  predicate Quorate(t: GovTracked, id: u64)
    requires id in t.h.creations && id in t.h.closings
  {
    && 0 < Turnout(t.h.ballots, id)
    && (t.h.closings[id].bps == 0
        || RequiredWeight(t.h.creations[id].weight, t.h.closings[id].bps) <= Turnout(t.h.ballots, id))
  }

  /** Option `i` is the recorded winner exactly when the vote was quorate and the ballots prefer `i` to
      every other option. */
  predicate WinsByBallots(t: GovTracked, id: u64, i: nat)
    requires id in t.g.proposals && id in t.h.creations && id in t.h.closings
  {
    t.g.proposals[id].winningOptionIndex == i
    <==> Quorate(t, id) && Prefers(t.h.ballots, id, |t.g.proposals[id].options|, i)
  }

  /** Every option wins or loses by the ballots, and the proposal is passed exactly when the first wins. */
  predicate VotersDecided(t: GovTracked, id: u64)
    requires id in t.g.proposals && id in t.h.creations && id in t.h.closings
  {
    var p := t.g.proposals[id];
    && (p.winningOptionIndex == UNRESOLVED || p.winningOptionIndex < |p.options|)
    && (forall i: nat :: i < |p.options| ==> WinsByBallots(t, id, i))
    && p.status == (if p.winningOptionIndex == 0 then PASSED else REJECTED)
  }

  lemma WinnerIsPreferred(t: GovTracked, id: u64)
    requires id in t.g.proposals && ProposalOk(t, id) && t.g.proposals[id].status != VOTING
    ensures VotersDecided(t, id)
  {
    hide RequiredWeight, Tally, Turnout, SeqSum;
    var p := t.g.proposals[id];
    LeadIsPreference(p, t.h.ballots);
    forall i: nat | i < |p.options| ensures WinsByBallots(t, id, i) {
      assert Carried(p, t.h.closings[id].bps, i) <==> p.winningOptionIndex == i;
    }
  }

  /** In every reachable state, what a closed proposal records is what the ballots ever cast on it say, at
      most one by each voter. */
  lemma VerdictIsTheVoters(t0: GovTracked, calls: seq<GovCall>, id: u64)
    requires GovInitial(t0)
    requires var t := GovRun(t0, calls); id in t.g.proposals && t.g.proposals[id].status != VOTING
    ensures var t := GovRun(t0, calls);
            OneVoteEach(t.h.ballots) && id in t.h.creations && id in t.h.closings && VotersDecided(t, id)
  {
    InitialGovInv(t0);
    GovRunKeepsInv(t0, calls);
    hide GovRun, VotersDecided, OneVoteEach;
    assert ProposalOk(GovRun(t0, calls), id);
    WinnerIsPreferred(GovRun(t0, calls), id);
  }

  /** A closed proposal that nobody voted on, or whose turnout fell short of its quorum, is rejected without a
      winner and never counts as passed. */
  lemma WithoutQuorumRejected(t0: GovTracked, calls: seq<GovCall>, id: u64)
    requires GovInitial(t0)
    requires var t := GovRun(t0, calls);
             id in t.g.proposals && t.g.proposals[id].status != 0 && id in t.h.creations && id in t.h.closings
             && !Quorate(t, id)
    ensures var p := GovRun(t0, calls).g.proposals[id];
            p.status == 2 && p.winningOptionIndex == 255 && p.passedAt == 0
  {
    VerdictIsTheVoters(t0, calls, id);
    InitialGovInv(t0);
    GovRunKeepsInv(t0, calls);
    hide GovRun, Quorate, Prefers, OneVoteEach;
    var t := GovRun(t0, calls);
    assert ProposalOk(t, id);
    var p := t.g.proposals[id];
    assert p.winningOptionIndex < |p.options| ==> WinsByBallots(t, id, p.winningOptionIndex);
  }

  // ---- each voter once ----

  /** A voter who has a ballot on a proposal cannot cast another, in any reachable state and at any time,
      also after the vote record is gone. */
  lemma NoSecondVote(t: GovTracked, ctx: Ctx, i: nat, option: u8, wallet: u64, staked: u64)
    requires GovInv(t) && i < |t.h.ballots|
    ensures var b := t.h.ballots[i]; CastVote(t.g, ctx, b.voter, b.pid, option, wallet, staked).Err?
  {
  }

  /** The order in which two voters' ballots arrive does not matter. */
  lemma VotesCommute(g: Gov, ctx: Ctx, id: u64, v: Pubkey, o: u8, w: u64, s: u64, v': Pubkey, o': u8, w': u64, s': u64)
    requires v != v'
    ensures var one := CastVote(g, ctx, v, id, o, w, s);
            var other := CastVote(g, ctx, v', id, o', w', s');
            one.Ok? && CastVote(one.value, ctx, v', id, o', w', s').Ok? ==>
              other.Ok? && CastVote(other.value, ctx, v, id, o, w, s) == CastVote(one.value, ctx, v', id, o', w', s')
  {
    var one := CastVote(g, ctx, v, id, o, w, s);
    if one.Ok? && CastVote(one.value, ctx, v', id, o', w', s').Ok? {
      SwappedVotesAccepted(g, ctx, id, v, o, w, s, v', o', w', s');
      SwappedVotesAgree(g, ctx, id, v, o, w, s, v', o', w', s');
    }
    hide CastVote;
  }

  lemma SwappedVotesAccepted(g: Gov, ctx: Ctx, id: u64, v: Pubkey, o: u8, w: u64, s: u64,
                             v': Pubkey, o': u8, w': u64, s': u64)
    requires v != v' && CastVote(g, ctx, v, id, o, w, s).Ok?
    requires CastVote(CastVote(g, ctx, v, id, o, w, s).value, ctx, v', id, o', w', s').Ok?
    ensures CastVote(g, ctx, v', id, o', w', s').Ok?
    ensures CastVote(CastVote(g, ctx, v', id, o', w', s').value, ctx, v, id, o, w, s).Ok?
  {
  }

  lemma SwappedVotesAgree(g: Gov, ctx: Ctx, id: u64, v: Pubkey, o: u8, w: u64, s: u64,
                          v': Pubkey, o': u8, w': u64, s': u64)
    requires v != v' && CastVote(g, ctx, v, id, o, w, s).Ok? && CastVote(g, ctx, v', id, o', w', s').Ok?
    requires CastVote(CastVote(g, ctx, v, id, o, w, s).value, ctx, v', id, o', w', s').Ok?
    requires CastVote(CastVote(g, ctx, v', id, o', w', s').value, ctx, v, id, o, w, s).Ok?
    ensures CastVote(CastVote(g, ctx, v, id, o, w, s).value, ctx, v', id, o', w', s')
         == CastVote(CastVote(g, ctx, v', id, o', w', s').value, ctx, v, id, o, w, s)
  {
    var a := CastVote(CastVote(g, ctx, v, id, o, w, s).value, ctx, v', id, o', w', s').value;
    var b := CastVote(CastVote(g, ctx, v', id, o', w', s').value, ctx, v, id, o, w, s).value;
    assert a.proposals[id].voteCounts == b.proposals[id].voteCounts;
    assert a.proposals == b.proposals;
    assert a.records == b.records;
  }

  predicate TouchesProposals(e: GovEvent)
  {
    e.CreateEvent? || e.VoteEvent? || e.CloseEvent? || e.GovExitEvent?
  }

  lemma ProposalsUntouched(t: GovTracked, ctx: Ctx, e: GovEvent)
    requires !TouchesProposals(e)
    ensures GovStep(t, ctx, e).g.proposals == t.g.proposals
  {
  }

  /** A decided proposal never changes again, except that its one execution is noted. */
  lemma DecisionIsFinal(t: GovTracked, ctx: Ctx, e: GovEvent, id: u64)
    requires GovInv(t) && id in t.g.proposals && t.g.proposals[id].status != VOTING
    ensures var p, g' := t.g.proposals[id], GovStep(t, ctx, e).g;
            id in g'.proposals && (g'.proposals[id] == p || (!p.executed && g'.proposals[id] == p.(executed := true)))
  {
    hide GovInv, ProposalOk, Decided, RecordGov, SaturatingSub;
    if TouchesProposals(e) {
      match e
      case CreateEvent(_, _) => IdsBelowNext(t, id);
      case VoteEvent(_, _, _, _, _) =>
      case CloseEvent(_) =>
      case GovExitEvent(_, _, _, _, _) =>
    } else {
      hide ExecuteGov;
      ProposalsUntouched(t, ctx, e);
    }
  }

  lemma IdsBelowNext(t: GovTracked, id: u64)
    requires GovInv(t) && id in t.g.proposals
    ensures id < t.g.config.nextProposalId
  {
  }

  // ---- the timelock ----

  /** Every exit that governance opens starts at least 72 hours after its proposal was created, provided
      clocks are not negative; it was asked for by the owner, or by the crank while auto-execution was on, for
      a proposal created as a sale; and no proposal opens two. */
  lemma ExitsWaitAndHappenOnce(t0: GovTracked, calls: seq<GovCall>, i: nat, j: nat)
    requires GovInitial(t0)
    requires var h := GovRun(t0, calls).h; i < |h.openings| && j < |h.openings|
    ensures var h := GovRun(t0, calls).h; var pid := h.openings[i].pid;
            && pid in h.creations
            && (0 <= h.creations[pid].at ==> h.creations[pid].at + 72 * 60 * 60 <= h.openings[i].at)
            && h.creations[pid].draft.proposalType == 1
            && (h.openings[i].caller == h.openings[i].owner
                || (h.openings[i].caller == h.openings[i].crank && h.openings[i].autoExecute))
            && (i != j ==> pid != h.openings[j].pid)
  {
    InitialGovInv(t0);
    GovRunKeepsInv(t0, calls);
    hide GovRun;
    var t := GovRun(t0, calls);
    assert OpeningOk(t, t.h.openings[i]) && OpeningOk(t, t.h.openings[j]);
    assert ProposalOk(t, t.h.openings[i].pid);
  }

  /** Whenever the history gains an opening, the same step stores a new Active exit under its key, created at
      the opening's time for its proposal. */
  lemma OpeningStoresExit(t: GovTracked, ctx: Ctx, e: GovEvent)
    ensures var t' := GovStep(t, ctx, e);
            t'.h.openings == t.h.openings
            || (&& |t'.h.openings| == |t.h.openings| + 1 && t'.h.openings[..|t.h.openings|] == t.h.openings
                && var o := t'.h.openings[|t.h.openings|];
                && o.key !in t.g.exits && o.key in t'.g.exits && t'.g.exits[o.key].createdAt == o.at
                && t'.g.exits[o.key].proposalId == o.pid && t'.g.exits[o.key].status == ACTIVE)
  {
    hide SaturatingSub, Decided, CreateProposal, CastVote, CloseProposal, CloseVoteRecord, HaltExits, InitiateExit,
         RecordClaim, CompleteExit, TerminateExit, CloseDlmmExit;
  }

  /** The handler itself waits exactly for proposals whose passing time is positive; the chain of time
      checks in creation and closing is what makes it positive. */
  lemma TimelockHolds(g: Gov, ctx: Ctx, authority: Pubkey, id: u64, key: ExitKey, position: Pubkey, bump: u8)
    requires id in g.proposals && key !in g.exits && !ctx.isPaused
    requires authority == ctx.owner || (authority == ctx.crank && g.config.autoExecute)
    requires var p := g.proposals[id];
             p.status == PASSED && p.winningOptionIndex == 0 && p.proposalType == PROPOSAL_TYPE_SELL && !p.executed
    ensures GovernanceInitiateExit(g, ctx, authority, id, key, position, bump).Ok?
            <==> g.proposals[id].passedAt <= 0 || g.proposals[id].passedAt + MIN_EXECUTION_DELAY_SECONDS <= ctx.now
  {
  }

  // ---- the life of an exit ----

  /** A claim recorded on an Active exit: more SOL, and nothing else but the amount remembered. */
  predicate Recorded(e: DlmmExit, e': DlmmExit)
  {
    && e.status == ACTIVE && e.totalSolClaimed < e'.totalSolClaimed
    && e'.lastClaimedAmount == e'.totalSolClaimed - e.totalSolClaimed && e'.lastClaimedAmount != e.lastClaimedAmount
    && e' == e.(totalSolClaimed := e'.totalSolClaimed, lastClaimedAmount := e'.lastClaimedAmount)
  }

  /** Every instruction leaves an exit alone, records a claim on it, finishes it, or deletes it, and does
      the second and third to Active exits only and the last to finished ones only; exits appear Active,
      empty, and only while the pool is not paused. */
  lemma ExitLifecycle(t: GovTracked, ctx: Ctx, e: GovEvent, key: ExitKey)
    ensures var before, after := t.g.exits, GovStep(t, ctx, e).g.exits;
            && (key in before && key in after ==>
                  || after[key] == before[key]
                  || Recorded(before[key], after[key])
                  || (before[key].status == ACTIVE && after[key] == Finished(before[key], COMPLETED, ctx.now))
                  || (before[key].status == ACTIVE && after[key] == Finished(before[key], TERMINATED, ctx.now)))
            && (key in before && key !in after ==> before[key].status != ACTIVE)
            && (key !in before && key in after ==>
                  !ctx.isPaused && after[key].status == ACTIVE && after[key].totalSolClaimed == 0
                  && after[key].assetMint == key.assetMint && after[key].dlmmPool == key.dlmmPool)
  {
    hide RecordGov, SaturatingSub, Decided;
    match e
    case InitiateEvent(_, _, _, _) =>
    case GovExitEvent(_, _, _, _, _) =>
    case RecordClaimEvent(_, _, _) =>
    case CompleteEvent(_, _) =>
    case TerminateEvent(_, _) =>
    case CloseExitEvent(_, _) =>
    case HaltEvent(_, _) =>
    case _ =>
  }
}
