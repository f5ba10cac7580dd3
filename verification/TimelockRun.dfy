/** A run on negative clocks, in which the execution delay is skipped: the proposal passes at a negative
    time and its exit opens at once, 24 hours after the proposal was created. */
module TimelockRun {
  import opened Numeric
  import opened Exits
  import opened Governance
  import opened VoteLedger

  const START: i64 := -200_000
  const END: i64 := -113_600
  const VOTER: Pubkey := [7]

  function At(now: i64): (c: Ctx) { Ctx(now, [], [], [], false, 0) }

  // ---- the calls, in order ----

  const PLAN: Draft := Draft([1], [], PROPOSAL_TYPE_SELL, [[1], [2]], START, END)
  const CREATE: GovCall := GovCall(At(START), CreateEvent([], PLAN))
  const VOTE: GovCall := GovCall(At(START), VoteEvent(VOTER, 0, 0, 1, 0))
  const CLOSE: GovCall := GovCall(At(END), CloseEvent(0))

  function Open(key: ExitKey): (c: GovCall) { GovCall(At(END), GovExitEvent([], 0, key, [], 0)) }

  // ---- the states between them ----

  function Sale(counts: seq<u64>, total: u128): (p: Proposal)
  {
    Proposal(0, [], [1], [], PROPOSAL_TYPE_SELL, [[1], [2]], counts, START, END, VOTING, total, UNRESOLVED, false, 0, 0)
  }

  const CONFIG: Config := Config(1, false, 0)
  const CREATED: map<u64, Creation> := map[0 := Creation(START, 0, [], PLAN)]
  const RECORDS: map<(u64, Pubkey), VoteRecord> := map[(0, VOTER) := VoteRecord(0, VOTER, 0, 1, START)]

  function Empty(): (t: GovTracked)
  {
    GovTracked(Gov(Config(0, false, 0), map[], map[], map[]), GovHistory(map[], map[], [], []))
  }

  function Created(): (t: GovTracked)
  {
    GovTracked(Gov(CONFIG, map[0 := Sale([0, 0], 0)], map[], map[]), GovHistory(CREATED, map[], [], []))
  }

  function Voted(): (t: GovTracked)
  {
    GovTracked(Gov(CONFIG, map[0 := Sale([1, 0], 1)], RECORDS, map[]),
               GovHistory(CREATED, map[], [Ballot(0, VOTER, 0, 1, 0, START)], []))
  }

  function Passed(): (p: Proposal)
  {
    Sale([1, 0], 1).(status := PASSED, winningOptionIndex := 0, passedAt := END)
  }

  function Closed(): (t: GovTracked)
  {
    GovTracked(Gov(CONFIG, map[0 := Passed()], RECORDS, map[]),
               GovHistory(CREATED, map[0 := Closing(END, 0)], [Ballot(0, VOTER, 0, 1, 0, START)], []))
  }

  lemma CreateStep()
    ensures GovStep(Empty(), CREATE.ctx, CREATE.event) == Created()
  {
    assert seq(2, _ => 0) == [0, 0];
  }

  lemma VoteStep()
    ensures GovStep(Created(), VOTE.ctx, VOTE.event) == Voted()
  {
    assert [0, 0][0 := 1] == [1, 0];
    assert Created().g.proposals[0 := Sale([1, 0], 1)] == Voted().g.proposals;
  }

  lemma CloseStep()
    ensures GovStep(Voted(), CLOSE.ctx, CLOSE.event) == Closed()
  {
    assert Leads([1, 0], 0) && !Leads([1, 0], 1) && !AllZero([1, 0]);
    assert Winner([1, 0]) == Some(0);
    assert Voted().g.proposals[0 := Passed()] == Closed().g.proposals;
  }

  lemma OpenStep(key: ExitKey)
    ensures GovStep(Closed(), Open(key).ctx, Open(key).event).h
         == Closed().h.(openings := [Opening(0, key, END, [], [], [], false)])
    ensures var exits := GovStep(Closed(), Open(key).ctx, Open(key).event).g.exits;
            key in exits && exits[key].createdAt == END
  {
  }

  /** From an empty start the four calls open an exit 24 hours after its proposal was created. */
  lemma TimelockSkipped(key: ExitKey)
    ensures GovInitial(Empty())
    ensures var t := GovRun(Empty(), [CREATE, VOTE, CLOSE, Open(key)]);
            && t.h.openings == [Opening(0, key, END, [], [], [], false)] && 0 in t.h.creations
            && t.h.creations[0].at + 24 * 60 * 60 == t.h.openings[0].at
            && key in t.g.exits && t.g.exits[key].createdAt == END
  {
    CreateStep();
    VoteStep();
    CloseStep();
    OpenStep(key);
    FirstCall(Empty(), CREATE, [VOTE, CLOSE, Open(key)]);
    FirstCall(Created(), VOTE, [CLOSE, Open(key)]);
    FirstCall(Voted(), CLOSE, [Open(key)]);
    FirstCall(Closed(), Open(key), []);
    hide GovStep;
    assert [CREATE] + [VOTE, CLOSE, Open(key)] == [CREATE, VOTE, CLOSE, Open(key)];
    assert [VOTE] + [CLOSE, Open(key)] == [VOTE, CLOSE, Open(key)];
    assert [CLOSE] + [Open(key)] == [CLOSE, Open(key)];
    assert [Open(key)] + [] == [Open(key)];
  }

  lemma FirstCall(t: GovTracked, c: GovCall, rest: seq<GovCall>)
    ensures GovRun(t, [c] + rest) == GovRun(GovStep(t, c.ctx, c.event), rest)
  {
    assert ([c] + rest)[1..] == rest;
  }
}
