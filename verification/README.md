# BRAIN staking: reward ledger, governance and DLMM exits

A verified model of the Solana program `brain-staking`: the reward-accumulator staking pool, the
proposals that can open DLMM exits, the exits themselves, and the emergency halt that patches exit
accounts byte by byte, together with the crank's decoder of those bytes.

`dafny verify dfyconfig.toml` checks the whole project.

## How it is laid out

Specification functions say what each instruction does to the accounts; classes with the program's own
checked, step-by-step handlers are proved equal to them; lemmas state what holds over all runs.

| files | content |
|---|---|
| Numeric, MapSums, Bytes | fixed-width integers and checked arithmetic, sums over maps, little-endian bytes |
| Rewards, Staking | tiers, settlement and the staking instructions as functions of the accounts |
| StakingProgram | the staking handlers, in place, one checked operation at a time |
| StakingForms, Journal | when stake, deposits and settings succeed and what they change; the accounts against a journal of the calls |
| RewardLedger, LedgerProofs | a history kept beside the accounts, and the exact balance every step keeps |
| Conservation, RoundingExcess | what the balance says about lamports, and a run that meets the bound |
| Solvency, OverflowRun | clocks that do not go back: no overflow, exactly when claim and unstake succeed, and a run showing the bound on the minimum stake is tight |
| ClosedForms | claim and unstake in one step: when they succeed, how they fail, what they change |
| Schedules | the order and the number of claims do not matter |
| ProRata, StepwiseShare | the accumulator refines an exact pro-rata split, through tier changes |
| Exits, Governance | the exit life cycle and the proposal instructions as functions of the accounts |
| GovernanceForms | when each of these instructions succeeds, how it is refused, what it changes |
| GovernanceProgram | their handlers, with the tally loop |
| VoteLedger, Voting, TimelockRun | the ballots ever cast, the invariant of every run, what follows from it, and a run that skips the timelock |
| ExitLayout, EmergencyHalt | the 210 bytes of an exit, the crank's decoder, and the halt loop over aliased accounts |
| World | all of it interleaved: quorum snapshots, and what an emergency halt freezes |

A run is any sequence of instructions, failing ones included; a failing instruction changes nothing.
Amounts marked [p] in the sources are in units of 1e-12 lamports.

## Where code and documentation differ

The model follows the code.

- "Total claimed is at most total net deposited" (fuzz_tests.rs:146-149) is not an invariant: rounding a
  debt down hands the position a fraction of a lamport. `Conservation` has the exact condition and the
  bound, `RoundingExcess` a run that exceeds the deposits.
- Forfeited rewards are said to be redistributed to the remaining stakers. Under a clock that does not go
  back the amount is always zero (`Solvency.RunKeepsTimely`).
- Voting weight is said to be the staked amount; the code adds the wallet balance to twice the stake.
- The emergency halt is said to terminate all Active exits; it terminates those it is given
  (`Exits.HaltStopsExactly`, `World.UnlistedExitSurvives`).
- The 48-hour timelock is skipped for a passing time of zero or less; no proposal created at a time that is
  not negative can have one (`Voting.TimelockHolds`, `Voting.ExitsWaitAndHappenOnce`, `TimelockRun`).
- The crank expects exit accounts of 202 bytes; the program writes 210, with `last_claimed_amount` before
  the bump (`ExitLayout.ViewExactly`, `ExitLayout.FreshViewWrong`).
- The fuzz simulation computes the fee in 128 bits and the handler in 64; the handler's overflow error is
  modelled.
- constants.rs:38 lacks its semicolon; the emergency threshold is read as 5,000,000,000 lamports.

## Model

| member | source | states |
|---|---|---|
| `Rewards.TierMonotone` | programs/brain-staking/src/helpers.rs:5-16 | For every pair of times, also where the subtraction saturates: the tier is reached exactly when 7, 30 or 90 days have passed, and never goes down |
| `Rewards.SettleIsForwardOnly` | programs/brain-staking/src/instructions/claim.rs:50-101 | For any old and new tier, settlement leaves what the position can be paid exactly as it was; only later deposits see the new weight |
| `StakingProgram.SettleMultiplier` | programs/brain-staking/src/instructions/claim.rs:50-101 | The chain of checked operations succeeds exactly when every intermediate value is in range, and then yields the settled position and the moved pool weight |
| `StakingProgram.CalculateOwed` | programs/brain-staking/src/instructions/claim.rs:109-128 | Succeeds exactly when the owed amount is in range; the total is what the position can be paid |
| `StakingProgram.Withdraw` | programs/brain-staking/src/instructions/claim.rs:140-159 | Pays exactly when the vault stays rent-exempt, tells the two failures apart, pauses the pool below 5 SOL, and does nothing for a zero amount |
| `StakingProgram.Collect` | programs/brain-staking/src/instructions/claim.rs:109-164 | Succeeds exactly when the owed amount is in range and the vault covers it; then either nothing is owed and nothing changes, or all of it is paid and the debt is current |
| `StakingProgram.Release` | programs/brain-staking/src/instructions/unstake.rs:152-213 | Pays at a paying tier, redistributes a forfeit over the remaining weight below it; the forfeit of an empty pool stays in the vault |
| `StakingProgram.StakingPool.Initialize` | programs/brain-staking/src/instructions/initialize.rs:53-92 | Refuses a fee above 500 bps and a zero minimum; otherwise a fresh pool that satisfies the invariant |
| `StakingProgram.StakingPool.Stake` | programs/brain-staking/src/instructions/stake.rs:48-97 | New state and result for every input; a failed call changes nothing; the ledger invariant is kept |
| `StakingProgram.StakingPool.DepositRewards` | programs/brain-staking/src/instructions/deposit_rewards.rs:43-121 | The same, with the 64-bit fee product and the order of its failures |
| `StakingProgram.StakingPool.Claim` | programs/brain-staking/src/instructions/claim.rs:40-174 | The same, with the two silent returns (below the cliff, nothing owed) |
| `StakingProgram.StakingPool.Unstake` | programs/brain-staking/src/instructions/unstake.rs:59-266 | The same, also on a paused pool |
| `StakingProgram.StakingPool.CloseStaker` | programs/brain-staking/src/instructions/unstake.rs:215-252 | Principal returned in full, both totals reduced, position closed |
| `StakingProgram.StakingPool.UpdatePoolConfig` | programs/brain-staking/src/instructions/update_pool_config.rs:20-40 | Owner only; both bounds; keeps the ledger invariant |
| `StakingProgram.StakingPool.Pause` | programs/brain-staking/src/instructions/emergency_halt.rs:61-64 | Owner only; touches nothing but the flag |
| `StakingProgram.StakingPool.Resume` | programs/brain-staking/src/instructions/resume.rs:22-29 | Owner only; touches nothing but the flag |
| `StakingForms.StakeForm` | programs/brain-staking/src/instructions/stake.rs:48-87 | For every input: when a stake succeeds, each refusal by name, and the position it opens, dated now, with every other account as it was |
| `StakingForms.DepositAccepted` | programs/brain-staking/src/instructions/deposit_rewards.rs:46-63 | For every input: when a deposit succeeds, and its refusals by name |
| `StakingForms.DepositForm` | programs/brain-staking/src/instructions/deposit_rewards.rs:54-110 | What the treasury gains is the fee rounded down and at most a twentieth; vault and recorded deposits gain all the rest; the accumulator gains it per weight rounded down; nothing else changes |
| `StakingForms.ConfigForm` | programs/brain-staking/src/instructions/update_pool_config.rs:20-40 | When a configuration is accepted, each refusal by name, and that each value given is stored and each left out stays |
| `StakingForms.PauseForm` | programs/brain-staking/src/instructions/resume.rs:22-29 | The owner alone pauses and resumes, and a pause undone leaves the accounts as they were |
| `StakingForms.ClaimClosed` | programs/brain-staking/src/instructions/claim.rs:41-44 | No claim or unstake without a position, no claim on a paused pool |
| `Journal.AccountsAgree` | programs/brain-staking/src/instructions/deposit_rewards.rs:54-110 | In every reachable state, under any clock: each position carries the date and amount of its own stake; treasury and net deposits add up to the gross deposits; the treasury has the fees due, rounded down once per deposit; the vault holds the principals and what it was given |
| `Journal.TiersFollowTheStake` | programs/brain-staking/src/instructions/stake.rs:69-79 | After a stake and any run in which the position stays open: a claim within seven days pays nothing and leaves tier 0, tiers 1, 2 and 3 are those of 7, 30 and 90 days since that stake, and unstaking returns the amount staked |
| `LedgerProofs.StepKeepsInv` | programs/brain-staking/src/instructions/unstake.rs:71-252 | Every instruction, under any clock and with the forfeit branch: totals are sums over the positions, principal is in the vault, debts are floors of an earlier accumulator, and deposits plus rounding gains equal paid plus checkpointed plus credited plus dust, to the last 1e-12 lamport |
| `LedgerProofs.RunKeepsInv` | programs/brain-staking/src/instructions/claim.rs:50-163 | The same over every run of any length with any number of users |
| `LedgerProofs.ClaimSettlesThenPays` | programs/brain-staking/src/instructions/claim.rs:109-164 | A successful claim is a settlement followed by one full payment |
| `LedgerProofs.UnstakeSettlesThenPays` | programs/brain-staking/src/instructions/unstake.rs:123-188 | A successful unstake at a paying tier is a settlement, one full payment, and removal |
| `LedgerProofs.UnstakeSettlesThenForfeits` | programs/brain-staking/src/instructions/unstake.rs:189-213 | Below the first tier it is a settlement, a redistribution of what was checkpointed, and removal without payment |
| `Conservation.ConservationGap` | programs/brain-staking/src/fuzz_tests.rs:146-204 | The claim "never more is claimed than deposited" is false in general; it holds in a reachable state if and only if the fractions given by rounding debts down are covered by those held or lost |
| `Conservation.CommittedBounded` | programs/brain-staking/src/instructions/claim.rs:94-100 | Paid plus payable exceeds deposits by less than one lamport per debt reset that rounded, and not at all when none did (the scenario of the fuzz test) |
| `Conservation.RunConserves` | programs/brain-staking/src/fuzz_tests.rs:412-495 | The same over every run from initialisation, with the vault balance and both pool totals |
| `Conservation.DustWhenEmpty` | programs/brain-staking/src/fuzz_tests.rs:206-220 | Once everybody has left, what stays undistributed is at most the deposit roundings, one lamport per weight given up, and the forfeits |
| `RoundingExcess.OneLamportShort` | programs/brain-staking/src/instructions/claim.rs:143-149 | A concrete run with the default minimum stake: one lamport more is payable than was deposited, and the last unstake fails with the rent error; the bounds above and below are tight |
| `Solvency.RunKeepsTimely` | programs/brain-staking/src/instructions/unstake.rs:189-213 | Under a clock that does not go back nothing stays checkpointed, stored tiers are never ahead, rounding debt resets number at most three per position ever opened, nothing is ever forfeited, and the accumulator is at most deposits over the least stake |
| `OverflowRun.LeastMinimumIsTight` | programs/brain-staking/src/instructions/claim.rs:95-99 | A run from initialisation with a minimum stake of one unit less, after which a staker of the largest amount can neither claim nor unstake: the arithmetic overflows |
| `Solvency.SettlementFits` | programs/brain-staking/src/instructions/claim.rs:53-128 | With a minimum stake of at least 1,626,304 units and deposits below the limit by the rounding margin, no checked operation of settlement or payout can fail |
| `Solvency.ClaimSucceedsExactly` | programs/brain-staking/src/instructions/claim.rs:40-159 | On an unpaused pool a claim succeeds if and only if the vault covers what is owed, and then pays exactly that; otherwise it fails with one of the two vault errors |
| `Solvency.UnstakeSucceedsExactly` | programs/brain-staking/src/instructions/unstake.rs:59-252 | The same for unstake, paused or not, with the whole principal |
| `Solvency.SeededVaultCovers` | programs/brain-staking/src/instructions/claim.rs:140-149 | A vault seeded with the rent minimum and the rounding excess covers every position |
| `ClosedForms.SeededVaultNeverRefuses` | programs/brain-staking/src/instructions/unstake.rs:163-175 | After any run, under any clock, minimum stake and volume: a vault seeded with the rent minimum and the rounding excess makes no claim and no unstake fail for lack of rewards or of rent |
| `Solvency.PrincipalAlwaysReturned` | programs/brain-staking/src/instructions/unstake.rs:215-234 | After any orderly run every staker can unstake and gets principal and rewards, provided the vault was so seeded (three lamports per position ever opened suffice) |
| `Solvency.WeightAtMostTriple` | programs/brain-staking/src/instructions/stake.rs:81-87 | The weight of any set of positions is at most three times their stake |
| `ClosedForms.ClaimForm` | programs/brain-staking/src/instructions/claim.rs:40-174 | In every state with the ledger invariant, under any clock: exactly when a claim on an unpaused pool succeeds, with which error it fails, and all it changes; the pool weight never matters |
| `ClosedForms.UnstakeForm` | programs/brain-staking/src/instructions/unstake.rs:59-266 | The same for unstake, forfeits included |
| `ClosedForms.UnstakeForfeits` | programs/brain-staking/src/instructions/unstake.rs:189-213 | What is forfeited is exactly what was payable, and only below the first tier |
| `ClosedForms.LifetimeOverClaim` | programs/brain-staking/src/instructions/claim.rs:109-164 | A claim changes nobody's total of paid and payable, whoever makes it and whatever the clock |
| `ClosedForms.LifetimeOverUnstake` | programs/brain-staking/src/instructions/unstake.rs:123-213 | Leaving changes the leaver's total by what is forfeited and the others' by what the accumulator gains |
| `Schedules.ClaimThenUnstake` | programs/brain-staking/src/instructions/unstake.rs:65-252 | Claim then unstake at one time is unstake alone: same accounts, lamports, pause flag and errors, although the two handlers settle separately; nothing is assumed about the state |
| `Schedules.ClaimsCommute` | programs/brain-staking/src/instructions/claim.rs:46-164 | In every reachable state and for any two times, while no vault check refuses and no payment pauses, claims of two stakers commute, across tier changes and arithmetic failures, down to every account, both answers and the ledger |
| `Schedules.ExtraClaimsChangeNothing` | programs/brain-staking/src/instructions/claim.rs:161-164 | Any number of extra claims within a tier, anywhere in any run and under any clock, leave every staker's total, the pool and the principal unchanged, as long as no vault check, automatic pause, overflow or forfeit intervenes in either run |
| `ProRata.RunCredit` | programs/brain-staking/src/instructions/deposit_rewards.rs:93-104 | Over any run that forfeits nothing the accumulator credits a weight with its exact rational share of each deposit, less at most one unit of weight per deposit |
| `ProRata.LifetimeOverRun` | programs/brain-staking/src/instructions/claim.rs:109-128 | Under any clock, what a position of constant weight receives depends on the two accumulator values alone |
| `ProRata.ReceivesFairShare` | programs/brain-staking/src/instructions/deposit_rewards.rs:93-104 | Over any run that forfeits nothing a position of constant weight receives its exact pro-rata share: less than one lamport more, less than one lamport and weight/1e12 lamports per deposit less |
| `ProRata.EqualWeightsEarnAlike` | programs/brain-staking/src/fuzz_tests.rs:223-275 | Equal weights receive exactly equal amounts over any run, whenever each claims (the fuzz test allows a lamport) |
| `ProRata.OrderlyForfeitsNothing` | programs/brain-staking/src/instructions/unstake.rs:189-213 | A run whose clock does not go back is such a run |
| `StepwiseShare.ReceivesStepwiseShare` | programs/brain-staking/src/instructions/deposit_rewards.rs:93-104 | For every user and every run that forfeits nothing, through tier changes, opening and closing: the amount received is the exact share of each deposit at the weight held then, within one lamport per change of weight and one more, less the rounded increments |
| `StepwiseShare.AtMostThreeResets` | programs/brain-staking/src/instructions/claim.rs:49-101 | While a position stays open under a clock that does not go back, its tier changes, and so its debt resets, number at most three |
| `StepwiseShare.OrderlyPositionShare` | programs/brain-staking/src/fuzz_tests.rs:223-275 | So over such a run it receives its stepwise share within four lamports, less the rounded increments |
| `GovernanceProgram.TallyVotes` | programs/brain-staking/src/instructions/close_proposal.rs:87-99 | The tie flag is raised exactly when two options share a positive maximum; otherwise the index is the strict leader, or option 0 of all-zero counts |
| `GovernanceProgram.GovernanceAccounts.Decide` | programs/brain-staking/src/instructions/close_proposal.rs:56-127 | The two early rejections and the tally write the declared verdict |
| `GovernanceProgram.GovernanceAccounts.Required` | programs/brain-staking/src/instructions/close_proposal.rs:69-74 | The overflow fallback asks for nothing |
| `GovernanceProgram.GovernanceAccounts.CreateProposal` | programs/brain-staking/src/instructions/create_proposal.rs:38-115 | New state and result for every input; a failed call changes nothing; the governance invariant is kept |
| `GovernanceProgram.GovernanceAccounts.CastVote` | programs/brain-staking/src/instructions/cast_vote.rs:61-130 | The same |
| `GovernanceProgram.GovernanceAccounts.CloseProposal` | programs/brain-staking/src/instructions/close_proposal.rs:32-130 | The same |
| `GovernanceProgram.GovernanceAccounts.CloseVoteRecord` | programs/brain-staking/src/instructions/close_vote_record.rs:33-49 | The same |
| `GovernanceProgram.GovernanceAccounts.GovernanceInitiateExit` | programs/brain-staking/src/instructions/governance_initiate_exit.rs:45-123 | The same |
| `GovernanceProgram.GovernanceAccounts.InitiateExit` | programs/brain-staking/src/instructions/initiate_exit.rs:34-67 | The same, and on success one empty Active exit more, at a free key, on an unpaused pool; every other account as it was |
| `GovernanceProgram.GovernanceAccounts.RecordClaim` | programs/brain-staking/src/instructions/record_claim.rs:31-58 | The same, and on success one Active exit with more SOL and the amount remembered; every other account as it was |
| `GovernanceProgram.GovernanceAccounts.CompleteExit` | programs/brain-staking/src/instructions/complete_exit.rs:31-46 | The same, and on success one Active exit Completed now; every other account as it was |
| `GovernanceProgram.GovernanceAccounts.TerminateExit` | programs/brain-staking/src/instructions/terminate_exit.rs:29-44 | The same, and on success one Active exit Terminated now; every other account as it was |
| `GovernanceProgram.GovernanceAccounts.CloseDlmmExit` | programs/brain-staking/src/instructions/close_dlmm_exit.rs:33-50 | The same, and on success one finished exit gone; every other account as it was |
| `GovernanceProgram.GovernanceAccounts.SetQuorum` | programs/brain-staking/src/instructions/set_quorum.rs:26-38 | Succeeds exactly for the owner, sets any share, also above 100 percent, and touches nothing else |
| `GovernanceProgram.GovernanceAccounts.SetAutoExecute` | programs/brain-staking/src/instructions/set_auto_execute.rs:26-40 | Succeeds exactly for the owner and touches nothing else |
| `GovernanceForms.CreateForm` | programs/brain-staking/src/instructions/create_proposal.rs:48-104 | For every input: when a proposal is created, each refusal by name, and that it stores the draft, no votes and the pool weight of the moment |
| `GovernanceForms.VoteAccepted` | programs/brain-staking/src/instructions/cast_vote.rs:64-100 | For every input: when a vote is accepted, and its refusals by name |
| `GovernanceForms.VoteForm` | programs/brain-staking/src/instructions/cast_vote.rs:88-119 | An accepted vote adds the wallet once and the stake twice to its option, the turnout and the record, and changes nothing else |
| `GovernanceForms.CloseForm` | programs/brain-staking/src/instructions/close_proposal.rs:33-62 | In every reachable state a proposal can be closed exactly when it is open, its voting has ended and the pool is not paused, however people voted; each refusal by name |
| `GovernanceForms.CloseRecordForm` | programs/brain-staking/src/instructions/close_vote_record.rs:33-49 | A vote record goes exactly when its proposal is no longer open, and alone |
| `GovernanceForms.GovernanceExitForm` | programs/brain-staking/src/instructions/governance_initiate_exit.rs:51-113 | For every input: exactly who may open an exit by a proposal and when, each refusal by name, and the exit it stores |
| `GovernanceForms.InitiateForm` | programs/brain-staking/src/instructions/initiate_exit.rs:34-58 | For every input: when the owner opens an exit, each refusal by name, and the exit it stores |
| `GovernanceForms.RecordForm` | programs/brain-staking/src/instructions/record_claim.rs:31-49 | For every input: when a claim is recorded, each refusal by name, and what it adds |
| `GovernanceForms.CompleteForm` | programs/brain-staking/src/instructions/complete_exit.rs:31-38 | When an exit is completed, each refusal by name, and that only status and time change |
| `GovernanceForms.TerminateForm` | programs/brain-staking/src/instructions/terminate_exit.rs:29-36 | The same for termination, by the owner alone |
| `GovernanceForms.CloseExitForm` | programs/brain-staking/src/instructions/close_dlmm_exit.rs:33-50 | When an exit is closed, each refusal by name, and that its key can be used again |
| `GovernanceForms.SettingForm` | programs/brain-staking/src/instructions/set_quorum.rs:26-38 | The owner alone sets quorum and auto-execution, each without touching anything else |
| `VoteLedger.GovStepKeepsInv` | programs/brain-staking/src/instructions/cast_vote.rs:111-119 | Every instruction keeps: counts are the sums of the ballots ever cast, each worth the wallet and twice the stake it was cast with, they add up to the turnout, stored vote records are those of ballots, a proposal carries its draft, one ballot per voter and proposal, open proposals keep all their vote records, the quorum snapshot is the pool weight at creation, the verdict and time fields agree with the status, an executed proposal has one opening |
| `VoteLedger.GovRunKeepsInv` | programs/brain-staking/src/instructions/close_vote_record.rs:33-40 | The same over every run, with the pool read at each step arbitrary |
| `VoteLedger.CloseRecordKeepsInv` | programs/brain-staking/src/instructions/close_vote_record.rs:36-40 | Deleting vote records cannot let anybody vote again, because the status never returns to Active |
| `VoteLedger.DecidedLifecycle` | programs/brain-staking/src/instructions/close_proposal.rs:56-127 | With counts that add up to the turnout, the winner written is the strict leader of a quorate vote, and passed means option 0 |
| `Voting.PassesExactly` | programs/brain-staking/src/instructions/close_proposal.rs:56-127 | For arbitrary account contents the exact condition has one more case: a turnout with all counts zero also passes |
| `Voting.AllZeroPasses` | programs/brain-staking/src/instructions/close_proposal.rs:87-116 | Concrete account contents that show the extra case |
| `Voting.NoWinnerMeansTie` | programs/brain-staking/src/instructions/close_proposal.rs:91-106 | There is no winner exactly when the highest positive count is shared |
| `Voting.VerdictIsTheVoters` | programs/brain-staking/src/instructions/close_proposal.rs:64-127 | In every reachable state the recorded winner of a closed proposal is option i exactly when the ballots ever cast, at most one per voter, prefer i to every other and reach the quorum set at closing time of the weight the pool had at creation; passed means the winner is option 0 |
| `Voting.WithoutQuorumRejected` | programs/brain-staking/src/instructions/close_proposal.rs:56-84 | Over every run a closed proposal without votes or without quorum is Rejected with index 255 and passing time 0 |
| `Voting.NoSecondVote` | programs/brain-staking/src/instructions/cast_vote.rs:29-37 | Whoever has a ballot on a proposal cannot cast another, also after the record is deleted |
| `Voting.VotesCommute` | programs/brain-staking/src/instructions/cast_vote.rs:85-119 | Two voters' ballots give the same accounts in either order |
| `Voting.DecisionIsFinal` | programs/brain-staking/src/instructions/close_proposal.rs:35-35 | A decided proposal never changes again except for its one execution mark |
| `Voting.ExitsWaitAndHappenOnce` | programs/brain-staking/src/instructions/governance_initiate_exit.rs:67-113 | Every exit opened by governance starts at least 72 hours after its proposal was created at a time that is not negative, was asked for by the owner, or by the crank while auto-execution was on, for a sale, and no proposal opens two |
| `Voting.OpeningStoresExit` | programs/brain-staking/src/instructions/governance_initiate_exit.rs:97-113 | Every recorded opening stores, in the same step, a new Active exit created at that time for that proposal |
| `Voting.TimelockHolds` | programs/brain-staking/src/instructions/governance_initiate_exit.rs:70-78 | For the owner, and for the crank under auto-execution, the 48-hour wait is applied exactly to positive passing times; a passing time at or before zero is not waited for |
| `TimelockRun.TimelockSkipped` | programs/brain-staking/src/instructions/governance_initiate_exit.rs:70-78 | A run on negative clocks in which the exit opens 24 hours after its proposal was created |
| `Voting.ExitLifecycle` | programs/brain-staking/src/instructions/record_claim.rs:31-46 | What any instruction can do to any exit: nothing, a recorded claim, completion or termination of an Active one, deletion of a finished one, or opening on an unpaused pool |
| `Exits.HaltStopsExactly` | programs/brain-staking/src/instructions/emergency_halt.rs:66-119 | A halt leaves no Active exit if and only if it lists every Active one (the documentation says it terminates all of them) |
| `Bytes.U64RoundTrip` | crank/src/index.ts:258-258 | Little-endian 64-bit values read back |
| `Bytes.I64RoundTrip` | programs/brain-staking/src/instructions/emergency_halt.rs:114-116 | Two's complement 64-bit values read back, negative ones included |
| `Bytes.ByteOrder` | programs/brain-staking/src/instructions/emergency_halt.rs:114-116 | The first byte is the least significant, and a negative number is stored as itself plus two to the 64th |
| `ExitLayout.KeysLayout` | programs/brain-staking/src/state/dlmm_exit.rs:6-15 | Where the discriminator and the five keys lie |
| `ExitLayout.StateLayout` | programs/brain-staking/src/instructions/emergency_halt.rs:6-43 | Where the scalar fields lie: 176 and 185 are the status and the completion time |
| `ExitLayout.DeserializeDlmmExit` | crank/src/index.ts:238-296 | The offset-walking decoder computes the fixed-offset reading of every buffer, with both errors |
| `ExitLayout.DecodeEncoded` | crank/src/index.ts:238-296 | The crank reads back every field the program writes up to the proposal id; where it expects the bump it finds the low byte of the last claimed amount |
| `ExitLayout.ViewExactly` | crank/src/index.ts:281-281 | So its whole record is right exactly when those two bytes agree |
| `ExitLayout.FreshViewWrong` | crank/src/index.ts:281-281 | They never agree for an exit just opened under bump 255: the crank reads 0 |
| `ExitLayout.DecodePatched` | programs/brain-staking/src/instructions/emergency_halt.rs:112-116 | Decoding a patched buffer of at least 202 bytes gives the old record, terminated now |
| `ExitLayout.PatchedAt` | programs/brain-staking/src/instructions/emergency_halt.rs:112-116 | Every byte outside the status and the completion time is untouched |
| `ExitLayout.MatchesTyped` | programs/brain-staking/src/instructions/emergency_halt.rs:88-110 | The byte tests accept the encoding of an exit exactly when it is an Active exit of the pool |
| `ExitLayout.PatchIsTyped` | programs/brain-staking/src/instructions/emergency_halt.rs:112-116 | Patching the encoding of an exit is encoding the terminated exit |
| `ExitLayout.PatchedOnce` | programs/brain-staking/src/instructions/emergency_halt.rs:107-110 | A patched buffer no longer matches, so an account listed twice is patched and counted once |
| `EmergencyHalt.Check` | programs/brain-staking/src/instructions/emergency_halt.rs:86-110 | The tests of one iteration together are the predicate |
| `EmergencyHalt.TerminateOne` | programs/brain-staking/src/instructions/emergency_halt.rs:73-119 | One turn of the loop patches the buffer or leaves every byte of it |
| `EmergencyHalt.TerminateListed` | programs/brain-staking/src/instructions/emergency_halt.rs:71-119 | For any account list, duplicates included, exactly the distinct matching writable accounts of the program are patched, the rest keep every byte, and the count is their number |
| `EmergencyHalt.HaltStore` | programs/brain-staking/src/instructions/emergency_halt.rs:71-119 | On a store of encoded exits the byte loop ends with the encodings of the typed halt |
| `EmergencyHalt.HandleEmergencyHalt` | programs/brain-staking/src/instructions/emergency_halt.rs:61-127 | The whole handler: owner check, pause, loop, count |
| `World.WorldStepKeepsInv` | programs/brain-staking/src/instructions/create_proposal.rs:98-99 | Staking, governance and exits together keep their invariants through every instruction, under any clock, and every quorum snapshot is at most three times the largest 64-bit stake |
| `World.QuorumNeverWaived` | programs/brain-staking/src/instructions/close_proposal.rs:66-84 | In every reachable state, under any clock, the quorum threshold is exactly floor(snapshot * bps / 10000): the overflow fallbacks are never taken |
| `World.WorldRunKeepsTimely` | programs/brain-staking/src/instructions/unstake.rs:189-213 | While the clock does not go back, interleaved runs leave nothing checkpointed and forfeit nothing |
| `World.UnlistedExitSurvives` | programs/brain-staking/src/instructions/emergency_halt.rs:73-110 | A run in which an Active exit is not listed and survives the halt |
| `World.HaltStops` | programs/brain-staking/src/instructions/emergency_halt.rs:61-119 | The owner's halt pauses the pool and terminates exactly the Active exits, changing nothing else |
| `World.PausedStakingStep` | programs/brain-staking/src/instructions/unstake.rs:59-66 | On a paused pool only unstakes move the stake, downwards, and the accumulator stands still |
| `World.PausedGovStep` | programs/brain-staking/src/instructions/initiate_exit.rs:40-41 | While the pool is paused no instruction opens an exit, changes a finished one, or changes a proposal |
| `World.HaltByOthers` | programs/brain-staking/src/instructions/emergency_halt.rs:52-57 | A halt by anybody but the owner does nothing |
| `World.VoteCountsStake` | programs/brain-staking/src/instructions/cast_vote.rs:88-98 | A vote counts the stake of that moment when it brings the staker account, and none when not |
| `World.HaltFreezes` | programs/brain-staking/src/instructions/emergency_halt.rs:61-119 | From any reachable state, after a halt that lists every Active exit and until the owner resumes, through every interleaving: paused, no exit Active, recorded SOL and accumulator frozen, stake never larger |

## Left out

- `emergency_rescue`: it pays principal out without closing the staker account and writes a pool that is not
  declared mutable, so the totals would no longer be sums over the positions; runs do not contain it.
- `update_treasury_by_governance`, `update_pool_config_by_governance`: they mark a proposal that is not
  declared mutable as executed and never check the mark, so once-only execution is claimed for exits only.
- Ownership transfer and renunciation, `update_crank`, `update_treasury` and the `realloc_*` handlers: single
  assignments or migrations; owner and crank are fixed during a run.
- Total voting power: weight is the wallet balance at voting time plus twice the stake, and tokens can move
  between wallets, so no bound by the token supply is claimed.
- `proposal_id = 0` on an exit: the first proposal also has id 0, so who opened an exit is told by the
  recorded history and not by that field.
- PDA derivation, signatures, SPL and System program internals: the caller is a parameter, accounts are keyed
  by their seeds, and a transfer moves an amount between balances or fails.
- Direct debits of the reward vault: the program takes lamports from a system account it lists as its own vault;
  that the runtime lets it do so is assumed, and the solvency results rest on it.
- Wallet and payer balances, the clock and the rent minimum are parameters; lamports and BRAIN paid to users
  are results, and overflow of a user's own balance is not modelled.
- Rent deposits of accounts that are opened and closed, and account space limits (an option label or a URI
  too long to store).
- The order of errors found while accounts are resolved follows the order in which the accounts are declared;
  Anchor's own order is not part of this model.
- Other accounts of the program: the halt's theorem on stores assumes that only exit accounts carry the exit
  discriminator, which is a parameter of the layout.
- `terminated_count` is an unbounded number: an account list is far shorter than 64 bits can count.
- Timestamps in the crank are exact integers; the loss of precision above 2^53 is not modelled.
- Account layouts older than the present one: only lengths below 194 (halt) and 202 (crank) are told apart.
- The rest of the crank (exchange SDK, bundles, prices, retries, monitoring), scripts and tests.
- `Multiplier` is a number from 0 to 3 where the program has a byte; no handler stores any other value.
- ExitLayout.DecodeEncoded: agreement is claimed up to the proposal id, because the code's layouts differ after it.
