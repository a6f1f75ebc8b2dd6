# A replicated log with relays, and the tools around it

A Dafny model of PigPaxos and of the parts it rests on, with proofs.

* **The replicated log** (`pigpaxos/pigpaxos.go`). `PigPaxosLog.dfy` gives every handler as a function on values;
  `PigPaxosNode.dfy` is the instance as the source has it, a class whose methods and loops update its fields, each proved to
  do what the function says. `PigPaxosRuns.dfy` is a cluster as a step system: replicas, a growing set of sent messages that
  may be lost, duplicated, reordered or delivered to anyone, and a record of what happened. Every action keeps one
  invariant (`PigPaxosReplicaInvariant.dfy` for one replica, `PigPaxosInvariant.dfy` for the cluster).
  `PigPaxosSafety.dfy` draws the conclusions: agreement between ballots, provenance of entries, soundness of
  commit notices, the highest-ballot rule, and replicas that execute the same commands in the same order. `PigPaxosProgress.dfy`
  says what the handlers achieve when nothing stands in the way; as runs, `PigPaxosElection.dfy` takes a replica from a request
  to leading, `PigPaxosRound.dfy` a command from its request to its execution, `PigPaxosRecovery.dfy` a slot whose messages were
  lost to its execution. `PigPaxosNotices.dfy` shows that no decision is forgotten, `PigPaxosCleanup.dfy` which slots a log may lose.
* **Where the code falls short.** Agreement holds under three conditions on a run, and each is needed.
  `PigPaxosBlindPromise.dfy`, `PigPaxosStaleVote.dfy` and `PigPaxosLateAdoption.dfy` give complete runs, from fresh replicas, in
  which just one condition fails and two replicas execute different commands (`PigPaxosScenes.dfy` holds what they share):
  a counted promise leaves out a slot its sender had committed or executed; the answer to a stale P2a, which names the
  answerer's ballot, counts as a vote; a committed placeholder adopts a P2a of a ballot older than the decision.
  `PromiseReportsIff` and `AnswerGenuineIff` say exactly when a promise tells all and an answer is genuine;
  `PigPaxosGuards.dfy` draws the conditions from what the handlers find along a run.
* **Relays** (`layerpaxos/replica.go`, `pigpaxos/replica.go`, `chainpaxos/replica.go`). `Relay.dfy`: votes compressed into
  missing ids by swap-removal and expanded again at the leader, over every run of a relay. `Thresholds.dfy`: early answers add
  up to a majority. `PigPaxosRelays.dfy`: what relays answer is what the log may count. `Fanout.dfy`: grouping and fan-out. `Chain.dfy`: the hop-list chain.
* **Quorums, ballots, store** (`quorum.go`, `ballot.go`, `id.go`, `db.go`): `Quorums.dfy`, `Ballots.dfy`, `Database.dfy`.
* **The linearizability checker** (`checker.go`, `operation.go`) over its graph (`lib/graph.go`): `Checker.dfy`,
  `CheckerClass.dfy`, `Graph.dfy`.
* **The hybrid logical clock** (`hlc/`): `Hlc.dfy`.

`Sets.dfy`, `Sequences.dfy` and `Options.dfy` hold what several modules share.

## How a run is modelled

An action is one handler or timer of the source, executed atomically at one replica. Hypotheses of a run: node ids are not zero
and fit 32 bits, a replica starts a new ballot only while its counter fits 32 bits, and the ids handed to `HandleP2b` each sent a
P2b for that ballot and slot or are the leader itself (`PigPaxosRelays.AnswersMayBeCounted`). Timeouts, the choice of relays and the order in which
maps are walked are nondeterministic. The conditions of the agreement theorems are stated per slot: `Complete` (no counted
promise was blind for it), `VotesGenuine` (every id counted really held the proposal) and `AdoptionsGrounded` (every placeholder
took its command from a ballot no lower than one that decided the slot).

Where code and comments disagree the model follows the code. `handleP2aRelay` says that it refuses a lower ballot to the new
sender, but sends the refusal to the owner of the ballot it is collecting (`layerpaxos/replica.go:421-426`).

## Model

| member | source | states |
|---|---|---|
| PigPaxosInvariant.StepKeepsInv | pigpaxos/pigpaxos.go:80-585 | every handler, timer and delivery, executed atomically at any replica with messages lost, duplicated or reordered, keeps the whole invariant: of the log, ballots, promises, votes, commit notices and the executed trace of every replica, and of everything ever sent |
| PigPaxosInvariant.InitInv | pigpaxos/pigpaxos.go:57-78 | a cluster of fresh instances satisfies the invariant |
| PigPaxosInvariant.RunKeepsInv | pigpaxos/pigpaxos.go:80-585 | so does the world after any sequence of enabled actions |
| PigPaxosInvariant.ReachableInv | pigpaxos/pigpaxos.go:57-585 | every reachable world satisfies the invariant |
| PigPaxosSafety.Agreement | pigpaxos/pigpaxos.go:257-468 | once a majority accepted in ballot b, every P2a of that slot in a ballot of at least b carries the command proposed in b, in every run in which no leader counted a promise that hid the slot (executed or committed at its sender, unknown to the leader) |
| PigPaxosSafety.LaterProposalsAgree | pigpaxos/pigpaxos.go:285-354 | the induction over ballots behind Agreement: quorum intersection and the merge rule |
| PigPaxosSafety.CommittedAgree | pigpaxos/pigpaxos.go:410-510 | committed entries of one slot carry one command at all replicas, when the slot's promises were not blind, its counted votes genuine and its adoptions grounded |
| PigPaxosSafety.BackedAgree | pigpaxos/pigpaxos.go:410-554 | any two commands with which a slot was committed or recovered, in any ballots, are the same under the same three conditions |
| PigPaxosSafety.ExecutionsAgree | pigpaxos/pigpaxos.go:556-585 | of any two replicas one has executed a prefix of the other's commands, and equal counts give equal stores, under the three conditions for the executed slots |
| PigPaxosSafety.ExecutedInOrder | pigpaxos/pigpaxos.go:556-585 | in every run each replica has executed slots 0, 1, 2, ... once each, never a ballot-0 placeholder, only proposed commands, and its store is the fold of Execute over them |
| PigPaxosSafety.OneCommandPerBallotAndSlot | pigpaxos/pigpaxos.go:204-254 | all P2a messages of one ballot and slot - new, re-proposed or retried - carry one command |
| PigPaxosSafety.EntriesWereProposed | pigpaxos/pigpaxos.go:285-303 | every entry of nonzero ballot in a log, a promise or a recovery reply was proposed by a P2a of that ballot and slot; no uncommitted entry is above its replica's ballot |
| PigPaxosSafety.BallotsNeverDecrease | pigpaxos/pigpaxos.go:80-585 | no action lowers any replica's ballot |
| PigPaxosSafety.NoticesAreDecisions | pigpaxos/pigpaxos.go:421-486 | P3 soundness: a replica that holds the announced ballot in an announced slot holds the command for which the leader counted a majority in that very ballot, even for pending slots announced under a later ballot |
| PigPaxosSafety.HighestBallotRule | pigpaxos/pigpaxos.go:192-354 | when Q1 fires, the command proposed again for a slot was proposed in a ballot at least as high as any reported for it by any promise the leader ever counted, and by its own log |
| PigPaxosNotices.NoDecisionIsForgotten | pigpaxos/pigpaxos.go:409-468 | in every reachable world each decision is on the list of pending notices of the leader that made it, or a P3, alone or inside a P2a, has announced its slot, in ballot 0 or one no older: whatever overtook the leader, and whoever leads now |
| PigPaxosNotices.OutcomeHandsOver | pigpaxos/pigpaxos.go:85-468 | no handler and no timer drops a pending notice: it stays pending or goes out, in a leader's P2a, at the timer or when it steps down |
| PigPaxosElection.HigherBallotIsAdopted | pigpaxos/pigpaxos.go:256-435 | a replica shown a higher ballot by a P1a, a P1b, a P2a or a P2b for an open slot takes it over and leads no longer, unless the ballot is its own; in phase 1 it hands on the requests that wait |
| PigPaxosElection.OvertakenStepsDown | pigpaxos/pigpaxos.go:419-435 | a leader that a vote of a higher ballot reaches at an open slot sends the pending notices, has none left and no ballot to announce in, adopts the ballot and counts nothing |
| PigPaxosElection.RequestIsTaken | pigpaxos/pigpaxos.go:165-190 | a request is proposed by an active leader in a slot it then holds; elsewhere it waits, and the replica is a candidate, in a new higher ballot of its own with a P1a sent if it was none before |
| PigPaxosElection.RequestsAreKept | pigpaxos/pigpaxos.go:85-585 | no handler and no timer loses a waiting request: it waits on or is proposed by the new leader, unless all of them are passed on because the ballot rises |
| PigPaxosSafety.PromiseReportsIff | pigpaxos/pigpaxos.go:269-274 | a promise reports a slot its sender voted for exactly when the slot was neither executed nor committed there, and then with a ballot no lower than the vote's |
| PigPaxosGuards.AnswerGenuineIff | pigpaxos/pigpaxos.go:356-407 | the answer to a P2a is a genuine vote - it names the ballot asked for and the replica then holds the command asked for in it - exactly when the P2a is not stale and the slot not committed in another nonzero ballot, whatever notices it carries |
| PigPaxosGuards.GuardsGiveConditions | pigpaxos/pigpaxos.go:256-407 | over a whole run: if every P2a of the slot arrives not stale and where the slot is not settled otherwise, every counted vote is genuine; if no replica promises after it executed or committed the slot, no counted promise is blind; if no P2a meets a placeholder, no adoption is too early |
| PigPaxosGuards.GuardedRunsAgree | pigpaxos/pigpaxos.go:256-585 | in runs whose deliveries pass these guards for the executed slots, of any two replicas one has executed a prefix of the other's commands |
| PigPaxosSafety.CleanupDropsExecuted | pigpaxos/pigpaxos.go:151-163 | CleanupLog removes executed slots only |
| PigPaxosBlindPromise.BlindPromiseBreaksAgreement | pigpaxos/pigpaxos.go:269-274 | a reachable world in which a majority accepted x, a higher ballot proposes y for the slot, and two replicas execute different commands although every counted vote was genuine and nothing was adopted: a counted promise hid the slot |
| PigPaxosStaleVote.StaleVoteBreaksAgreement | pigpaxos/pigpaxos.go:396-400 | a reachable world in which two replicas execute different commands although no promise was blind and nothing was adopted: a stale P2a's answer counted as a vote |
| PigPaxosLateAdoption.LateAdoptionBreaksAgreement | pigpaxos/pigpaxos.go:378-382 | a reachable world in which two replicas execute different commands although no promise was blind and every vote genuine: a committed placeholder adopted an older ballot's command |
| PigPaxosReplicaInvariant.StartKeeps | pigpaxos/pigpaxos.go:179-190 | starting phase 1 in the next ballot keeps a replica's invariant |
| PigPaxosReplicaInvariant.RaiseKeeps | pigpaxos/pigpaxos.go:260-265 | adopting a higher foreign ballot, or stepping down to it, keeps it |
| PigPaxosReplicaInvariant.UpdateKeeps | pigpaxos/pigpaxos.go:285-303 | merging a promised log keeps it, and every reported slot ends up held with at least the reported ballot or settled |
| PigPaxosReplicaInvariant.CountKeeps | pigpaxos/pigpaxos.go:323-326 | counting a merged promise keeps it, with the promise on record |
| PigPaxosReplicaInvariant.ActivateKeeps | pigpaxos/pigpaxos.go:326-346 | re-proposing every uncommitted slot in the new ballot keeps it |
| PigPaxosReplicaInvariant.ProposeKeeps | pigpaxos/pigpaxos.go:204-238 | proposing a new command in the next slot keeps it |
| PigPaxosReplicaInvariant.AcceptKeeps | pigpaxos/pigpaxos.go:360-391 | accepting a P2a that is not stale keeps it, noting an adoption when a placeholder takes the command |
| PigPaxosReplicaInvariant.CountVotesKeeps | pigpaxos/pigpaxos.go:438-442 | counting the relay's ids keeps it |
| PigPaxosReplicaInvariant.CommitKeeps | pigpaxos/pigpaxos.go:444-454 | committing on a Q2 quorum keeps it; the pending slot is backed by the leader's last ballot for it |
| PigPaxosReplicaInvariant.CommitNoticeKeeps | pigpaxos/pigpaxos.go:473-493 | handling one announced slot keeps it, given that an entry of the announced ballot was decided |
| PigPaxosReplicaInvariant.RecoverKeeps | pigpaxos/pigpaxos.go:540-550 | installing a recovered command keeps it |
| PigPaxosReplicaInvariant.ExecuteKeeps | pigpaxos/pigpaxos.go:556-583 | executing one slot keeps it, trace and store included |
| PigPaxosReplicaInvariant.CleanupKeeps | pigpaxos/pigpaxos.go:141-163 | cleaning the log keeps it |
| PigPaxosInvariant.LeaderCovers | pigpaxos/pigpaxos.go:285-326 | every vote an elector cast in a lower ballot is reflected in the new leader's log, unless a promise was blind for the slot |
| PigPaxosInvariant.ReproposedSafe | pigpaxos/pigpaxos.go:329-345 | above the ballot a re-proposed entry was held in, no elector had voted for the slot |
| PigPaxosInvariant.FreshSafe | pigpaxos/pigpaxos.go:204-216 | no elector had voted for the slot a new command takes |
| PigPaxosInvariant.PendingNotice | pigpaxos/pigpaxos.go:326-328 | a pending slot was decided in the very ballot it will be announced under, if it was proposed in that ballot at all |
| PigPaxosRound.CommandIsExecuted | pigpaxos/pigpaxos.go:165-510 | from any reachable world with an active leader that knows all slots before its next, and followers that know them too and make up a majority with it, a request, their P2as, votes and notices form a run that ends with the leader and all these followers having executed this very command as their command of that slot |
| PigPaxosElection.RequestElects | pigpaxos/pigpaxos.go:165-354 | a request at a replica that neither leads nor stands makes it leader: with others that are not ahead and make up a majority with it, request, P1as and P1bs form a run that ends with it active in its next ballot, every waiting request and this one proposed and held |
| PigPaxosElection.RetryElects | pigpaxos/pigpaxos.go:98-101 | so does the timer of a candidate whose messages were lost, in the same ballot |
| PigPaxosRecovery.StalledSlotIsExecuted | pigpaxos/pigpaxos.go:88-97 | when an active leader waits in vain for votes, the timer's P2a, votes of followers that make up a majority with it - some of which may have accepted before - and a notice form a run that ends with all of them having executed the slot's command |
| PigPaxosRecovery.PlaceholderIsRecovered | pigpaxos/pigpaxos.go:512-554 | when replica i stands at a committed placeholder with more than ten slots above and j has settled the slot, the next delivery that has i run exec, the request it then sends, and the reply of j form a run after which i has executed the very command of j |
| PigPaxosRecovery.ExecAsksIff | pigpaxos/pigpaxos.go:560-571 | exec asks for a slot exactly when it stops at its committed ballot-0 placeholder with more than ten slots above |
| PigPaxosRecovery.StoppedReplicaAsks | pigpaxos/pigpaxos.go:470-585 | after notices, a recovery request or a recovery reply, a replica that stands that far behind at a placeholder has sent the request for it |
| PigPaxosRecovery.OvertakenRequestAsks | pigpaxos/pigpaxos.go:473-486 | notices of another ballot for a slot with a client's request make it ask for the slot and let the request go, once it is among the slots announced, and leave the entry alone otherwise |
| PigPaxosRecovery.ActiveLeaderLives | pigpaxos/pigpaxos.go:409-442 | the nil quorum HandleP2b may dereference never belongs to a slot that an active leader still has to execute |
| PigPaxosProgress.ExecRunsAllSettled | pigpaxos/pigpaxos.go:556-585 | exec runs exactly the slots up to the first that is not committed or is a placeholder, in order, the store being the fold over them, and changes nothing else but the requests it answers |
| PigPaxosProgress.ProposeAllInOrder | pigpaxos/pigpaxos.go:347-351 | pending commands take the next slots in the order they came, and each is sent |
| PigPaxosProgress.QuorumElects | pigpaxos/pigpaxos.go:305-354 | the promise that completes Q1 makes a leader that has proposed again every uncommitted slot with its own command and all pending commands after them |
| PigPaxosProgress.QuorumProposes | pigpaxos/pigpaxos.go:305-354 | and each pending command is proposed by a P2a and held open in its slot |
| PigPaxosProgress.VoteIsGiven | pigpaxos/pigpaxos.go:356-407 | a follower that is not ahead and has not settled the slot, or holds the very proposal already, holds the command and sends its own vote for that ballot, whatever other notices came along |
| PigPaxosProgress.MajorityCommits | pigpaxos/pigpaxos.go:409-468 | votes that complete Q2 commit the slot with its command, leave its notice pending, and execute everything up to it if the slots before are known |
| PigPaxosProgress.NoticeCommits | pigpaxos/pigpaxos.go:470-510 | notices commit the entries of their ballot, and execute everything up to such an entry if the slots before it are known |
| PigPaxosProgress.RecoveryFills | pigpaxos/pigpaxos.go:539-554 | a recovery reply fills a placeholder, and execution goes on to it and beyond if the slots before it are known |
| PigPaxosProgress.CleanupExact | pigpaxos/pigpaxos.go:141-163 | CleanupLog drops a slot exactly when it is past the last marker and executed here and at every node that has reported |
| PigPaxosCleanup.ReportedSlotsStay | pigpaxos/pigpaxos.go:135-163 | once a node has reported how far it has executed, no run removes a slot from there on before it reports again, whatever else happens |
| PigPaxosCleanup.NextCleanupRemoves | pigpaxos/pigpaxos.go:141-163 | a slot that a cleanup has to leave is removed by the next one, if by then it is executed here and at every node that has reported, whatever happened in between |
| PigPaxosNode.PigPaxos.constructor | pigpaxos/pigpaxos.go:57-78 | a fresh instance: empty log, slot -1, ballot 0 |
| PigPaxosNode.PigPaxos.P1a | pigpaxos/pigpaxos.go:179-190 | does nothing when active; otherwise the next own ballot, a quorum of itself, and a P1a |
| PigPaxosNode.PigPaxos.RetryP1a | pigpaxos/pigpaxos.go:192-202 | a fresh quorum and the same P1a again, unless active |
| PigPaxosNode.PigPaxos.HandleP1a | pigpaxos/pigpaxos.go:256-283 | adopts a higher ballot and answers with exactly the uncommitted slots between execute and slot |
| PigPaxosNode.PigPaxos.update | pigpaxos/pigpaxos.go:285-303 | merges a promised log, higher ballot first, in whatever order the map is walked |
| PigPaxosNode.PigPaxos.Repropose | pigpaxos/pigpaxos.go:329-346 | stamps and proposes again exactly the uncommitted slots from execute on, each with a quorum of the leader alone |
| PigPaxosNode.PigPaxos.ProposePending | pigpaxos/pigpaxos.go:347-351 | proposes the pending requests in order in fresh slots |
| PigPaxosNode.PigPaxos.HandleP1b | pigpaxos/pigpaxos.go:305-354 | ignores stale promises, merges, adopts higher ballots, counts its own and takes over on a majority |
| PigPaxosNode.PigPaxos.HandleRequest | pigpaxos/pigpaxos.go:165-177 | proposes when active, else queues and starts phase 1 if the ballot is foreign |
| PigPaxosNode.PigPaxos.P2a | pigpaxos/pigpaxos.go:204-238 | takes the next slot, proposes the command and carries the pending notices if there is a ballot to announce them under |
| PigPaxosNode.PigPaxos.CheckTimeout | pigpaxos/pigpaxos.go:85-113 | resends the first slot not executed or the P1a, and flushes the pending notices |
| PigPaxosNode.PigPaxos.HandleP2a | pigpaxos/pigpaxos.go:356-407 | accepts unless stale, answers with its own ballot in any case, then handles the carried notices |
| PigPaxosNode.PigPaxos.CountVoters | pigpaxos/pigpaxos.go:440-442 | acks every id it is given |
| PigPaxosNode.PigPaxos.HandleP2b | pigpaxos/pigpaxos.go:409-468 | ignores old votes, steps down for a higher ballot, counts votes of its own current ballot, commits and executes on a majority; a nil quorum stops the process |
| PigPaxosNode.PigPaxos.CommitSlot | pigpaxos/pigpaxos.go:473-493 | commits an entry of the announced ballot, asks to recover one with a pending request, or leaves a committed ballot-0 placeholder |
| PigPaxosNode.PigPaxos.HandleP3 | pigpaxos/pigpaxos.go:470-510 | handles the announced slots one after another and executes |
| PigPaxosNode.PigPaxos.HandleP3RecoverRequest | pigpaxos/pigpaxos.go:520-537 | answers with a committed entry and executes |
| PigPaxosNode.PigPaxos.HandleP3RecoverReply | pigpaxos/pigpaxos.go:539-554 | installs the recovered command in an existing entry and executes |
| PigPaxosNode.PigPaxos.exec | pigpaxos/pigpaxos.go:556-585 | executes committed slots in order up to the first gap or placeholder, asking for a placeholder far behind |
| PigPaxosNode.PigPaxos.UpdateLastExecuteByNode | pigpaxos/pigpaxos.go:135-139 | records what a node reports to have executed |
| PigPaxosNode.PigPaxos.GetSafeLogCleanupMarker | pigpaxos/pigpaxos.go:141-149 | the least of its own execute counter and those reported |
| PigPaxosNode.PigPaxos.CleanupLog | pigpaxos/pigpaxos.go:151-163 | drops the slots between the last marker and the safe one |
| Quorums.Quorum.ACK | quorum.go:21-28 | a new id counts once in size and in its zone, a known one not at all |
| Quorums.Quorum.NACK | quorum.go:30-35 | records the id, and panics on a quorum that was never Reset, whose nacks map is nil |
| Quorums.Quorum.ADD | quorum.go:37-40 | raises size alone |
| Quorums.Quorum.Reset | quorum.go:47-53 | an empty quorum |
| Quorums.Quorum.ZoneMajority | quorum.go:78-86 | the loop finds a zone with a majority exactly when there is one |
| Quorums.Quorum.GridColumn | quorum.go:93-101 | the loop finds a complete zone exactly when there is one |
| Quorums.Quorum.FGridQ1 | quorum.go:103-112 | the loop counts the zones with a majority |
| Quorums.Quorum.FGridQ2 | quorum.go:114-123 | likewise, against Fz + 1 |
| Quorums.AckKeepsCounts | quorum.go:21-28 | size and zones count exactly the distinct acks, after every ACK |
| Quorums.AckAllCounts | pigpaxos/pigpaxos.go:440-442 | and after any list of ACKs |
| Quorums.AckAllAcks | pigpaxos/pigpaxos.go:440-442 | which acks exactly the ids of the list |
| Quorums.MajoritiesShare | quorum.go:59-62 | two majorities of configured nodes share a node |
| Quorums.FlexibleGridsShare | quorum.go:103-123 | a phase 1 and a phase 2 flexible-grid quorum share a node, for every F |
| Quorums.RowAndColumnShare | quorum.go:88-101 | a grid row and a grid column share a node |
| Quorums.MajorityAndGridsMean | quorum.go:59-101 | for counted acks of configured nodes: Majority exactly when more than half acked, GridRow exactly when a node of every zone did, GridColumn exactly when all nodes of some zone did |
| Quorums.FlexibleGridsMean | quorum.go:78-123 | ZoneMajority exactly with more than half of one zone, FGridQ1 of all zones but Fz, FGridQ2 of Fz + 1 zones |
| Ballots.NewIDPacks | id.go:15-50 | zone and node below 2^16 pack into an id and come back out |
| Ballots.NewIDUnpacks | id.go:15-50 | any id is rebuilt from its zone and node |
| Ballots.BallotIDFields | ballot.go:42-47 | the id field of a ballot, read by the source's shifts and truncations |
| Ballots.NewBallotPacks | ballot.go:14-47 | counter below 2^32 and id pack into a ballot and come back out |
| Ballots.NewBallotUnpacks | ballot.go:14-47 | any ballot is rebuilt from its counter and id |
| Ballots.BallotOrder | ballot.go:14-17 | packed ballots compare as (counter, zone, node) do |
| Ballots.NextExceeds | ballot.go:49-52 | Next exceeds every ballot with the old counter, whoever issued it |
| Ballots.NextGrowsIff | ballot.go:49-52 | Next grows exactly while the counter stays below 2^32; at the end it falls back to counter 0 |
| Ballots.IDRoundTrip | id.go:20-54 | printing and parsing an id gives it back |
| Ballots.IDStringDenotes | id.go:20-54 | zone z and node n print as z, a dot and n in decimal digits, and what is so written is read as that zone and node |
| Decimals.DigitsAreDecimal | id.go:52-54 | the digits printed are the positional decimal notation, without leading zeros |
| Ballots.BallotRoundTrip | ballot.go:19-56 | printing and parsing a ballot gives it back, through the decimal printer and parser |
| Store.Database.Execute | db.go:120-132 | returns what the key held and stores the value |
| Store.Database.put | db.go:141-152 | a nil value changes nothing; any other is stored, counted, and kept in the history of a multi-version store |
| Store.RepliesAreLastWrites | db.go:120-152 | every command of a batch returns the value written last to its key by the commands before it, or what the store held if none wrote to it |
| Store.StoreRemembers | db.go:120-152 | after a batch a key holds what was written to it last, and in a multi-version store its history has grown by exactly the values written to it, oldest first |
| Store.VersionCounts | db.go:141-152 | the version counts the writes |
| Store.ConflictBatch | db.go:192-202 | true exactly when some pair conflicts |
| Store.ConflictIffOrderShows | db.go:182-190 | two commands conflict exactly when in some store one changes the other's reply |
| Store.BatchesCommute | db.go:182-202 | batches without a conflict give the same data, version, histories and replies in either order, from any store |
| Relays.VotersWereHeard | layerpaxos/replica.go:226-250 | for every sequence of P2a, P2b and tick events at a relay, the ids the leader rebuilds from an answer are, once each, exactly the group members whose P2b for that slot and ballot came in between a P2a for them and the answer; the answer goes to the hop that P2a came from, with what the relay had executed by then |
| Relays.PlainVotesWereHeard | layerpaxos/replica.go:562-618 | without the compression the ids of an answer are those of all votes heard since the P2a, and it goes to the hop that P2a came from |
| Relays.Gathers | layerpaxos/replica.go:562-618 | below its threshold a relay keeps every single vote for the P2a, in order, and tells the leader nothing |
| Relays.AnswersAtThreshold | layerpaxos/replica.go:562-654 | the vote that reaches the threshold makes it answer, once, with exactly these votes and to the hop the P2a came from, and forget the slot |
| Relays.AllSentIsFaithful | layerpaxos/replica.go:225-654 | whatever a relay sends in any run has its reason and its address: an answer holds the votes heard and goes to the hop its P2a came from, in the form and with the execute counter of its moment; a refusal names the other ballot and goes to the owner of the collected one; a P2a goes to the log with the relay, or at a leaf that hop, as the address of the answer |
| Relays.ProposalsAreHandedOn | layerpaxos/replica.go:406-446 | every P2a reaches the log, and above the leaves its slot is then collected in no lower ballot; a repeated or lower one, or one at a leaf, leaves every collection alone |
| Relays.VotesAreGathered | layerpaxos/replica.go:562-654 | a vote for the ballot collected joins the others; at the threshold all of them are answered for and the slot is forgotten; a vote for a slot not collected changes nothing |
| Relays.OtherBallotsAreRefused | layerpaxos/replica.go:406-618 | a P2a or P2b of another ballot than the one collected makes the relay write to the owner of the latter |
| Relays.LateSlotsAreAnswered | layerpaxos/replica.go:225-251 | a tick answers for every slot opened before its cutoff and leaves the others alone |
| Relays.RebuildUndoes | layerpaxos/replica.go:533-635 | removing the voters and then removing what is left gives the voters of the group back, whatever the list of votes |
| Relays.SwapRemoveAllMembers | layerpaxos/replica.go:620-635 | swap-removal leaves a duplicate-free list of exactly the members not removed |
| Relays.SwapRemoveAllCounts | layerpaxos/replica.go:620-635 | as multisets: one occurrence removed per id listed |
| Relays.RunKeepsInv | layerpaxos/replica.go:406-446 | in every run a relay's list for a slot is what it heard since it opened |
| Relays.SwapRemoveInPlace | layerpaxos/replica.go:624-633 | the inner loop: first occurrence overwritten by the last element, one shorter |
| Relays.Subtract | layerpaxos/replica.go:620-635 | the whole loop over a copy of the group |
| Relays.Relay.handleP2aRelay | layerpaxos/replica.go:406-446 | at the leaves hands the P2a to the log with the sender as the address of the answer; above them opens a collection, replaces one of a lower ballot with a refusal to its owner, refuses (to the same owner) when it collects for a higher one, and hands the P2a to the log with itself as the address |
| Relays.Relay.handleP2bRelay | layerpaxos/replica.go:562-618 | appends votes of the collected ballot, answers when ready and closes; refuses other ballots |
| Relays.Relay.readyToRelayP2b | layerpaxos/replica.go:637-654 | ready at half of the group plus one, or at half of the group that the leader belongs to (unknown ids read as group 0) |
| Relays.Relay.computeMissingIDsForP2b | layerpaxos/replica.go:620-635 | the group without the voters |
| Relays.Relay.checkP2bTimeouts | layerpaxos/replica.go:225-251 | answers for every slot older than the cutoff and forgets it |
| PigPaxosRelays.HandleP2bAggregated | layerpaxos/replica.go:533-560 | a leader records what the relay has executed and counts the relay's group without the missing ids, or all of it when none is missing; anybody else ignores the answer |
| PigPaxosRelays.AnswersMayBeCounted | layerpaxos/replica.go:406-635 | whatever a relay answers, compressed or not, in any run whose events deliver P2as and P2bs that were sent, may be handed to HandleP2b: every id the leader counts has sent its own P2b of that slot and ballot |
| PigPaxosRelays.AggregatedIsARun | layerpaxos/replica.go:533-560 | the leader's handling of an answer is two enabled actions of the cluster's runs |
| Thresholds.EarlyAnswersAddUp | layerpaxos/replica.go:637-654 | relays that answer at their thresholds with duplicate-free votes give the leader, with its own ack, a majority: any number of groups of any sizes |
| Thresholds.SlackAnswersAddUp | pigpaxos/replica.go:636-653 | with slack, the leader's quorum lacks at most slack nodes per group |
| Thresholds.ReadyIsEarlyEnough | layerpaxos/replica.go:637-654 | what the leader rebuilds from a ready relay meets that relay's threshold |
| Thresholds.ReadyRelaysGiveMajority | layerpaxos/replica.go:533-654 | from readiness through missing ids and rebuilding to Majority at the leader |
| Fanout.PeersToGroups | pigpaxos/replica.go:156-177 | an order-preserving partition into consecutive groups with the sizes the loop promises, none empty when there are no more groups than nodes, and the caller's own group |
| Fanout.GetRandomNodeId | pigpaxos/replica.go:39-47 | some node of the group that is neither excluded nor gray |
| Fanout.Broadcast | pigpaxos/replica.go:263-284 | one eligible relay per group gets the message with the leader as its only hop |
| Fanout.BroadcastToPeerGroup | pigpaxos/replica.go:286-298 | every member but the relay, the hop it came from and gray nodes, in group order |
| Fanout.HandleRoutedMsg | pigpaxos/replica.go:322-360 | above the leaves the message moves on with one hop more, and a reply to its last hop reaches the node that sent it |
| Fanout.FanoutCounts | pigpaxos/replica.go:263-298 | how often a broadcast reaches a node: once if it is not the leader and is its group's relay or not gray to it, else never |
| Fanout.EveryoneOnce | pigpaxos/replica.go:263-298 | with no gray nodes, every node but the leader exactly once |
| Chains.SendToChainHead | chainpaxos/replica.go:299-334 | the chain starts at the first node that is neither relay nor leader |
| Chains.Contains | chainpaxos/replica.go:446-453 | membership |
| Chains.HandleP2aFollower | chainpaxos/replica.go:455-486 | the group's last node is the tail; any other adds itself and passes the message to the first node not among the hops |
| Chains.HopsStayDistinct | chainpaxos/replica.go:475-483 | the hop list never holds a duplicate and every forward leaves one node fewer outside it |
| Chains.ChainCovers | chainpaxos/replica.go:299-486 | the chain visits every group member but leader and relay, once each and in group order |
| Chains.TailReachedIff | chainpaxos/replica.go:455-486 | it ends at the tail, which answers, exactly when the group's last node is neither leader nor relay |
| Graphs.Graph.Add | lib/graph.go:27-33 | a new vertex without edges, or no change |
| Graphs.Graph.Remove | lib/graph.go:35-47 | the vertex and its edges in both directions are gone |
| Graphs.Graph.AddEdge | lib/graph.go:49-61 | exactly one more edge, endpoints added; from and to stay transposes of each other |
| Graphs.Graph.RemoveEdge | lib/graph.go:63-69 | exactly that edge gone |
| Graphs.Graph.BFS | lib/graph.go:85-108 | exactly the vertices reachable from the source, once each, nearest first |
| Graphs.Graph.BFSReverse | lib/graph.go:135-157 | likewise against the edges |
| Graphs.Graph.DFS | lib/graph.go:110-133 | exactly the reachable vertices, once each |
| Graphs.DepthFirst | lib/graph.go:110-133 | the loop, which ends although a visited vertex that is popped pushes its neighbours again |
| Graphs.BreadthFirst | lib/graph.go:85-108 | the queue loop, shared by BFS and BFSReverse |
| Graphs.Visit | lib/graph.go:180-192 | true only with a cycle among gray vertices; otherwise the vertex and what it reaches are black and on no cycle |
| Graphs.Graph.Cyclic | lib/graph.go:194-209 | true exactly when the graph has a directed cycle |
| Graphs.Graph.Cycle | lib/graph.go:211-232 | nil exactly when there is none; otherwise distinct vertices that contain a whole cycle |
| Checkers.Checker.Linearizable | checker.go:69-104 | the reads reported come in their order, once each. No false alarms: a history with a linearization yields no anomaly. In a plausible history every refuted read is reported, whatever else was: one with which the demands of real time and of the reads up to it (earlier ones against the times excepted) have a cycle. Without any anomaly, all that must precede what has no cycle. And where the writes follow each other, every read has its write and none misses two, exactly the reads that miss a write are reported |
| Checkers.Checker.Add | checker.go:21-33 | the operation joins with an edge from each operation that ended before it started |
| Checkers.Checker.Match | checker.go:43-52 | a vertex whose input equals the read's output, if there is one |
| Checkers.Checker.Merge | checker.go:54-67 | the write inherits the read's incoming edges and the earlier end time; the read leaves the graph |
| Checkers.Checker.LookAhead | checker.go:77-83 | writes that start before the read ends join the graph |
| Checkers.Checker.CutCycle | checker.go:93-99 | exactly the cycle's edges that run backwards in time are dropped |
| Checkers.SortByStart | operation.go:31-34 | the same operations, by start time |
| CheckerGraph.MergeKeepsRanked | checker.go:54-67 | inherited edges and the shortened end time respect every linearization |
| CheckerGraph.JoinKeepsRanked | checker.go:21-33 | so do the edges into a newcomer, shortened end times included |
| CheckerGraph.MergeKeepsEdges | checker.go:54-67 | after a merge the graph has every precedence the reads so far demand |
| CheckerGraph.CleanMeansOrderable | checker.go:69-104 | a history worked off without an anomaly has no cycle of precedences |
| CheckerGraph.MustPrecedeClimbs | checker.go:54-67 | the derived precedences hold in every linearization |
| CheckerGraph.StaleReadIsCycle | checker_test.go:90-99 | a read that misses a write finished before it is a cycle of precedences, so it is reported |
| CheckerGraph.CrossedReadsAreCycle | checker_test.go:101-112 | two reads that return two finished writes in opposite orders are one too |
| CheckerGraph.RefutedIsCyclic | checker.go:54-99 | whatever cycles were cut before, once a read is matched the graph holds all that real time and the reads up to it demand - earlier reads' demands against the times excepted - so a cycle among these demands closes one in the graph |
| CheckerGraph.CutKeepsFirm | checker.go:93-99 | cutting never drops an edge to a write that was not settled when the other started |
| CheckerGraph.CutGoesForward | checker.go:86-99 | where a read misses one write, the one edge back that it adds is cut, and all that is left leads forward in time |
| CheckerGraph.MissingIsRefuted | checker_test.go:114-126 | a read that misses a settled later write is refuted, so it is reported however many reads were reported before it |
| CheckerGraph.CrossedReadsRefute | checker_test.go:101-112 | after crossed reads of two overlapping writes every later read is refuted too |
| Histories.LinearizationExplains | operation.go:13-19 | positions in a linearization order operations by real time and place every read after its write and before the next |
| HybridClocks.CausalityIsKept | hlc/hlc.go:40-81 | in every run of Now and Update at many nodes, with clocks that may run backwards and room at every increment, whatever happens before has the smaller timestamp, also as packed on the wire |
| HybridClocks.PhysicalWasRead | hlc/hlc.go:40-81 | the physical part of every clock is a reading some node has taken, so it never exceeds the largest |
| HybridClocks.NowAdvancesIff | hlc/hlc.go:40-53 | Now moves the clock forward exactly when the reading is newer than the clock or the clock's logical part is below 2^15 - 1 |
| HybridClocks.UpdateAdvancesIff | hlc/hlc.go:55-81 | Update passes both clock and message exactly when the reading is newer than both, or the logical part of whichever of the two is not older is below 2^15 - 1 |
| HybridClocks.TickIsLeast | hlc/hlc.go:40-53 | with room, Now gives the least timestamp that is past the clock and not behind the reading: a newer reading resets the logical part |
| HybridClocks.ReceiptIsLeast | hlc/hlc.go:55-81 | with room, Update gives the least timestamp that is past clock and message and not behind the reading |
| HybridClocks.FullClockRunsBack | hlc/hlc.go:40-81 | the failing input: at logical part 2^15 - 1 a tick, or a message as late as the clock, turns the clock back |
| HybridClocks.CausalityKeptIff | hlc/hlc.go:40-81 | a run keeps causality if and only if every call of Now and Update found room in the logical parts it incremented |
| HybridClocks.ShortRunsFit | hlc/hlc.go:40-81 | every run of fewer than 2^15 events does, whatever the clocks read |
| HybridClocks.LongRunsMayBreak | hlc/hlc.go:40-53 | a run of 2^15 events that does not: the last timestamp is behind the one before |
| HybridClocks.RoundTripIff | hlc/timestamp.go:22-45 | packing and unpacking give a timestamp back exactly when the physical part fits 48 bits and the logical part is not negative, or in the one case a negative logical part reads back as |
| HybridClocks.PackingOrders | hlc/timestamp.go:22-101 | packed timestamps compare as Compare says |
| HybridClocks.HLC.Now | hlc/hlc.go:40-53 | ticks the clock as the source's branches do |
| HybridClocks.HLC.Update | hlc/hlc.go:55-81 | merges a received timestamp as the source's branches do |

## Left out

- Locks, goroutines, sockets, HTTP, codecs, logging, configuration files and statistics: handlers are atomic and messages are values.
- Replies and forwards to clients, request properties, `ReplyWhenCommit` and the retro log: a request is kept as the flag that says whether one is attached to an entry.
- Entries as shared mutable objects: the log is a map field whose entries are values, so aliasing of one entry from two places is not captured; the quorum of an entry is a value too, while the phase 1 quorum and the store are objects.
- PigPaxosNode.PigPaxos.HandleP2b: the nil dereference that kills the process is modelled as a halted replica that takes no further step.
- PigPaxosSafety.Agreement: assumes `Complete` for the slot; a run that breaks agreement without it is given, the converse (agreement implies the condition) is not claimed, since a blind promise may also do no harm.
- PigPaxosSafety.CommittedAgree: assumes the three conditions for the slot; for each, a run is given in which it alone fails and replicas disagree. The converse is not claimed for the same reason.
- PigPaxosSafety.ExecutionsAgree: as CommittedAgree.
- The near copies of the log in `layerpaxos/layerpaxos.go` and `chainpaxos/chainpaxos.go`, and `paxos/paxos.go`, whose execution does not stop at placeholders.
- Phase 1 at the relays: promises are delivered one by one, as the leader handles an aggregated list.
- Relays.Relay.handleP2aRelay: the relay's own HandleP2a is recorded as a call with the address of its answer; the answer itself comes back as one more P2b event.
- PigPaxosRelays.HandleP2bAggregated: hands the ids to the HandleP2b of `pigpaxos/pigpaxos.go`; the near copy in `layerpaxos/layerpaxos.go` is not modelled.
- PigPaxosElection.RequestsAreKept: that requests passed on reach the owner of the new ballot is not claimed, since forwards are not among the messages modelled.
- PigPaxosRound.CommandIsExecuted: as with the other runs of this kind, some run ends so, and its script is in the proof; that every fair run does is not claimed, since messages may be lost and elections may repeat.
- Relay answers of `pigpaxos/replica.go` with slack 0, which list nothing as missing whatever was collected, and the fixed two votes of `chainpaxos/replica.go`.
- Thresholds.EarlyAnswersAddUp: assumes duplicate-free answers without the leader's own vote; a relay does not remove duplicates.
- Fanout.GetRandomNodeId: requires an eligible node, since the source searches forever without one.
- Checkers.Checker.Linearizable: the guarantees are for histories in which reads return non-empty values, written values are distinct and non-empty, and (for all but the first) no read ends before the write it returns starts; empty values are taken for writes by the lookahead. That no anomaly means no cycle is one way: a history without a linearization may pass. That nothing else is reported after a first anomaly is claimed only for histories whose writes follow each other and whose reads miss at most one: where several edges run back, the source cuts those of one cycle, chosen by the order in which it walks its maps. It also sorts a copy instead of the caller's slice.
- `lib/graph.go` Transpose and `lib/graph_scc.go`.
- HybridClocks.CausalityIsKept: assumes readings of 0 to 2^47 milliseconds. That every increment finds room is necessary too (`CausalityKeptIff`). Messages carry timestamps only when the retro log is on.
- `FastQuorum`, `LayerMajority`, `All`, Q1 and Q2 of `quorum.go`: thresholds without an intersection property of their own.
- EPaxos, the benchmark, policies, the other data structures of `lib/`: not part of this model.
