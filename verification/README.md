# Verification of the single-decree Paxos engine

This project models the Paxos engine in `pkg/paxos`, the crash and restart machinery around it, the agreement check that
judges its runs, and two smaller parts that rest on ordering and windows (the event tail and the peer list). It proves
what they promise, for every cluster size, every run and every input.

## How the model is laid out

- **The engine in its own form.** `Acceptors` (store and acceptor), `Nodes` (fetching the acceptor, crash, the two
  halves of a restart), `Ledgers` (the record of acceptances), `Tallies` (the two loops over the reply slots) and
  `Proposers` (`Propose`, `Campaign`) are classes and loops that update state as the source does. Each method is proved
  against a specification in `Acceptors`, `Tallies`, `Broadcasts` and `Campaigns`.
- **The cluster as a state machine.** `Protocol` has one action per atomic step: start a round, deliver a request with a
  save that works, fails, or fails although the disk was written, crash, restart in one step or in its two halves, a call
  that goes on at a superseded acceptor, tally, fast-forward, learn. The network is a set of messages, so requests and
  replies may be lost, delayed, repeated and reordered.
- **Refinement.** `Broadcasts` and `Refinements` prove that a round and a whole campaign are legal runs of that machine,
  over peers that others use, crash and restart meanwhile, and with other proposers opening and ending rounds of their
  own in between. So every theorem about runs applies to them.
- **The theorems.** `Soundness` holds what every run keeps, with no condition. `Safety` adds durable promises, which need
  the fence described below, and safe proposals, which also need that no ballot carries two values. `Theorems` draws the
  consequences. `Reuse`, `Handovers`, `SmallClusters` and `Exactness` give the exact condition for agreement, `Coverage` that for
  durable answers,
  `Campaigns` termination, `Duels` livelock, `Durability` crash transparency, `Statuses` the console's view,
  `Recorders` and `Tailers` event delivery, `Peers` the membership list, `Backoffs` the waiting times.
- `Schedules`, `Lockstep` and `Splits` build explicit runs, for the counterexamples and the livelock.

## Where a promise has a condition

- **Ballots.** One `Proposer` object never repeats a ballot, but its round is volatile, and a revived node builds a new
  object at round zero (`pkg/node/node.go:244`). Agreement needs that no ballot carries two values (`Safety.Agreement`),
  which holds when no ballot is issued twice. Validity, the coverage of replies, and the soundness of what is reported
  and learned do not need it.
- **The fence.** A harness node fetches its acceptor under its lock and calls it after letting go
  (`pkg/paxostest/harness.go:93-121`), and a restart loads the store before it takes the lock
  (`pkg/paxostest/harness.go:262-270`). A call that straddles a crash and a restart can therefore save over the store of
  the new acceptor, and a restart that straddles a save can put an older memory in place. Either can take a promise back
  (`Coverage.LateCallLosesPromise`, `Coverage.LateSwapLosesPromise`), and then two values can be chosen although no
  ballot is repeated: `Handovers.OneLateCallSplits` is the case of three nodes and one late call,
  `Handovers.LateCallsSplit` and `Handovers.LateSwapsSplit` are the cases of any two quorums. `Fenced` says that saves of
  superseded acceptors are refused and that nothing is saved between the load and the swap of a restart.
  `Coverage.CoverageExactly` proves that it is the exact condition for what was answered to stay covered, in any cluster
  with an acceptor and a proposer. The harness does not meet it, and its chaos test
  (`pkg/paxostest/scenarios_test.go:363-389`) makes such calls; a harness run in which none of them happens to save is
  covered by `Coverage.CarefulRunAgrees` and `Coverage.CarefulRunCovers`. The node does meet it: `Kill` stops the server
  and closes the store (`pkg/node/node.go:283-293`), so a later save fails, and `Revive` opens the store again before it
  builds the acceptor (`pkg/node/node.go:218-245`). A node counts as down here once its store is closed.
- **Agreement, exactly.** `Exactness.AgreementExactly` says which clusters and sets of proposer objects can never
  disagree: those without acceptors; those whose proposers all propose one value; and, behind a fence, those without a
  shared id and, over at most two acceptors, those whose shared ids propose one value each. For every other it gives a
  run in which two values are chosen, two rounds report them, two nodes' decisions can differ, and the harness's
  agreement check fails. `Reuse.SharedIdAndRivalSplit` is what a revived node and one rival can do.
- **Backoff.** The exponential growth up to `MaxBackoff` holds exactly when `MinBackoff` is not above it and doubling it
  fits in 64 bits. `withDefaults` establishes the first half except for a `MinBackoff` over two seconds and a lower
  `MaxBackoff`.
- **Jitter.** The comment at `pkg/paxos/util.go:8` says plus or minus half. The upper end is not reached: the
  longest sleep is one nanosecond less, and the range only holds while that fits in 64 bits.
- **Retry.** A campaign is bound to succeed only in a quiet period. Without one it can fail any number of times although
  every node promises every round (`Duels.Livelock`).
- **The event tail.** The console tells a restarted node by a last number below its cursor (`pkg/console/tail.go:65-70`).
  A new recorder that has caught up with the cursor by the first poll is not noticed, and its events up to the cursor never
  come out (`Tailers.OvertakenGoesUnnoticed`). `Tailers.DeliveredExactly` gives the exact condition for every event.
- **A round that is not reported as chosen** may still have been accepted by a quorum whose replies were lost. Nothing
  here claims the opposite.

## Model

| member | source | states |
|---|---|---|
| Ballots.Max | pkg/paxos/proposal.go:57-62 | the result is one of the two ballots and not below either |
| Quorums.QuorumsMeet | pkg/paxos/proposer.go:86-87 | two majorities of one set of acceptors share a member |
| Quorums.SlotsAreAcceptors | pkg/paxos/proposer.go:44-48 | with distinct peers, any set of reply slots stands for as many acceptors |
| Quorums.EnumerationSize | pkg/paxos/proposer.go:86-87 | a list of distinct peers that covers the acceptors is as long as their number, so both give one quorum |
| Acceptors.Store.constructor | pkg/paxos/store.go:18-20 | a new store holds the empty state |
| Acceptors.Store.Load | pkg/paxos/store.go:22-26 | loading returns what is stored |
| Acceptors.Store.Save | pkg/paxos/store.go:28-33 | a save replaces the whole record, or keeps it; an error leaves open which |
| Acceptors.Acceptor.constructor | pkg/paxos/acceptor.go:36-67 | an acceptor starts from the stored state, which is a restart |
| Acceptors.HandledExactly | pkg/paxos/acceptor.go:80-188 | what the specified machine does: nothing while it is down; below its promise or at the zero ballot it refuses and changes nothing; otherwise it saves first, answers positively only if that succeeds, and every reply tells the promise and, to a prepare, the acceptance it then holds |
| Acceptors.Acceptor.Prepare | pkg/paxos/acceptor.go:80-129 | memory, disk and reply after a prepare are those of the specified machine, whichever way the save ends: saved before answered, nothing answered after an error |
| Acceptors.Acceptor.Accept | pkg/paxos/acceptor.go:132-188 | the same for an accept |
| Protocol.StraggledExactly | pkg/paxostest/harness.go:102-121 | a call that goes on at a superseded acceptor is handled in that acceptor's own memory, and what it stores is the node's record from then on; the node's memory and all others stay |
| Protocol.SupersededServesWhatWasSent | pkg/paxostest/harness.go:243-271 | an acceptor superseded by a crash or a restart goes on with the memory it had and the requests sent by then, no later ones; the node has no memory, its disk's, or what the restart had loaded, and the disk stays |
| Protocol.LoadedServesNothing | pkg/paxostest/harness.go:262-262 | an acceptor that a restart has just loaded serves no call |
| Nodes.Node.constructor | pkg/paxostest/harness.go:173-181 | a new node is up and empty |
| Nodes.Node.Current | pkg/paxostest/harness.go:93-100 | the acceptor is fetched, or none while the node is down |
| Nodes.Node.PrepareAt | pkg/paxostest/harness.go:107-107 | a prepare at an acceptor fetched before, superseded or not: its own memory over the store as it is now, the node's memory touched only if it is still its acceptor |
| Nodes.Node.Prepare | pkg/paxostest/harness.go:102-108 | the two together, when the node keeps its acceptor meanwhile |
| Nodes.Node.AcceptAt | pkg/paxostest/harness.go:116-120 | the same for an accept, and exactly a positive reply is entered in the ledger |
| Nodes.Node.Accept | pkg/paxostest/harness.go:110-121 | the two together, when the node keeps its acceptor meanwhile |
| Nodes.Node.CrashNow | pkg/paxostest/harness.go:243-253 | a crash loses the memory and nothing else |
| Nodes.Node.LoadNew | pkg/paxostest/harness.go:262-262 | a restart first builds an acceptor from what the store holds then |
| Nodes.Node.Install | pkg/paxostest/harness.go:267-270 | and later puts it in place with that memory, whatever the store holds by then |
| Nodes.Node.RestartNow | pkg/paxostest/harness.go:255-271 | the two together, when nothing is saved meanwhile: the memory is taken from the disk, even when the node was running |
| Tallies.TallyPrepares | pkg/paxos/prepare.go:48-75 | the loop counts the promises, finds the highest promise over all replies with the rejections, and takes the value of the first highest acceptance among the promises, or its own if there is none |
| Tallies.TallyAccepts | pkg/paxos/accept.go:42-54 | the loop counts the acceptances and finds the highest promise over all replies |
| Tallies.TallyIsExact | pkg/paxos/prepare.go:48-75 | the specification of the first tally leaves one result |
| Tallies.TallyIgnoresOrder | pkg/paxos/prepare.go:52-73 | for replies whose reports of the highest acceptance carry one value, any order of the peers gives the same tally |
| Tallies.OrderFreeExactly | pkg/paxos/prepare.go:68-72 | the tally is the same for every order of the peers if and only if those reports carry one value; otherwise the first one seen decides |
| Soundness.DeliverIsSound | pkg/paxos/acceptor.go:80-188 | handling any request sent, with any outcome of its save, keeps the first layer: all that is held, answered and recorded goes back to a proposal |
| Soundness.StraggleIsSound | pkg/paxostest/harness.go:110-121 | so does a call that goes on at a superseded acceptor and saves over the store of another |
| Soundness.SwapIsSound | pkg/paxostest/harness.go:255-271 | so does any exchange of acceptors, in a crash, a restart, or the second half of one |
| Soundness.TallyPrepareIsSound | pkg/paxos/proposer.go:99-120 | so does tallying the promises and sending accepts |
| Soundness.AcceptQuorumChooses | pkg/paxos/proposer.go:124-146 | an accept quorum in the reply slots is a quorum of distinct acceptors that voted |
| Soundness.TallyAcceptIsSound | pkg/paxos/proposer.go:120-146 | so does tallying the acceptances; a round reported as chosen has its quorum |
| Soundness.StepIsSound | pkg/paxos/proposer.go:85-147 | every step keeps the first layer, whatever ballots are issued and with or without a fence |
| Soundness.RunIsSound | pkg/paxos/proposer.go:85-147 | so does every run |
| Safety.PromiseIsStable | pkg/paxos/acceptor.go:93-121 | what a promise says about lower ballots stays true, and a report at the promised ballot itself does not disturb it |
| Safety.HandleIsDurable | pkg/paxos/acceptor.go:80-188 | one request at one machine: it remembers what it confirms, its promise does not fall, and a promise it gives is kept |
| Safety.DeliverIsDurable | pkg/paxos/acceptor.go:80-188 | a delivery keeps all promises given |
| Safety.RestartIsDurable | pkg/paxos/acceptor.go:44-54 | so does a restart, also when the disk is one unconfirmed write ahead of the memory that was lost |
| Safety.SealedStraggleIsDurable | pkg/node/node.go:283-293 | a superseded acceptor whose save is refused takes no promise back |
| Safety.StepIsDurable | pkg/paxos/acceptor.go:80-188 | behind a fence every step keeps all promises, and the promises of all acceptors only rise |
| Safety.SafetyIsStable | pkg/paxos/acceptor.go:93-121 | a value that is safe at a ballot stays so while promises rise and acceptances respect them |
| Safety.TalliedValueIsSafe | pkg/paxos/prepare.go:64-72 | the value tallied from a quorum of promises equals every value that was or can still be chosen at a lower ballot |
| Safety.AdoptedValueIsForced | pkg/paxos/prepare.go:68-72 | if one promising acceptor voted for a value that can be chosen, the tally adopts that value |
| Safety.NewProposalIsSafe | pkg/paxos/proposer.go:99-120 | a round sends accepts only with a value that is safe at its ballot |
| Safety.StepKeeps | pkg/paxos/proposer.go:85-147 | behind a fence every step of the cluster keeps the whole invariant while no ballot carries two values |
| Safety.RunKeeps | pkg/paxos/proposer.go:85-147 | so does every run in which no ballot carries two values |
| Safety.ReachableOneValue | pkg/paxos/proposer.go:58-63 | when no ballot was issued twice, all accept requests at a ballot carry one value |
| Safety.Agreement | pkg/paxostest/harness.go:283-300 | in every reachable state behind a fence in which no ballot carries two values, two ballots each accepted by a quorum carry one value |
| Theorems.BallotsIncrease | pkg/paxos/proposer.go:58-72 | one proposer object issues strictly increasing ballots, however its rounds interleave with fast-forwards |
| Theorems.BallotsFreshExactly | pkg/paxos/proposer.go:34-40 | a set of proposer objects never issues a ballot twice, in any run, if and only if no two share an id |
| Theorems.EveryProposalIsSafe | pkg/paxos/prepare.go:48-75 | under the conditions of agreement, any accept request ever sent carries the value of whatever was or can be chosen below its ballot |
| Theorems.EveryProposalIsBacked | pkg/paxos/proposer.go:99-120 | in every reachable state each accept request ever sent is backed by replies to its round: a quorum of distinct acceptors promised it, and the tally of what was heard is its value |
| Theorems.Validity | pkg/paxos/prepare.go:48-72 | in every reachable state each value proposed, accepted, stored, kept by any acceptor object, recorded or learned is the configured value of some proposer |
| Theorems.RepliesStayCovered | pkg/paxos/acceptor.go:106-121 | in every reachable state behind a fence, every promise and acceptance ever answered is covered by the disk and by the memory: a promise at least as high, an acceptance at least as high; also under ambiguous saves and repeated ballots |
| Coverage.LateCallLosesPromise | pkg/paxostest/harness.go:102-108 | one proposer and one acceptor are enough: a prepare call left out over a crash and a restart saves last, and the disk goes back below what was promised |
| Coverage.LateSwapLosesPromise | pkg/paxostest/harness.go:255-271 | the same with a restart that loads before the promise and swaps after it |
| Coverage.CoverageExactly | pkg/paxos/acceptor.go:106-121 | for every cluster and every set of proposers, all answers stay covered in all runs if and only if there is a fence, or no acceptor, or no proposer |
| Coverage.CarefulRunAgrees | pkg/paxostest/harness.go:283-300 | without a fence, a run in which no superseded acceptor saved and every swap matched the disk keeps agreement where no ballot carries two values |
| Coverage.CarefulRunCovers | pkg/paxos/acceptor.go:106-121 | and all its answers stay covered |
| Theorems.CoveredBySameValue | pkg/paxos/acceptor.go:164-179 | where no ballot carries two values, an acceptance held at the ballot of an answered one has its value |
| Theorems.RepliesAreConsistent | pkg/paxos/prepare.go:64-72 | in every reachable state the comparison with the zero ballot drops no acceptance; where no ballot carries two values the replies agree on each ballot |
| Theorems.LedgerAgrees | pkg/paxostest/harness.go:283-300 | where no ballot carries two values the ledger has one value per ballot, and behind a fence its chosen ballots agree |
| Theorems.ReportedIsChosen | pkg/paxos/proposer.go:124-146 | in every reachable state a round reported as chosen was accepted by a quorum of distinct acceptors |
| Theorems.LearnedIsChosen | pkg/node/node.go:337-352 | in every run what a node learned at any moment is chosen from then on |
| Theorems.LearnedFromOwnRound | pkg/node/node.go:337-352 | in every run what a node learned is the ballot and value that a round of its own was reported as chosen with, and stays so |
| Theorems.LearnersAgree | pkg/node/node.go:345-352 | under the conditions of agreement, any two decisions, of any nodes at any two moments of a run, are equal |
| Broadcasts.BroadcastIsRun | pkg/paxos/prepare.go:31-46 | a fan-out is a legal run, with whatever other proposers do in between, and with calls, its own and others', that go on at superseded acceptors and restarts that swap late; it leaves its own proposer as it was, and every filled slot holds a reply of its own peer to this round |
| Broadcasts.RoundIsRun | pkg/paxos/proposer.go:85-147 | a round is a legal run, with all of that in between: one new ballot, the exact tally of what was heard, accepts exactly after a quorum of promises, all with the tallied value, and no other request of its own |
| Broadcasts.FilledExactly | pkg/paxos/prepare.go:31-46 | a reply slot is filled if and only if some call to that peer was answered and the answer came back |
| Broadcasts.RoundReports | pkg/paxos/proposer.go:85-147 | the attempt a round returns says what happened in it: the next ballot, who promised and what value that leads to, who accepted; the highest ballot seen is that of all replies of both phases; chosen exactly with a quorum of acceptances, otherwise aborted exactly when the caller had gone |
| Campaigns.QuietRoundShrinks | pkg/paxos/proposer.go:66-72 | a quiet round is chosen, or fails and after the fast-forward leaves strictly fewer acceptors ahead of the proposer |
| Campaigns.QuietFailuresShrink | pkg/paxos/proposer.go:174-198 | n quiet failures leave at least n fewer acceptors ahead |
| Campaigns.QuietCampaignChooses | pkg/paxos/proposer.go:172-199 | in a quiet period a campaign with more turns than acceptors ahead ends chosen, after no more failures than those |
| Campaigns.NextAttempt | pkg/paxos/proposer.go:58-72 | the ballot of each attempt is one round above the later of the failed attempt before it and the highest ballot that one had seen |
| Campaigns.CampaignGoesOn | pkg/paxos/proposer.go:174-195 | a campaign goes on past an attempt only without a quorum of acceptances and while its caller stays |
| Campaigns.CampaignEnds | pkg/paxos/proposer.go:174-195 | it ends with a quorum of acceptances or because its caller has gone; the proposer's round is then that of its last ballot, and after a failure it has jumped past the highest ballot seen |
| Refinements.CampaignIsRun | pkg/paxos/proposer.go:172-199 | a whole campaign is a legal run, with all of that in between, in which its proposer makes exactly the attempts it reports, in order |
| Refinements.CampaignReportIsChosen | pkg/paxos/proposer.go:174-178 | a campaign reported as chosen was accepted by a quorum, in any cluster; under the conditions of agreement nothing else is chosen in that run |
| Refinements.CampaignBallotsIncrease | pkg/paxos/proposer.go:183-183 | each attempt of a campaign has a higher ballot than all before it |
| Proposers.SendLate | pkg/paxostest/harness.go:102-121 | a call that goes on at an old acceptor of a node is served by that acceptor's memory over the node's store, and leaves the node's memory alone |
| Proposers.PutInPlace | pkg/paxostest/harness.go:267-270 | a restart that swaps late gives the node the memory it had loaded |
| Proposers.Proposer.constructor | pkg/paxos/proposer.go:30-41 | a new proposer is at round zero with the default-filled configuration |
| Proposers.Proposer.NextProposalNumber | pkg/paxos/proposer.go:58-63 | the round goes up by one and the ballot is that round with the proposer's id |
| Proposers.Proposer.FastForwardProposalNumber | pkg/paxos/proposer.go:66-72 | the round becomes the highest of itself and the one seen |
| Proposers.Proposer.GatherPrepares | pkg/paxos/prepare.go:31-46 | over real nodes, the slots end up with the replies of the specified broadcast |
| Proposers.Proposer.GatherAccepts | pkg/paxos/accept.go:26-40 | the same for the second phase |
| Proposers.Proposer.Prepare | pkg/paxos/prepare.go:23-76 | the first phase is the specified broadcast and its exact tally |
| Proposers.Proposer.Accept | pkg/paxos/accept.go:18-55 | the second phase is the specified broadcast and its exact tally |
| Proposers.Proposer.Begin | pkg/paxos/proposer.go:93-118 | the first half of a round: one ballot, its prepares, the tally and its verdict |
| Proposers.Proposer.Conclude | pkg/paxos/proposer.go:120-146 | the second half: the accepts with the tallied value, and the verdict on their replies; what that amounts to is `Broadcasts.RoundReports` |
| Proposers.Proposer.Propose | pkg/paxos/proposer.go:85-147 | a call is one round, whose attempt is as `Broadcasts.RoundReports` says, or aborts with no ballot issued when the caller has already gone |
| Proposers.Proposer.TakeTurn | pkg/paxos/proposer.go:175-195 | one pass of the loop is a failed turn that goes on, or the last turn |
| Proposers.Proposer.Campaign | pkg/paxos/proposer.go:172-199 | the loop is a specified campaign; the backoff it ends with is the one after that many failures, it ends without error exactly when its value is chosen, and in a quiet period with turns enough it does |
| Durability.CrashTransparency | pkg/paxos/acceptor.go:103-119 | whatever crashes, restarts and failed or ambiguous saves happen, a node's replies are those of an acceptor that never stops, fed the requests that count; an ambiguous write is overwritten by the next save or arrives at the restart |
| Durability.TruthfulTransparency | pkg/paxos/acceptor.go:80-188 | with truthful save errors those requests are exactly the ones whose save succeeded or was not needed |
| Ledgers.Ledger.Record | pkg/paxostest/harness.go:32-36 | an acceptance is appended |
| Ledgers.Ledger.Acceptances | pkg/paxostest/harness.go:38-42 | the records are copied out |
| Ledgers.Ledger.ByProposal | pkg/paxostest/harness.go:51-57 | the nested map holds, for each recorded ballot, each acceptor's last value |
| Ledgers.LatestIsLast | pkg/paxostest/harness.go:51-57 | the last value of an acceptor at a ballot is that of its last record there |
| Ledgers.Ledger.Collect | pkg/paxostest/harness.go:64-70 | the ids come out sorted and complete, with the value of one of the acceptors, whichever order the map is visited in |
| Ledgers.Ledger.Chosen | pkg/paxostest/harness.go:50-78 | a ballot is listed exactly when a quorum of distinct acceptors recorded it, strictly by ballot |
| Ledgers.Ledger.AssertAgreement | pkg/paxostest/harness.go:283-300 | the check passes exactly when the listed choices have one value, and with one value per ballot exactly when the records agree |
| Ledgers.ChosenIsUnique | pkg/paxostest/harness.go:59-77 | with one value per ballot every order of visiting the maps gives the same list |
| Statuses.Status | pkg/console/cluster.go:98-146 | the counts, the sorted distinct values, the agreement and settled flags, and the fault flag, which is set exactly when some reached node is disturbed, are those of the snapshots |
| Statuses.StatusNeverDisagrees | pkg/console/cluster.go:123-126 | under the conditions of agreement, snapshots taken at different moments of one run never show two values |
| Statuses.SettledIsChosen | pkg/console/cluster.go:127-130 | in every run a settled value is chosen, and a quorum of different nodes learned it, each from a round of its own that was reported as chosen with it |
| Splits.OneValueNeverSplits | pkg/paxos/prepare.go:48-72 | proposers with one value never get two values chosen, with or without a fence |
| Splits.DistinctIdsNeverSplit | pkg/paxos/proposer.go:34-40 | behind a fence, neither do proposers with distinct ids |
| SmallClusters.SmallRosterAgrees | pkg/paxos/proposer.go:86-87 | behind a fence and over at most two acceptors, neither do proposers that share ids, if those with one id propose one value |
| Reuse.SharedIdSplits | pkg/node/node.go:239-246 | two proposer objects with one id and different values can both be told that theirs is chosen, at the same ballot, over any number of acceptors from one up; the harness's check then fails |
| Reuse.SharedIdAndRivalSplit | pkg/node/node.go:239-246 | over three or more acceptors, so can a proposer whose round was lost at a restart and a rival with another value |
| Handovers.LateCallsSplit | pkg/paxostest/harness.go:102-121 | for any two quorums: if the acceptors they share crash and restart with accept calls out, and these then save, two rounds are reported as chosen with different values and the harness's check fails; no other node fails |
| Handovers.OneLateCallSplits | pkg/paxostest/harness.go:110-121 | the same with three acceptors and one such call |
| Handovers.LateSwapsSplit | pkg/paxostest/harness.go:255-271 | for any two quorums: if restarts of the acceptors they share load before a round and swap after it, the same |
| Exactness.AgreementExactly | pkg/node/node.go:205-262 | for every cluster size and with or without a fence, a set of proposer objects never gets two values chosen, in any run, if and only if it is one of the cases listed above; and so for two values reported, two values learned at any two moments, and a failure of the harness's check |
| Schedules.ServedRound | pkg/paxos/proposer.go:85-147 | any quorum that admits a ballot can promise it and any acceptors that admit it can then accept, in one legal run |
| Duels.Preempt | pkg/paxostest/scenarios_test.go:82-97 | one alternation: a rival's higher prepare reaches everybody first, and the round gets every promise and no acceptance |
| Duels.Livelock | pkg/paxostest/scenarios_test.go:75-108 | for every cluster and every k, two proposers can alternate k times, each round promised by all and accepted by none, with nothing accepted in the end |
| Backoffs.WithDefaults | pkg/paxos/config.go:15-26 | a positive timeout, a positive first backoff and a cap not below the resulting first backoff are kept, and otherwise they are two seconds, 100 milliseconds and two seconds; so a configuration in order is kept whole, and the cap stays below the first backoff exactly when it was below it and that is over two seconds |
| Backoffs.NextBackoff | pkg/paxos/proposer.go:197-197 | one doubling with 64-bit wrap-around, then the cap; a double that fits and is not above the cap is the result |
| Backoffs.BackoffIsCappedExactly | pkg/paxos/proposer.go:173-197 | after every number of failures the backoff is the doubled start up to the cap, if and only if the cap is not below the start and can be doubled in 64 bits |
| Backoffs.JitterIsHalfToThreeHalves | pkg/paxos/util.go:9-14 | the possible sleeps are exactly the durations from half the wait up to a whole wait more, excluded, if and only if the longest fits in 64 bits |
| Recorders.Recorder.constructor | pkg/events/recorder.go:50-62 | a new recorder is empty, with 512 places when the limit is not positive |
| Recorders.Recorder.Publish | pkg/events/recorder.go:146-166 | the event gets the next number, the ring is again the end of the whole log, and each open channel again holds exactly the events published since it was opened, the first 256 of them |
| Recorders.Recorder.Keep | pkg/events/recorder.go:153-158 | the ring shifts in place, or grows |
| Recorders.Recorder.Offer | pkg/events/recorder.go:160-165 | the event reaches exactly the channels with room, in any order of the map, so each still holds the first 256 events since it was opened |
| Recorders.Recorder.Subscribe | pkg/events/recorder.go:127-136 | a new empty channel under an unused number, opened at the present end of the log |
| Recorders.Recorder.Unsubscribe | pkg/events/recorder.go:136-143 | the channel is gone, and cancelling twice is harmless |
| Recorders.Recorder.Latest | pkg/events/recorder.go:108-112 | the number of the last event |
| Recorders.Recorder.Since | pkg/events/recorder.go:114-125 | the loop over the ring returns the part of the whole log after the cursor that is still held |
| Recorders.RecentExactly | pkg/events/recorder.go:114-125 | that part is exactly the events above the cursor among the last `limit` |
| Tailers.EventsSince | pkg/ui/server.go:105-109 | the answer to a poll, with events published between its two reads |
| Tailers.Tailer.Poll | pkg/console/tail.go:56-84 | one pass of the loop: no answer changes nothing, an answer whose last number is below the cursor resets it and emits nothing, and any other emits exactly its events, in order; the other nodes' cursors and output stay |
| Tailers.Tailer.Follow | pkg/console/tail.go:45-86 | over real recorders, any interleaving of publications, polls and restarts of the node's process, each with a new recorder, gives the specified log, cursor and output |
| Tailers.TailIsInOrder | pkg/console/tail.go:72-78 | what is emitted in the life of one recorder is of its log, in strictly increasing order, each event at most once, and what was emitted before stays |
| Tailers.StartsOverExactly | pkg/console/tail.go:65-70 | the cursor is reset exactly when the first answer from a recorder finds its log shorter than the cursor |
| Tailers.StartsFromTheBeginning | pkg/console/tail.go:65-70 | after a reset the next answered poll emits exactly what the new recorder still holds |
| Tailers.OvertakenGoesUnnoticed | pkg/console/tail.go:65-70 | a new recorder that has caught up with the cursor by the first poll is taken for the old one, and an event it holds never comes out |
| Tailers.DeliveredExactly | pkg/console/tail.go:56-84 | in the life of a recorder an event is emitted if and only if it was still among the last `limit` at the first poll that read the log after its publication, and the console had noticed the recorder as new or the event's number is above the cursor it came with |
| Tailers.DeliveredByEach | pkg/console/tail.go:45-86 | so it is for each recorder of a run in which the node's process is restarted any number of times, and what earlier recorders emitted stays |
| Peers.TrimExactly | pkg/cluster/peer.go:21-29 | trimming takes off exactly the blanks at both ends |
| Peers.CutExactly | pkg/cluster/peer.go:16-19 | the cut is at the first separator, and fails exactly without one |
| Peers.AtoiExactly | pkg/cluster/peer.go:21-24 | the id parses exactly when it is an optional sign and one or more digits, each counting its power of ten, in the range of 64 bits |
| Peers.ParsesExactly | pkg/cluster/peer.go:15-35 | a spec parses to a peer if and only if it reads as a numeral that is not negative, the first "@" and a non-empty address, with blanks around each |
| Peers.RefusesExactly | pkg/cluster/peer.go:15-33 | a spec is refused with each error exactly when that is the first thing wrong with it: no "@", no numeral before it, a negative one, or nothing but blanks after it |
| Peers.PeerRoundTrip | pkg/cluster/peer.go:15-35 | any peer with an id in range and a trimmed address survives being written and parsed, with any blanks added |
| Peers.ParsePeers | pkg/cluster/peer.go:37-57 | the list parses exactly when every spec does, no id is the node's own and none repeats; it gives the peers in order, or what is wrong with the first spec at fault |
| Peers.MembersAreDistinct | pkg/node/node.go:235-237 | the node and its parsed peers are distinct acceptors, as many as specs and one more, so slots count acceptors |

## Left out

- Proposers.Proposer.Campaign: the code's loop runs until it is told to stop; here the list of turns is finite and the caller goes in the last one at the latest, so nothing is said of a campaign that never ends.
- Nodes.Node.Prepare: a call during which the node keeps its acceptor; one that outlives it is `Nodes.Node.PrepareAt`.
- Nodes.Node.Accept: the same; one that outlives its acceptor is `Nodes.Node.AcceptAt`.
- Nodes.Node.RestartNow: a restart during which nothing is saved; its halves are `Nodes.Node.LoadNew` and `Nodes.Node.Install`.
- Durability.CrashTransparency: the life of a node has no call at a superseded acceptor; what such a call does to the cluster is in `Coverage` and `Handovers`.
- Two campaigns of one proposer object at once: rounds of one object interleave freely in the cluster machine, but the script of a round or campaign has only other proposers beside it.
- `Node.Reset` (`pkg/node/node.go:423-454`) wipes an acceptor's promises on purpose; the theorems are about runs without it.
- gRPC, protobuf and conversion code: field-by-field copies, replaced by the message network.
- bbolt and JSON encoding, and a store that cannot be opened, loaded or is missing: the store is a cell whose save may fail with or without effect.
- Fault injection (`pkg/fault`): random drops and delays, covered by a network that may do both.
- Real time, contexts and goroutines: cancellation is a boolean, a fan-out is a list of events in any order, and what runs under one mutex is one step. Fetching a node's acceptor and calling it, and the load and the swap of a restart, are steps of their own.
- The ledger entry of an acceptance is made in the step that accepts; the code makes it just after.
- Overflow of a proposer's round and of an event's number, which takes 2^63 and 2^64 increments.
- The width of values, which are only copied and compared; drop rates are exact numbers.
- Proposer ids and timestamps inside requests, logging, and the `Round` and `State` accessors: not read by the logic modelled.
- Node lifecycle flags (`campaigning`, `campaignCancel`) and chaos mode: "one campaign at a time" is not kept by the code (`pkg/node/node.go:320-324`), and nothing here needs it.
- Console scenarios, HTTP handlers, templates and the command line: input and output.
- Reading from a subscriber's channel: a channel holds what it was offered and had room for.
- `appendAttr` and the contents of an event: an event is its number and a text.
- The library sorts are modelled by insertion, with the same sorted result.
- A map's iteration order is modelled by an arbitrary choice of the next key.
