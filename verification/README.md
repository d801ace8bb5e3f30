# Leadership, membership and job processing: a verified model

This project models, in Dafny, the coordination logic of a distributed job processor written in Go:

- **The leadership claim.** All election algorithms share one MongoDB collection of node documents.
  `AtomicClaimLeadership` is not atomic: it is five separate store operations (clear stale flags, count other
  recent leaders, raise the own flag, sleep, count again and back off on conflict). `ClaimProtocol` interleaves
  these operations of any number of nodes with heartbeats that land late and with step-downs, over one clock.
  Heartbeats are stamped by the client, anywhere between launch and landing. `ClaimSchedule`, `ClaimExclusive`,
  `ClaimRuns`, `ClaimSplits` and `ClaimBounds` prove for which schedules at most one node holds a claim, exactly;
  `ClaimTerms` says when the claims of a run are bids that Raft has validated; `ClaimAlone` follows a claimant that
  nobody disturbs. `NodeStore` is the call itself, proved to do what the protocol's steps do.
- **Raft.** `RaftNode` is the node that uses the claim. `RaftVotes` runs its loop beside the goroutines it leaves
  behind (late vote replies, heartbeat bodies that compare with a term read earlier); `RaftTerms` and
  `RaftReversal` follow the terms that claims write into the registry. Votes are simulated by the code, so single
  leadership rests on the claim and not on them.
- **Bully.** `NodePriority` is the base-31 hash with 64-bit wrap-around, `BullyElection` the node,
  `BullyProtocol` the same operations split into single registry accesses, `BullyChecks` the proof that an undisturbed
  check is a run of those, and `BullyConvergence` the proof that the top node prevails from any state, and that leaders
  are not deposed otherwise. `BullyRules` holds what they share.
- **Gossip.** `GossipTable` holds the member table and its handlers; `GossipMerge`, `GossipAgeing` and
  `GossipLeader` prove when exactly merging is order-free, that members never go back, how soon failures are
  detected, and that the choice of a leader is a function of the table.
- **Jobs.** `RedisQueue` holds the four lists and the sorted set, `WorkerPool` the life of one job in one worker,
  `JobSystem` any number of workers interleaving single commands, movers included. `NoLoss`, `Movers`,
  `Duplicates`, `ExactlyOnce`, `JobRecords`, `ProcessingList`, `QueueOrder`, `JobHistory` and `Termination` prove what
  its runs keep; `JobRounds` shows that a round of the pool is one of its runs, and `JobSums` counts over the lists and
  the workers.
- **Small arithmetic.** `RetryPolicy` is the exponential delay with jitter, `RoundRobin` the balancer.

Code that changes fields in place is a class whose methods are proved against functions on values; runs of
interleaved steps are sequences of states and actions over the same functions. Lemmas named after a failure
(`DefaultIntervalSplits`, `LateBeatRepeatsATerm`, `LeadersReverse`, `MoversRepeatAJob`, `LateFlagDeposesTheTop`,
`PrioritiesCollide`, `ThirtyFifthRetryIsImmediate`, and so on) construct a concrete input or run on which the code
misses the property.

## What the proofs found

- Let claims end within C, holders launch a heartbeat at least every P, and a heartbeat land within D, in
  milliseconds. Leadership is exclusive on every run **if and only if** nobody can hold a claim at all (C < 100, or a
  negative limit), or D <= 2000, C + D <= 10000 and, unless P = 0, also P + 2 D <= 3100 and either D < 100 or both
  C <= 2100 and C + 2 D <= 3100 (`ClaimBounds.ExclusiveExactly`). Two delays count because a heartbeat that was
  stamped early and lands late sets a document back.
- A timer, as in the leader loop of Raft, also waits for the period to end. Then, for D < 100, the exact bound is
  P + D <= 3100 in place of P + 2 D <= 3100, as heartbeats land one by one; for D >= 100 nothing changes, as those of
  an earlier tenure can still set the document back. Outside the bound the two holders come about from an empty
  registry, and with every claim in a term that the validation of Raft has accepted
  (`ClaimBounds.OtherSchedulesSplit`, `ClaimTerms.RisingIsValidated`).
- README.md:133 of the repository gives 30 s as the default `ELECTION_INTERVAL`. A Raft leader then refreshes its
  document every 5 s, and a second node can hold a claim at the same time, however fast claims and writes are
  (`ClaimBounds.DefaultIntervalSplits`). Intervals are safe exactly up to 18.6 s less six write delays, or less twelve
  if a write can take 100 ms or more (`ClaimBounds.IntervalsExactly`); the 2 s that README.md:201 recommends for Raft
  are (`ClaimBounds.RecommendedIntervalIsExclusive`).
- The leader of a higher term can be followed by the leader of a lower one: a claim writes the term it validated
  before, whatever was written meanwhile (`RaftReversal.LeadersReverse`; the exact condition per claim is
  `RaftTerms.ClaimTopsExactly`).
- A Raft node's term can fall, and it can campaign in one term twice, only because the body of `sendHeartbeats`
  compares with a term it read earlier. The same split in `receiveHeartbeat` is harmless.
- The removal from the processing list compares the whole serialised job, which the worker has rewritten since
  `Pop`. As long as no push is repeated it never matches: the list is the history of all pops. Comparing ids would
  make it the jobs in hand, in every interleaving.
- README.md:144 calls `MAX_RETRIES=3` the maximum of retry attempts. As long as no mover pushes an entry that another
  has pushed, the code processes a job at most three times in all, so it retries twice
  (`Duplicates.AttemptsWithoutRepeats`). Movers read and push in two steps, so they can repeat a push, without any
  failure; then a job with one attempt is processed twice (`Duplicates.MoversRepeatAJob`). Each repeated push costs at
  most the attempts its entry has left (`Duplicates.AttemptsAreBounded`), and a job is in exactly one place exactly
  until the first of them (`ExactlyOnce.ExactlyOnceExactly`). Every job still ends (`Termination.EveryJobEnds`).
- Merging member lists is free of order exactly if the records of the highest incarnation agree
  (`GossipMerge.MergeIsOrderFreeExactly`). Ageing, suspicion and discovery change a record without raising its
  incarnation, so two nodes that hear the same can be left with different states of a member.
- With the default base delay of 1 s and multiplier 2, the 35th failure in a row overflows the conversion to a
  duration, on the platforms where that yields the least integer, and the retry is immediate.

## Model

| member | source | states |
|---|---|---|
| ClaimProtocol.KeptStep | internal/storage/mongodb.go:340-435 | Every store operation of every node keeps the flag discipline: a flag raised by a claim under way or held stays up unless it is already stale. |
| ClaimProtocol.VerificationSees | internal/storage/mongodb.go:402-433 | A verification counts both its own flag and that of any holder whose document is recent enough, so the claimant backs off. |
| ClaimProtocol.FreshStep | internal/storage/mongodb.go:340-435 | Under the 2.1 s freshness bound no single step creates a second holder. |
| ClaimProtocol.FreshHoldersAreUnique | internal/storage/mongodb.go:340-435 | In every interleaving of the separate store operations, heartbeats and step-downs, whatever the claim durations and heartbeat stamps, no two nodes hold a claim at once if every holder's document is at most 2.1 s old. |
| ClaimSchedule.TendedStep | internal/election/raft.go:340-410 | One step of any node keeps, for every holder, either a landed heartbeat of its tenure and the next one on its way within the period, or the first one still in flight. |
| ClaimSchedule.ApartStep | internal/election/raft.go:404-407 | Every step keeps a claimant without heartbeats of its own tenure in flight, and a timed holder with at most one, if writes land within 100 ms and a period. |
| ClaimSchedule.ScheduleKeepsHoldersFresh | internal/storage/mongodb.go:289-304 | The freshness hypothesis discharged for client-side stamps: in every reachable state a holder's document is at most a period, a setback and a write delay old, or a claim and two write delays. |
| ClaimExclusive.PasserIsRecent | internal/storage/mongodb.go:402-433 | Of two claimants whose verifications overlap, the one that passes read its clock so late that its document counts for the other. |
| ClaimExclusive.OrderedStep | internal/storage/mongodb.go:340-435 | While a claimant verifies, every step keeps each holder recent, or a holder from before the claimant raised its flag. |
| ClaimExclusive.HolderIsSeen | internal/storage/mongodb.go:402-433 | Within the bound a holder's flag is up and inside the 2 s window of whoever verifies next. |
| ClaimExclusive.ExclusiveStep | internal/storage/mongodb.go:340-435 | One step within the bound keeps at most one holder. |
| ClaimExclusive.NoClaimFinishes | internal/storage/mongodb.go:402-403 | A claim that must end before the 100 ms sleep is over never holds, nor does one whose heartbeat would be due or land before it starts. |
| ClaimExclusive.SchedulesAreExclusive | internal/storage/mongodb.go:340-435 | Mutual exclusion on every run of every schedule within the bound, with heartbeats stamped by the client anywhere between launch and landing. |
| ClaimSplits.SlowHeartbeatsSplit | internal/storage/mongodb.go:358-373 | Period and two delays above 3.1 s, and heartbeats launched at any time: a late heartbeat sets the document back and a second node counts nobody. |
| ClaimSplits.SlowTimersSplit | internal/election/raft.go:404-407 | Period and one delay above 3.1 s, for a timer too: the document is too old before the next heartbeat lands. |
| ClaimSplits.EarlierTenureSplits | internal/storage/mongodb.go:289-304 | The same for a timer and writes of 100 ms or more: a heartbeat of an earlier tenure lands after the first of the new one and sets the document back. |
| ClaimSplits.SlowClaimsSplit | internal/storage/mongodb.go:402-433 | Claims above 2.1 s with writes of 100 ms: the second claimant counts before the first raises, and verifies after the flag is too old. |
| ClaimSplits.SlowStartsSplit | internal/storage/mongodb.go:402-433 | Claim and two delays above 3.1 s: a heartbeat of an earlier tenure sets the document back before the first one of the new tenure lands. |
| ClaimSplits.OldHeartbeatSplits | internal/storage/mongodb.go:375-433 | Writes above 2 s: both raise together, and an old heartbeat takes one of them out of the other's window. |
| ClaimSplits.StaleFlagSplits | internal/storage/mongodb.go:340-357 | Claim and delay above 10 s: a third node clears a claimant's flag as stale while it still verifies. |
| ClaimBounds.OtherSchedulesSplit | internal/storage/mongodb.go:340-435 | Every schedule outside the bound, timed or not, has a run from an empty registry with nothing in flight that ends with two holders, each claim in a term above all in the registry. |
| ClaimTerms.RisingIsValidated | internal/election/raft.go:805-844 | On a run whose claims write rising terms, each term passes the validation over the documents as they are where its claim begins, whatever the window for rivals. |
| ClaimBounds.ExclusiveExactly | internal/storage/mongodb.go:340-435 | For all limits of claim duration, heartbeat period and write delay, timed or not: leadership is exclusive on every run if and only if they are within the bound, and the same over just the runs from a cold start whose claims pass the term validation of Raft. |
| ClaimBounds.FreshnessExactly | internal/storage/mongodb.go:402-433 | If only the claim duration and the age of holders' documents are limited: exclusive on every run if and only if claims cannot finish or documents are at most 2.1 s old. |
| ClaimBounds.IntervalsExactly | internal/election/factory.go:35-40 | For every election interval, through the factory's interval/3, its 50 ms floor, the leader loop's halving and its timer, over validated bids from a cold start: exclusive exactly up to 18.6 s less six write delays, or less twelve for writes of 100 ms or more, with claims quick enough for such writes. |
| ClaimBounds.DefaultIntervalSplits | internal/election/raft.go:350-352 | The documented default of 30 s admits two leaders, each after a validated bid, however fast claims and writes are and although the timer is exact. |
| ClaimBounds.RecommendedIntervalIsExclusive | internal/election/raft.go:350-352 | The 2 s recommended for Raft are exclusive on every run if claims end within 2.1 s and writes take at most 0.5 s, even with more heartbeats than the timer launches. |
| ClaimAlone.ReachedStep | internal/storage/mongodb.go:340-435 | While one node alone claims, every step keeps what its phase says about the count, the write and the documents of others. |
| ClaimAlone.LoneClaimSucceeds | internal/storage/mongodb.go:340-435 | Over runs with arbitrary pauses and up to two failed verifications: a lone claimant holds if and only if at its count no other flag was seen within 3 s and its document, where it writes, is missing or has another flag, time, profile or term; it never backs off. |
| Registry.RaiseChangesExactly | internal/storage/mongodb.go:376-435 | The write of a claim counts as a change if and only if it leaves another collection behind. |
| NodeStore.MongoStorage.RegisterNode | internal/storage/mongodb.go:289-304 | The upsert sets flag, time and profile of one document, leaves its term and all other documents. |
| NodeStore.MongoStorage.GetNodes | internal/storage/mongodb.go:306-329 | Exactly the documents seen within five minutes. |
| NodeStore.MongoStorage.AtomicClaimLeadership | internal/storage/mongodb.go:340-435 | Result and final collection for every fault of every operation, applied or not, and every interference before the count, between count and write, and between the verifications, on the claimant's own document too; a conflict is exactly two recent leaders, whoever they are, and without one the call returns true exactly if its write made the collection another one. |
| NodeStore.ClaimIsPlayed | internal/storage/mongodb.go:340-435 | For all faults and interferences the call leaves the collection where the interleaved protocol's own steps lead, and returns true exactly if they end in holding; so what is proved of the protocol's steps is proved of the call. |
| NodeStore.LoneCallSucceeds | internal/storage/mongodb.go:340-435 | A call without interference, some verification of which is answered, returns true if and only if no other flag was seen within 3 s and the own document is missing or has another flag, time, profile or term. |
| NodeStore.UndisturbedClaimIsAlone | internal/storage/mongodb.go:358-433 | Without interference the verification never conflicts, and the claim fails only if all three verifications err. |
| RaftNode.RaftNode.StartCampaign | internal/election/raft.go:275-283 | The term rises by one and the node's own vote is the only one. |
| RaftNode.RaftNode.HandleVoteResponse | internal/election/raft.go:577-601 | A granted reply of exactly the current term adds its voter to the votes of a candidate; any other reply changes nothing, and no reply changes anything else. |
| RaftNode.RaftNode.BecomeFollowerUnsafe | internal/election/raft.go:930-955 | The node follows, its term becomes the greater of the two, and a candidate or leader loses its votes. |
| RaftNode.RaftNode.ValidateTermConsistency | internal/election/raft.go:805-844 | Succeeds if and only if the read does, no visible document has a higher term and no recent rival leads in this one, in any order of the documents; a failure that is not the read's either takes over the higher term of a visible document, or leaves the term and names a recent rival in it. |
| RaftNode.RaftNode.ReceiveHeartbeat | internal/election/raft.go:735-775 | A heartbeat is heard if and only if the read succeeds and a recent leader's term is not behind, and the term becomes that leader's. |
| RaftNode.RaftNode.SendHeartbeats | internal/election/raft.go:603-652 | A leader refreshes its document unless the write is lost, and stays leader if and only if its read errs or shows no higher term and no other leader of its term; one that steps down has taken over the higher term of a visible document, or keeps its term and another leader has it too. |
| RaftNode.RaftNode.BecomeLeader | internal/election/raft.go:458-518 | The class method, any of whose store operations may fail: a candidate leads afterwards if and only if its documents are consistent, its votes are more than half of the visible nodes and its claim returns true, and it claims in no other case; otherwise it follows without votes, in a higher term exactly if the validation failed. It is one bid of the run model, and a leader's document is in its term. |
| RaftVotes.KeptStep | internal/election/raft.go:275-338 | The invariant of the run loop and its late goroutines, step by step. |
| RaftVotes.OnRecord | internal/election/raft.go:537-601 | Every recorded grant and request was really sent, the request with the node's term of that moment. |
| RaftVotes.VotesAreSound | internal/election/raft.go:577-601 | While a campaign is under way, or the node leads, every vote but its own was granted to a request that carried exactly the current term, for any delay, repetition or order of replies. |
| RaftVotes.VotesAreReplies | internal/election/raft.go:577-601 | No vote is dropped: in a campaign still under way a candidate's votes are exactly its own and those of all who granted its term in a reply that arrived since the campaign began, for any delay, repetition or order. |
| RaftVotes.BidLeadsExactly | internal/election/raft.go:458-518 | A bid makes a leader if and only if it is a candidate's, valid and claimed, and those who granted the term of this campaign are, with the node itself, more than half of the nodes. |
| RaftVotes.LeadersHaveMajorities | internal/election/raft.go:458-518 | A node leads only after a valid, claimed bid, and holds from it the term and the votes, more than half of the nodes counted. |
| RaftVotes.CampaignEndsExactly | internal/election/raft.go:298-337 | A campaign ends in another candidacy exactly if it times out, in leadership only by a winning bid, and in following otherwise. |
| RaftVotes.LeadershipEndsExactly | internal/election/raft.go:603-652 | Leadership ends exactly by a heartbeat body that finds a higher term or another leader, or by stepping down; every other step leaves role, term and votes. |
| RaftVotes.MajoritiesWin | internal/election/raft.go:275-337 | For every set of voters that with the node itself is more than half of the nodes there is a run in which their votes arrive and the node leads by them. |
| RaftVotes.CampaignTermIsPositive | internal/election/raft.go:275-283 | A node campaigns in a term of at least 1. |
| RaftVotes.TermFallsExactly | internal/election/raft.go:603-638 | A step lowers the term if and only if it acts on a heartbeat comparison with an outdated term. |
| RaftVotes.HearingIsCurrent | internal/election/raft.go:735-767 | If heartbeat bodies of leaders are whole, nothing moves the term while receiveHeartbeat runs, split or not. |
| RaftVotes.TermsNeverFall | internal/election/raft.go:603-638 | With whole sendHeartbeats bodies the term never falls over a run. |
| RaftVotes.CampaignsRise | internal/election/raft.go:275-283 | With whole sendHeartbeats bodies no node campaigns twice in one term. |
| RaftVotes.LateBeatRepeatsATerm | internal/election/raft.go:603-638 | With split bodies a run exists in which a late heartbeat lowers the term from 3 to 2 and the node campaigns in term 3 again. |
| RaftTerms.TermsKeep | internal/storage/mongodb.go:289-304 | No store operation but a claim's write changes a document's term; new documents have term 0. |
| RaftTerms.ClaimsTopTheRegistry | internal/storage/mongodb.go:376-397 | If validation sees every document and no other claim writes in between, the written term is at least every term in the registry. |
| RaftTerms.ReachedStays | internal/storage/mongodb.go:376-397 | On such runs the highest term of the registry is never lost, although its document may be overwritten. |
| RaftTerms.LeaderTermsNeverFall | internal/election/raft.go:458-503 | On such runs the terms of successive claims never decrease. |
| RaftTerms.ValidationTopsExactly | internal/election/raft.go:805-844 | A validated term tops the registry if and only if no document unseen for five minutes has a higher one. |
| RaftTerms.ClaimTopsExactly | internal/election/raft.go:458-503 | Per claim, on every run: the written term tops the registry if and only if no document out of sight at its validation, and no write of another claim since, still stands with a higher term. |
| RaftReversal.LeadersReverse | internal/election/raft.go:458-503 | Two nodes validate the same registry, both claims succeed one after the other, and the leader of term 2 is followed by the leader of term 1. |
| NodePriority.CalculatePriority | internal/election/bully.go:307-318 | The loop computes the wrapping base-31 hash, negated when negative. |
| NodePriority.WrapExactly | internal/election/bully.go:307-318 | Overflow is the one value in the 64-bit range with the same remainder by 2^64. |
| NodePriority.PriorityIsSum | internal/election/bully.go:307-318 | For every id the priority is its base-31 sum, or the negation of that, up to multiples of 2^64, and not negative unless it is the least integer. |
| NodePriority.NoOverflow | internal/election/bully.go:307-318 | Twelve ASCII characters never wrap. |
| NodePriority.PriorityOrdersIds | internal/election/bully.go:307-318 | For a common prefix and equally many digits, at most twelve characters, priorities order ids lexicographically and distinguish them. |
| NodePriority.PrioritiesCollide | internal/election/bully.go:307-318 | Letters do collide: any two ids of at most ten more ASCII characters ending in "Aa" and "BB". |
| BullyElection.BullyNode.UpdateNodes | internal/election/bully.go:144-180 | The cache holds exactly the visible nodes with their times, or stays as it is if the read errs. |
| BullyElection.BullyNode.GetHighestPriority | internal/election/bully.go:320-330 | The greatest priority among the node and the recent cached nodes, in any map order. |
| BullyElection.BullyNode.GetCurrentLeader | internal/election/bully.go:348-367 | Some recent cached node that an answered query shows leading, or none if there is none. |
| BullyElection.BullyNode.ClearExistingLeaders | internal/election/bully.go:369-402 | Exactly the flags of visible leaders of lower priority are lowered, and their documents refreshed, as far as the read and each write get through; every other document is as before. |
| BullyElection.BullyNode.BecomeLeader | internal/election/bully.go:240-263 | Afterwards the flag of every visible leader of lower priority is down unless its clearing failed, and nothing else of the others has changed; the node leads if and only if its registration was answered. |
| BullyElection.BullyNode.StepDown | internal/election/bully.go:265-283 | The local flag is down, and the registered one unless the write is lost. |
| BullyElection.BullyNode.SendHeartbeat | internal/election/bully.go:285-305 | The registered flag becomes the local one. |
| BullyElection.BullyNode.CheckLeadership | internal/election/bully.go:182-238 | With any of its store operations failing: a node that is outranked, or finds another leader and not itself, ends up not leading and writes nothing unless it led; a node that is not outranked and finds nobody else ends up leading if it led before or its registration is answered; a step-down lowers the own flag alone, a rise clears lower leaders first. Without failures the check is a run of the interleaved protocol's steps. |
| BullyChecks.ChecksOut | internal/election/bully.go:182-402 | Every undisturbed check, whatever leader its scan finds, is a run of single registry accesses of the protocol, in any cluster, to the flags and the registry that its decision calls for. |
| BullyConvergence.SilentStep | internal/election/bully.go:182-305 | Each stage by which a lower node falls silent is kept by every step of every node. |
| BullyConvergence.RoundSilences | internal/election/bully.go:182-305 | One check and one full heartbeat silence a lower node, whatever was under way before. |
| BullyConvergence.LeadingStep | internal/election/bully.go:182-305 | Once the others are silent every stage of the top node's rise is kept. |
| BullyConvergence.RoundCrowns | internal/election/bully.go:182-305 | Then one check and one heartbeat of the top node make it the leader, locally and in the registry. |
| BullyConvergence.TopNodePrevails | internal/election/bully.go:182-402 | From any flags, any checks and heartbeats under way and any registry, with the cache read and rated at separate times: after a round of every other node and then one of the top node, the top node is the only leader at every later point. |
| BullyConvergence.LateFlagDeposesTheTop | internal/election/bully.go:182-305 | From every state in which the top node leads and a lower node's heartbeat with a raised flag is under way there is a stable run of five steps in which the top node steps down. |
| BullyConvergence.LeadershipNeedsAFullScan | internal/election/bully.go:182-238 | On every run a node that does not lead comes to lead only after a scan of its own that found no recent leader, whatever its priority. |
| BullyConvergence.LeadersAreNotDeposed | internal/election/bully.go:182-238 | Leadership is not preemptive: while another node, of whatever priority, is a recent leader in the registry, a node that does not lead does not come to lead, on every run. |
| GossipTable.GossipNode.MergeMemberList | internal/election/gossip.go:339-360 | The table becomes the fold of the merge over the list. |
| GossipTable.GossipNode.HandleSuspicion | internal/election/gossip.go:381-398 | Exactly an alive member becomes suspected, by a suspicion that is not older, and exactly then the suspicion is kept; all else stays. |
| GossipTable.GossipNode.DiscoverNodes | internal/election/gossip.go:232-261 | Exactly the other visible nodes join, as alive with the given incarnation; those that were members keep their records but for the time of their documents; in any order. |
| GossipTable.GossipNode.UpdateMemberStates | internal/election/gossip.go:400-443 | Member by member and in any map order: what becomes suspected or failed, which failed ones go after more than four timeouts, which suspicions are noted, dropped or kept; all else stays. |
| GossipTable.GossipNode.HandleLeadershipInfo | internal/election/gossip.go:362-379 | Only a strictly newer term changes the leader; the registry is written only when the leader changes. |
| GossipMerge.MergeKeepsNewest | internal/election/gossip.go:339-360 | After any list the table has exactly the ids held or heard, each with its highest-incarnation record, and the own record untouched. |
| GossipMerge.MergeExplained | internal/election/gossip.go:339-360 | Each id ends with what was held or, if the list exceeds that, with a record of the list's highest incarnation. |
| GossipMerge.MergeIsOrderFreeExactly | internal/election/gossip.go:339-360 | Every list of the same entries, in any order and number, leaves the same table up to addresses if and only if for each other id the list's records of the highest incarnation, if above the one held, agree up to addresses. |
| GossipMerge.GossipIsOrderFreeExactly | internal/election/gossip.go:339-360 | The same for any sequences of lists, however the entries are spread over messages. |
| GossipAgeing.StepNotBack | internal/election/gossip.go:232-443 | One step moves no member back in (incarnation, state), and drops only failed ones. |
| GossipAgeing.MembersNeverGoBack | internal/election/gossip.go:232-443 | While a member stays in the table, (incarnation, Alive < Suspected < Failed) is non-decreasing over every run. |
| GossipAgeing.OnlyFailedMembersLeave | internal/election/gossip.go:437-442 | A member leaves only in a sweep, unheard for more than four suspicion timeouts, and failed: before the sweep, or as a suspected one that the sweep itself gives up. |
| GossipAgeing.SelfStaysSuspected | internal/election/gossip.go:381-410 | A node told of its own suspicion keeps its record suspected for ever. |
| GossipAgeing.SweepIsPointwise | internal/election/gossip.go:400-443 | Sweeping the table, with both its clock readings, is sweeping each other member by itself. |
| GossipAgeing.OldGossipIsNoNews | internal/election/gossip.go:339-360 | Gossip with records no newer than the one held changes nothing of a member. |
| GossipAgeing.DetectedInTime | internal/election/gossip.go:177-190 | On every run of the table, with a sweep in every half timeout S, a member of which nothing is heard is suspected by 1.5 S, failed by 2.5 S and removed by 4.5 S. |
| GossipAgeing.NotDetectedEarly | internal/election/gossip.go:400-443 | On every run it is not suspected or failed while no sweep reads a clock beyond S or 2 S after it was last seen, nor removed while no removal reads one beyond 4 S. |
| GossipLeader.BeforeExactly | internal/election/gossip.go:488-497 | The order on ids is the lexicographic one: a proper prefix first, otherwise the first differing character decides. |
| GossipLeader.BestIsUnique | internal/election/gossip.go:464-497 | At most one member has the greatest priority and, among those, the smallest id. |
| GossipLeader.ChoiceIsSmallest | internal/election/gossip.go:488-497 | The candidate loop returns the smallest id, in any order. |
| GossipLeader.OrderDoesNotMatterExactly | internal/election/gossip.go:488-497 | The candidate loop returns the same id for every order of distinct candidates if and only if none has an empty id or there is only one; the configuration yields no empty id. |
| GossipLeader.ElectFrom | internal/election/gossip.go:464-497 | Under every map order the loops find the best alive member with a priority of at least -1, or nobody exactly if there is none. |
| GossipLeader.ElectLeader | internal/election/gossip.go:464-519 | The leader becomes the best member; term, flag and registry change exactly when the leader does. |
| GossipLeader.EqualViewsAgree | internal/election/gossip.go:464-503 | Tables that agree on states and priorities yield the same leader. |
| RedisQueue.InsertAt | internal/queue/redis.go:46-52 | A delayed job lands after every member whose scheduled second is not later. |
| RedisQueue.DueOrder | internal/queue/redis.go:135-140 | The due jobs of a sorted set are sorted by scheduled second. |
| RedisQueue.WithoutDue | internal/queue/redis.go:146-150 | Removing the first due job leaves the other due jobs and all jobs not due. |
| RedisQueue.CarriedAll | internal/queue/redis.go:146-156 | A pipeline of all LPUSH and ZREM pairs moves exactly the due jobs, in score order behind the ready ones. |
| RedisQueue.CarriedReady | internal/queue/redis.go:146-156 | Of a pipeline that breaks off after n commands the first (n + 1)/2 entries of the snapshot, no more, have been pushed, in order. |
| RedisQueue.CarriedDelayed | internal/queue/redis.go:146-156 | And exactly the first n/2 entries have left the sorted set. |
| RedisQueue.CarriedKeeps | internal/queue/redis.go:146-156 | However far the pipeline gets, every job is still ready or delayed. |
| RedisQueue.RedisClient.Push | internal/queue/redis.go:39-57 | A job scheduled strictly later is added to the sorted set alone, any other to the head of the ready list alone, unless the write is lost. |
| RedisQueue.RedisClient.MoveDelayedJobs | internal/queue/redis.go:135-156 | The loop carries out exactly the commands of the pipeline that get through, and none if the read errs: which entries are pushed, in which order, and which leave the sorted set. |
| RedisQueue.RedisClient.Pop | internal/queue/redis.go:59-80 | What is ready after the mover is what remains followed by the job returned, so the oldest goes and no other; it is noted as processing unless the note is lost. A BRPOP without an answer drops the oldest job, a lost one or an empty list nothing, and the other lists are as the mover left them. |
| RedisQueue.RedisClient.RemoveFromProcessing | internal/queue/redis.go:126-133 | The first entry that is identical in every field goes, if there is one, and nothing else; none if the removal is lost. |
| RedisQueue.RedisClient.Complete | internal/queue/redis.go:82-93 | The job becomes the head of the completed list exactly if the removal is answered and the LPUSH is carried out, and no other list but the processing list changes. |
| RedisQueue.RedisClient.Fail | internal/queue/redis.go:95-106 | The same for the failed list. |
| RedisQueue.RedisClient.Retry | internal/queue/redis.go:108-115 | Exactly if the removal is answered and the push is carried out the job comes back, scheduled for the delay after the removal and otherwise as it is: into the sorted set if that lies beyond the later reading of the clock, and to the head of the ready list if not. |
| WorkerPool.Pool.UpdateJob | internal/storage/mongodb.go:124-140 | The job is stamped in any case and stored only if it was, unless the write is lost; only an answered write of a stored job succeeds. |
| WorkerPool.Pool.HandleJobSuccess | internal/worker/pool.go:162-181 | The job is stored as completed, with the time, and handed as stored to the completed list alone, under every combination of failing operations. |
| WorkerPool.Pool.HandleJobFailure | internal/worker/pool.go:211-229 | The job is stored as failed, with the message, and handed as stored to the failed list alone. |
| WorkerPool.Pool.HandleJobError | internal/worker/pool.go:183-209 | The attempt counts; while the count is below the maximum the job is stored as retrying and queued again for the delay after its removal, otherwise it is stored as failed and handed to the failed list. |
| WorkerPool.Pool.ProcessJob | internal/worker/pool.go:109-160 | The whole round under every combination of failing operations: what is popped, stored and left in the queue, the worker idle again and counted exactly when it got a job. |
| JobRounds.RoundIsRun | internal/worker/pool.go:109-160 | A round of the method, broken-off pipelines, unanswered pops and failing last operations included, leaves the queue and the records as a run of one worker's single commands in the interleaved system does, whatever the others are doing. |
| JobHistory.ExplainedStep | internal/worker/pool.go:109-229 | Every step, failing or not, leaves each entry and each job in hand explained by earlier steps. |
| JobHistory.EveryEntryIsExplained | internal/worker/pool.go:109-229 | On every run: what waits is as submitted or as the retry of a failed attempt made it, a job in hand is that entry as its worker has rewritten it, a completed job comes from a processor that succeeded, and a failed one from a missing processor or an error in its last attempt. |
| JobHistory.RetriesWait | internal/queue/redis.go:108-115 | On every run a job handed to a worker was submitted as it is, or its last attempt failed at an earlier step and the delay counted from that failure is over, up to one second. |
| NoLoss.ShadowStep | internal/queue/redis.go:135-156 | A ZREM by a mover with a stale snapshot never removes the last trace of a job: a push of the same attempt came first, and a retried job has other bytes. |
| NoLoss.PresentStep | internal/queue/redis.go:39-156 | No single command loses a job. |
| NoLoss.SafeStep | internal/queue/redis.go:135-156 | Every mover's next ZREM stays covered by what it has pushed. |
| NoLoss.NoJobIsLost | internal/queue/redis.go:39-156 | At least once: with workers interleaving single commands, stale snapshots and broken-off pipelines included, every accepted job is ready, delayed, in hand, completed or failed. |
| Movers.LineageStep | internal/queue/redis.go:135-156 | Every step, failing or not, keeps every entry an attempt of an accepted job, and every snapshot entry still to be pushed either delayed or pushed by another mover. |
| Duplicates.PotentialStep | internal/worker/pool.go:183-209 | Attempts made plus attempts still possible grow only by a push of an entry that was pushed before, by what that entry has left. |
| Duplicates.AttemptsAreBounded | internal/worker/pool.go:183-209 | On every run, whatever interleaves and fails: a job submitted with retry count r is processed at most max(1, MaxRetries - r) times, and for each repeated push at most as often again as that entry has attempts left. |
| Duplicates.AttemptsWithoutRepeats | internal/worker/pool.go:183-209 | Without repeated pushes the retry test alone bounds the attempts. |
| Duplicates.MoversRepeatAJob | internal/queue/redis.go:135-156 | Two movers with one snapshot: a run of fourteen steps without any failure processes a job with one attempt twice. |
| ExactlyOnce.ExactStep | internal/queue/redis.go:39-156 | Every command that repeats no push keeps each job in one place, and what was pushed older than every attempt still to be queued. |
| ExactlyOnce.RepeatIsSecondPlace | internal/queue/redis.go:146-150 | A push of an entry that was pushed before puts its job into one place too many. |
| ExactlyOnce.ExactlyOnceExactly | internal/queue/redis.go:59-156 | In a run without failures each accepted job occurs exactly once over all five places, and nothing else occurs, up to any point if and only if until then no mover pushes an entry that was pushed before. |
| ExactlyOnce.AtomicMoversAreFresh | internal/queue/redis.go:135-156 | Movers that run as one step never repeat a push. |
| ExactlyOnce.AbandonedJobIsNowhere | internal/queue/redis.go:82-115 | After an unanswered BRPOP, a failing removal or a failing last push the job is in none of the five places, unless a pipeline that broke off left its entry in the sorted set. |
| ExactlyOnce.BalancedStep | internal/worker/pool.go:109-229 | Every step keeps the books between counters, lists and hands. |
| ExactlyOnce.CountersAddUp | internal/worker/pool.go:109-229 | The workers' job counters sum to completed, failed, retries issued and jobs in progress, even with duplicating movers. |
| JobRecords.ConsistentStep | internal/worker/pool.go:132-229 | Every step that repeats no push keeps stored records and queued jobs in agreement. |
| JobRecords.StoredStatusMatchesPlace | internal/worker/pool.go:132-229 | The stored job equals the queued one, up to the schedule of a waiting one, and its status names the place, in every list and every phase of a worker. |
| ProcessingList.RemovalMatchesNothing | internal/queue/redis.go:126-133 | The value a worker removes was never noted as processing. |
| ProcessingList.ProcessingListIsPopHistory | internal/queue/redis.go:117-133 | For jobs submitted pending the processing list is the history of pops, newest first, and no removal ever changes it. |
| ProcessingList.ByIdListIsInHand | internal/queue/redis.go:117-133 | Under comparison by id the list would hold exactly the jobs in the workers' hands, under every interleaving. |
| QueueOrder.DueFromScheduledSecond | internal/queue/redis.go:135-140 | A job is due exactly from the start of its scheduled second. |
| QueueOrder.JobsAreNotEarly | internal/queue/redis.go:46-151 | A job is handed out strictly less than one second before its schedule, in every interleaving. |
| QueueOrder.FirstInFirstOut | internal/queue/redis.go:54-62 | Ready jobs come out in the order in which they were pushed. |
| QueueOrder.BatchBySecond | internal/queue/redis.go:135-151 | One mover pushes exactly the due jobs, by non-decreasing scheduled second, after all that was ready. |
| Termination.WeightStep | internal/worker/pool.go:109-229 | A measure over remaining attempts, places and what each mover may still push falls on every push, drop, pop, retry and finish, never rises, and the other steps leave the lists alone. |
| Termination.Settles | internal/worker/pool.go:109-229 | Every fair infinite run without further submissions, movers interleaved and operations failing, reaches a point where nothing waits, is in hand or in a snapshot. |
| Termination.EveryJobEnds | internal/worker/pool.go:109-229 | From some point on and for ever nothing is under way, and if no operation fails every accepted job is completed or failed, also when movers interleave. |
| Termination.EveryJobEndsOnce | internal/worker/pool.go:109-229 | If moreover no push is repeated, each job is in exactly one of the two lists, once. |
| RetryPolicy.DelayIsCappedExactly | internal/retry/policies.go:39-47 | The delay is min(truncated Base * m^(k-1), MaxDelay) if and only if the conversion to 64 bits does not overflow (or only the least delay is allowed). |
| RetryPolicy.DelaysNeverShrink | internal/retry/policies.go:39-47 | For m >= 1 and no overflow the delays are non-negative, non-decreasing and at most MaxDelay. |
| RetryPolicy.DelaysStayCapped | internal/retry/policies.go:39-47 | Once at MaxDelay they stay there, and are the least integer from the first overflow on. |
| RetryPolicy.ThirtyFifthRetryIsImmediate | internal/retry/policies.go:39-47 | Doubling from one second, the 34th delay is capped and the 35th negative. |
| RetryPolicy.JitterStaysWithin | internal/retry/policies.go:61-72 | For a factor f in [0, 1] every draw stays within (1 - f) and (1 + f) of the delay, both truncated. |
| RetryPolicy.JitterReaches | internal/retry/policies.go:61-72 | The delay is really spread: for f in (0, 1] every duration from (1 - f) to below (1 + f) of it comes up for some draw. |
| RetryPolicy.JitterGrows | internal/retry/policies.go:61-72 | And a greater draw never gives a shorter delay. |
| RetryPolicy.FallsBackExactly | internal/retry/policies.go:67-69 | The fallback to a tenth of a positive delay happens if and only if f(1 - 2u) > 1, so only for f > 1. |
| RetryPolicy.UncappedIsGeometric | internal/retry/policies.go:39-40 | The uncapped delays of the first n failures are the geometric sum Base (1 + m + ... + m^(n-1)). |
| RetryPolicy.GeometricSum | internal/retry/policies.go:39-40 | That sum times (m - 1) is Base (m^n - 1). |
| RetryPolicy.TotalWaitIsBounded | internal/worker/pool.go:188-189 | A job's total wait over n retries is at most (1 + f) times the geometric sum and (1 + f) times n * MaxDelay. |
| RoundRobin.RoundRobinBalancer.SelectWorker | internal/loadbalancer/round_robin.go:21-44 | The counter picks among the idle workers in order; nobody is chosen exactly if all are busy; a selection panics exactly if the counter has wrapped to a negative number that the number of idle workers does not divide. |
| RoundRobin.AvailableExactly | internal/loadbalancer/round_robin.go:26-31 | The available list has exactly the workers that are not busy. |
| RoundRobin.AvailableAt | internal/loadbalancer/round_robin.go:26-31 | Each idle worker stands in the list right behind those idle ones that come before it. |
| RoundRobin.AvailableDistinct | internal/loadbalancer/round_robin.go:26-31 | No worker comes into the list twice. |
| RoundRobin.TimesIsBelow | internal/loadbalancer/round_robin.go:40-41 | How often a worker is chosen between two counter values, in closed form. |
| RoundRobin.SelectionIsFair | internal/loadbalancer/round_robin.go:21-44 | Over m consecutive selections from the same distinct workers, n of them idle, each idle one is chosen m/n times, rounded down or up, from any counter below overflow. |

## Left out

- Locks and goroutine scheduling. Some bodies take a lock that their caller holds (internal/election/raft.go:413-434
  with 986-989, 152-163, 388-391; internal/election/gossip.go:464-516 with 263-265, 400-424 with 458); each is
  modelled as a step that completes.
- ClaimBounds.ExclusiveExactly: one clock for all nodes, read in whole milliseconds, and limits that hold without
  exception; a node whose store operations take longer than the limits is outside the statement.
- ClaimBounds.IntervalsExactly: the leader's timer fires on time, to the millisecond; one that fires late is a longer
  period of ClaimBounds.ExclusiveExactly.
- NodeStore.MongoStorage.AtomicClaimLeadership: one call, with what other operations leave behind between its own as
  arguments; the full interleaving of its operations is ClaimProtocol's.
- RaftVotes.VotesAreSound: the simulated network is arbitrary, so a grant means that the node was told so; no voter
  state exists in the code to be constrained.
- RaftVotes.TermsNeverFall: needs heartbeat bodies of leaders in one step; the code splits them, and
  RaftVotes.LateBeatRepeatsATerm shows what then happens.
- RaftTerms.LeaderTermsNeverFall: needs claims that are not interleaved and documents that are all visible; the code
  guarantees neither (RaftReversal.LeadersReverse, RaftTerms.ClaimTopsExactly).
- BullyConvergence.TopNodePrevails: assumes a store that does not fail, fixed members with distinct priorities, and a
  top node that is registered whenever another node reads the registry, and recent in what that node then rates.
  BullyElection has the failing operations for one undisturbed check.
- GossipAgeing.DetectedInTime: a member of which news arrives meanwhile starts anew, with its new time.
- JobRecords.StoredStatusMatchesPlace: runs in which no push repeats an earlier one; two copies of a job overwrite
  each other's record. The same holds for ProcessingList.ProcessingListIsPopHistory.
- Termination.EveryJobEnds: pipelines run to their ends from some point on; a mover whose every pipeline breaks off
  can push the same entry for ever.
- JobRounds.RoundIsRun: takes each record's stamp at the reading of the clock that the record itself shows; the code
  reads the clock again for the stamp, which WorkerPool models. Rounds with a lost pop, note or record are WorkerPool's
  alone.
- BullyElection.BullyNode.CheckLeadership: its link to the protocol's runs is for checks whose store operations
  succeed, as the protocol has no failing ones.
- NoLoss.NoJobIsLost: no worker crashes and no queue operation on a job in hand errs; either loses the job, as
  ExactlyOnce.AbandonedJobIsNowhere shows for the operations.
- Submission of a job is one step (CreateJob and Push), an id is submitted once, and in the interleaved system
  UpdateJob and the note in the processing list do not fail; WorkerPool has their failures for one worker.
- `$set` of a job leaves empty optional fields as they were (`omitempty`); the model stores the whole job.
- The order of equal scores in the sorted set (Redis orders equal scores by bytes; the model by insertion).
- RetryPolicy.DelayIsCappedExactly: real arithmetic in place of floating point; an out-of-range conversion yields the
  least 64-bit integer, as on amd64 (other platforms may saturate).
- Redis and MongoDB clients, BSON and JSON; a serialised job is an injective value of its fields, a BSON date whole
  milliseconds.
- Log replication: log, nextIndex and matchIndex are never used for it, and append-entries are empty.
- validateLeadershipContinuity of Raft: only its effect, that a leader may step down at any time, is in the model.
- Gossip rounds and targets: messages are arbitrary inputs of the handlers.
- The random, least-loaded and priority balancers, FixedPolicy, the factory's strings; HTTP handlers, authentication,
  TLS, configuration, metrics and logging: one loop or one branch each, or I/O.
- Timer randomness and back-off of the run loops: timeouts may fire at any time in the models.
