# AmyQueue control plane: a verified model

This project models the two cores of AmyQueue's control plane and proves what they promise.

**The Raft node** (`src/internal/raft`): votes, log replication, commit, membership. Each stretch of code that
holds a node's mutex is a function on the node's state (`RaftNode`, `Membership`); `RaftObjects` holds the same
code as classes `Log`, `VoterSet` and `Node` whose methods update fields in loops, proved equal to those functions.
`Cluster` puts any number of nodes together, each with a peer list of its own: every mutex-protected stretch is one
step, sent messages stay in a set and may be delivered late, repeatedly, out of order or never, and nothing is
checked that the code does not check. Theorems quantify over every run of that machine, or over every run under a
named rule where the code is looser than a property needs:

| rule | what it adds to the code | why |
|---|---|---|
| `Cluster.AnyStep` | nothing | |
| `Election.CurrentCampaign` | becomeLeader runs only in the term whose votes were counted | `LeadIsBackedIff`, `TwoLeadersInOneTerm` |
| `OneWriter.Writes` | a term gets one leader; only a leader appends | `TwoLeadersDiverge`, `LeaderAppendsIsNeeded` |
| `LogMatching.SoleLeader` | Writes; only a leader sends, in its current term | `LeaderSendsIsNeeded` |
| `Replication.RepliesInReign` | SoleLeader; success replies are handled by a leader in the term of the request | `ReplyInReignIsNeeded` |
| `Replication.InReign` | RepliesInReign; a request with entries is not accepted after a longer one of its term | `OrderIsNeeded`, `TruncationKeepsIff` |
| `Replication.FreshReign` | InReign; a new leader has no matchIndex left over for anyone but the voters it resets | `FreshMatchIsNeeded`, `MatchIsBackedIff` |
| `Requests.Prepared` | RepliesInReign; a new leader's nextIndex and commit index lie within its log | `FreshNextIsNeeded`, `IndicesWithinIff` |
| `Safety.Orderly` | for static clusters: CurrentCampaign, only a leader appends and sends, requests and replies as in InReign | as above |
| `DynamicSafety.Guarded` | for dynamic clusters: Orderly and no leftover matchIndex; becomeLeader only while still a candidate; a campaign only by a node that is a voter in its own view, has applied its own admission, and has at most one membership entry above its commit index; members go by their addresses | `PendingBoundIsTight`, `OneChangeAtATimeIsNotEnough` |
| `MembershipRuns.RealIDs` | no request makes UpdateID rename a voter | `RenameBreaksTheFold`, `MembershipIsAFoldIff` |

The third column names the lemma that shows the addition is needed: an equivalence, or a run that obeys all the
other rules and breaks what they protect together. The runs append membership entries only, like the source, except
the one of `OneChangeAtATimeIsNotEnough`.

**Commit safety with changing voters.** A node adopts a membership change when it applies the entry, so a candidate can
be several committed changes behind and count a quorum that nobody else knows any more. Everything hangs on the
candidate: if it has at most one membership entry above its commit index, its electors and the voters who committed
anything it lacks differ by at most one change, and a common voter refuses it. `DynamicTheorems` proves Election
Safety, Leader Completeness and State Machine Safety over all Guarded runs, however many changes a leader has under way.
With two entries instead of one they fail (`DynamicCommit.PendingBoundIsTight`), even if leaders make one change at a
time (`DynamicCommit.OneChangeAtATimeIsNotEnough`); with one, changes still go through (`ChangesGoThrough`). Each guard
is one that a node can test itself, if it remembers the longest request it has accepted in its term.

Nothing in the source proposes a data entry yet: the only callers of `appendAndWaitCommit` are AddVoter and
RemoveVoter, which a static cluster refuses (`src/internal/raft/node.go:276-278`, `src/internal/raft/node.go:308-310`).
The `Propose` step with data stands for the application hook announced at `src/internal/raft/node.go:673`; without
it the log of a static cluster never grows and the theorems about static commits say little.

**The metadata state machine** (`src/internal/metadata`): `Assignment` is the greedy allocator in 64-bit arithmetic,
`Greedy` the mathematics of its score, `Store` the four replicated commands as functions and the `InMemoryStore`
class proved equal to them. Theorems are about every call, and about every command list from the empty store.

Reading order: `RaftTypes`, `Membership`, `RaftNode`, `RaftObjects`, `Cluster`, `LogShape`, `LogMatching`, `OneWriter`,
`Election`, `Voting`, `Safety`, `Replication`, `Keeping`, `Requests`, `SafetySteps`, `RaftTheorems`, `BackOff`,
`Exchanges`, `Redirects`, `MembershipRuns`, `Roster`,
`Configs`, `DynamicSafety`, `DynamicSteps`, `DynamicTheorems`, `Necessity`, `DynamicCommit`, `Counterexamples`; then
`MetaTypes`, `Greedy`, `Assignment`, `AssignmentTheorems`, `Allocation`, `Store`, `IndexAgreement`, `Balance`, `Fencing`,
`Lives`, `Replay`.
`dafny verify dfyconfig.toml` checks everything.

Where code and documentation disagree, the model follows the code:

- `src/internal/metadata/assignment.go:12-14` says a topic's leaders always land on different brokers first. They do
  exactly when `AssignmentTheorems.IsolationIff` says so; `SpreadIsTight` is the family just outside.
- `src/internal/metadata/store.go:15` calls every command safe to replay. A whole list is, exactly when
  `Replay.ReplaySafeIff` says so; `AheadIsNotSafe` is a list that is not.
- `PROGRESS.md:61` speaks of split-brain protection by comparing terms. becomeLeader compares none, and
  `Counterexamples.TwoLeadersInOneTerm` is a run with two leaders of one term.
- `src/internal/raft/node.go:51-52` calls the commit of a membership entry the only safe time to change the voters. It
  is not safe unless candidates are guarded (`DynamicCommit.PendingBoundIsTight`), and UpdateID changes them at other
  times (`Counterexamples.RenameBreaksTheFold`).
- `src/internal/raft/log.go:55` speaks of truncating a conflicting suffix; the truncation is unconditional.

## Model

| member | source | states |
|---|---|---|
| `RaftObjects.Log.constructor` | src/internal/raft/log.go:17-20 | a new log holds the sentinel and nothing else |
| `RaftObjects.Log.Entry` | src/internal/raft/log.go:34-41 | the entry at a position, or the zero entry and false past the end |
| `RaftObjects.Log.EntriesFrom` | src/internal/raft/log.go:44-53 | the suffix from an index on, empty past the end |
| `RaftObjects.Log.Append` | src/internal/raft/log.go:56-62 | everything after prevIndex is dropped, conflicting or not, then the new entries follow |
| `RaftObjects.Log.AppendOne` | src/internal/raft/log.go:64-68 | one entry more at the end, the rest untouched |
| `RaftObjects.VoterSet.AddVoter` | src/internal/raft/membership.go:59-63 | the member becomes a voter under that ID, others untouched |
| `RaftObjects.VoterSet.AddPeers` | src/internal/raft/node.go:98-103 | every configured peer becomes a voter under its address as placeholder ID |
| `RaftObjects.VoterSet.AddObserver` | src/internal/raft/membership.go:66-72 | registers an observer unless the ID is known already |
| `RaftObjects.VoterSet.UpdateID` | src/internal/raft/membership.go:76-87 | for every iteration order: one member found at the address under another ID is renamed, possibly over another record; none if there is none |
| `RaftObjects.VoterSet.Remove` | src/internal/raft/membership.go:90-94 | the member is gone, others untouched |
| `RaftObjects.VoterSet.Voters` | src/internal/raft/membership.go:97-107 | exactly the addresses of the voters other than self, one for each such voter |
| `RaftObjects.VoterSet.QuorumSize` | src/internal/raft/membership.go:110-120 | half the number of voters, plus one, for every iteration order |
| `RaftObjects.Node.constructor` | src/internal/raft/node.go:86-120 | a follower in term 0 with the sentinel log, self and peers as voters |
| `RaftObjects.Node.HandleVoteRequest` | src/internal/raft/node.go:679-705 | new state and response are those of the vote function, for every request |
| `RaftObjects.Node.HandleAppendEntries` | src/internal/raft/node.go:707-772 | new state and response are those of the append function: stale term, leader adoption, rename, consistency check, truncation, commit, application |
| `RaftObjects.Node.FollowLeader` | src/internal/raft/node.go:716-731 | the part before the consistency check |
| `RaftObjects.Node.AdoptCommit` | src/internal/raft/node.go:759-767 | commit index moves to the smaller of the leader's and the own last index, and what became committed is applied |
| `RaftObjects.Node.ApplyCommitted` | src/internal/raft/node.go:663-675 | applies each index up to commitIndex once, in order, skipping missing ones |
| `RaftObjects.Node.ApplyMembershipEntry` | src/internal/raft/node.go:356-375 | adds or removes the voter; stepping down on removing oneself |
| `RaftObjects.Node.CountSupport` | src/internal/raft/node.go:642-650 | one for the leader and one for every other voter whose matchIndex reaches the index |
| `RaftObjects.Node.MaybeAdvanceCommitIndex` | src/internal/raft/node.go:633-659 | the downward scan computes the specification function |
| `RaftObjects.Node.HandleAppendReply` | src/internal/raft/node.go:607-626 | step down, match and advance, or back off, as the code does without rechecking leadership |
| `RaftObjects.Node.LowerNext` | src/internal/raft/node.go:620-625 | nextIndex takes the follower's hint if that is lower, else drops by one while above one |
| `RaftObjects.Node.MakeAppendRequest` | src/internal/raft/node.go:563-584 | the request for a peer with the term and commit index captured earlier, nextIndex defaulted when unset |
| `RaftObjects.Node.StartElection` | src/internal/raft/node.go:443-449 | a new term with a vote for oneself |
| `RaftObjects.Node.BecomeLeader` | src/internal/raft/node.go:512-526 | leads in the current term without any recheck; nextIndex and matchIndex reset for the other voters only |
| `RaftObjects.Node.ResetProgress` | src/internal/raft/node.go:517-521 | the loop sets exactly the peers' entries, in any order |
| `RaftObjects.Node.AppendOwn` | src/internal/raft/node.go:328-338 | appends an entry of the current term at the next index without rechecking leadership |
| `RaftObjects.Node.JoinAsObserver` | src/internal/raft/node.go:231-260 | admitted exactly on the leader of a dynamic cluster, else redirected or refused and unchanged |
| `RaftNode.BestCommit` | src/internal/raft/node.go:633-659 | the greatest committable index above the old commit index, or the old one |
| `RaftNode.ApplyCommittedFrame` | src/internal/raft/node.go:663-675 | applying changes nothing but the applied part, which only grows, the members, and the role when removing oneself |
| `Membership.SingleChangeQuorumsOverlap` | src/internal/raft/node.go:356-375 | every quorum before one applied change meets every quorum after it |
| `Membership.TwoChangesCanSplit` | src/internal/raft/node.go:356-375 | two changes at once, three voters to five, leave disjoint quorums |
| `Membership.AddObserverKeepsVoters` | src/internal/raft/membership.go:66-72 | an observer join changes neither voters, their addresses nor the quorum |
| `Membership.UpdateIDKeepsVotersIff` | src/internal/raft/membership.go:76-87 | with unique addresses, voter addresses and quorum stay if and only if no other voter already has the real ID; otherwise exactly one voter is lost |
| `LogShape.LogsStayIndexed` | src/internal/raft/log.go:44-68 | in every state of every run, whoever leads, appends or sends: every entry's index is its position and the sentinel is never lost |
| `OneWriter.LogMatchingHolds` | src/internal/raft/node.go:747-757 | in every state of every Writes run, static or dynamic and from any peer lists: logs with an entry of equal index and term agree up to it, whoever sends |
| `Election.OneVotePerTerm` | src/internal/raft/node.go:679-705 | in every state of every run of a fixed voter set: no node has granted two candidates in one term |
| `Election.OneQuorumPerTerm` | src/internal/raft/node.go:500-508 | over every run: at most one candidate a term counts a quorum of votes, at one moment or two |
| `Election.ElectionSafety` | src/internal/raft/node.go:443-526 | over every CurrentCampaign run: at most one node ever leads in a term |
| `Election.LeadIsBackedIff` | src/internal/raft/node.go:500-526 | in every state of every run, whenever becomeLeader can run: a quorum voted for the node in its current term if and only if that is still the term it campaigned for |
| `Election.QuorumMeansFree` | src/internal/raft/node.go:500-508 | a campaign that has its quorum is for a term nobody has won |
| `Election.MembersCount` | src/internal/raft/membership.go:97-120 | with placeholder or real IDs, the quorum and the peers a node computes are those of the configuration |
| `Election.UpdateIDKeepsMembers` | src/internal/raft/node.go:727-731 | learning a peer's real ID keeps one voter per configured address |
| `Voting.GrantedIff` | src/internal/raft/node.go:685-703 | a vote is granted if and only if the request is not stale, nobody else has the vote in its term, and the claimed log end is lexicographically no earlier than the own one |
| `Voting.VoteEffects` | src/internal/raft/node.go:683-704 | a current request brings the node into its term and a granted vote is recorded; nothing else changes, and the answer's term is the request's when granted, the node's former one when not |
| `Voting.StaleCandidateStepsDown` | src/internal/raft/node.go:475-479 | a candidate refused by a node of a later term follows in that term without a vote |
| `Voting.CurrentCandidateStays` | src/internal/raft/node.go:475-479 | no answer of a node that is not ahead makes a candidate step down |
| `Voting.VotesAreRepeatable` | src/internal/raft/node.go:694-703 | asking again for a vote already granted gets the same answer and changes nothing |
| `Voting.SomebodyFitsAll` | src/internal/raft/node.go:694-703 | of any non-empty set of nodes there is one for which all of them would vote in a new term |
| `Voting.AnyMajorityCanElect` | src/internal/raft/node.go:443-508 | in every state of every run of a static cluster: any majority has a member whom all of it would elect, by that member's own count |
| `Safety.LeaderCompleteness` | src/internal/raft/node.go:679-705 | what a majority acknowledged of a leader's own entries is in the log of every later leader |
| `Safety.AppliedAgree` | src/internal/raft/node.go:663-675 | two nodes' applied entries are prefix-comparable |
| `SafetySteps.StateMachineSafety` | src/internal/raft/node.go:633-675 | in every state of every Orderly run: any two nodes applied the same entries in the same order, each exactly the committed part of its log, and no commit index passes the end of a log |
| `SafetySteps.CommittableIsCommitted` | src/internal/raft/node.go:633-659 | an index the leader finds committable has been acknowledged by a real majority |
| `RaftTheorems.AppliedGrows` | src/internal/raft/node.go:663-675 | in any step of the code, orderly or not, applied entries only grow at the end |
| `RaftTheorems.StateMachineSafetyOverTime` | src/internal/raft/node.go:663-675 | the same for any two nodes at any two moments of a run |
| `RaftTheorems.CommittedSurvivesElections` | src/internal/raft/node.go:694-703 | every leader of a later term holds a committed entry and all that precedes it |
| `Replication.AcknowledgementsTruthful` | src/internal/raft/node.go:616-619 | static or dynamic, over every FreshReign run: whoever is in the leader's term, voter or observer, agrees with the leader's log through the leader's matchIndex for it |
| `Replication.MatchIsBackedIff` | src/internal/raft/node.go:517-521 | over every InReign run: matchIndex stands for acknowledgements of the leader's term in every state if and only if no becomeLeader finds one left over outside the voters it resets |
| `Replication.TakeLeadBackedIff` | src/internal/raft/node.go:517-521 | the same for the one step |
| `RaftTheorems.StaticAcknowledgementsTruthful` | src/internal/raft/node.go:616-619 | in a static cluster the rule on leftovers is not needed |
| `RaftTheorems.AdvancesAreBacked` | src/internal/raft/node.go:633-659 | static or dynamic: when a leader that is a voter advances its commit index, a quorum of the voters it knows have acknowledged its log through there in its term |
| `RaftTheorems.CommitsAreBacked` | src/internal/raft/node.go:633-659 | every commit index is backed by a majority of voters that acknowledged an entry of its leader's own term |
| `Requests.RequestsReachTheEnd` | src/internal/raft/node.go:552-584 | static or dynamic: a leader's request, to voter or observer, starts at an entry it has, carries everything from there to its end, and announces a commit index within it |
| `Requests.IndicesWithinIff` | src/internal/raft/node.go:517-521 | a leader's nextIndex and commit index lie within its log in every state if and only if they do for everyone it does not reset whenever it takes the lead |
| `Requests.LaterRequestsReachFurther` | src/internal/raft/node.go:573-584 | when a request is built, nothing of its term that anybody has accepted or acknowledged ends beyond it: it is in turn everywhere, so requests handled in the order they were built are never overtaken |
| `Requests.FollowerCommitsVerifiedEntries` | src/internal/raft/node.go:747-767 | static or dynamic: a follower that accepts commits exactly through the greater of its old and the leader's commit index, the latter within the part just matched |
| `RaftTheorems.StaticRequestsReachTheEnd` | src/internal/raft/node.go:552-584 | in a static cluster without the rule on stale indices |
| `RaftTheorems.StaticFollowerCommits` | src/internal/raft/node.go:747-767 | in a static cluster: moreover what the follower had committed is untouched |
| `RaftTheorems.TruncationKeepsIff` | src/internal/raft/log.go:56-62 | a follower keeps its agreement with the leader through an index if and only if the accepted slice is empty or reaches that index |
| `RaftTheorems.CommittableIff` | src/internal/raft/node.go:641-651 | with self a voter, the leader's count reaches the quorum exactly when a majority of voters hold the index |
| `RaftTheorems.AdvancesToGreatestMajority` | src/internal/raft/node.go:633-659 | the new commit index is the greatest current-term index above the old one held by a majority of voters, or the old one |
| `RaftTheorems.ObserversDoNotCount` | src/internal/raft/node.go:641-650 | matchIndex values of observers never influence the commit index |
| `BackOff.RejectionLowers` | src/internal/raft/node.go:620-625 | a consistency rejection strictly lowers nextIndex, never below 1, and leaves both logs alone |
| `BackOff.AcceptanceAgrees` | src/internal/raft/node.go:747-757 | on acceptance the follower's log agrees with the leader's to its end |
| `BackOff.BackOffTerminates` | src/internal/raft/node.go:566-626 | from any nextIndex, fewer than nextIndex rejections and then agreement to the end |
| `BackOff.BackOffInEveryRun` | src/internal/raft/node.go:566-626 | the same between any two nodes of any state of a Writes run |
| `Exchanges.DeposedLeaderStepsDown` | src/internal/raft/node.go:610-615 | a leader that reaches a node of a later term follows in that term, without a vote, and keeps its log and commit index |
| `Exchanges.CurrentLeaderIsFollowed` | src/internal/raft/node.go:710-731 | a node that is not ahead ends up in the leader's term and names it, keeps a vote of that term only, and answers with no later term |
| `Exchanges.AppliedExactly` | src/internal/raft/node.go:663-675 | what is applied is exactly the stretch of the log from lastApplied to the commit index, as far as the log goes |
| `Exchanges.StepsDownIff` | src/internal/raft/node.go:369-373 | applying makes a node step down if and only if it applies its own removal |
| `Exchanges.CommittedIff` | src/internal/raft/node.go:759-767 | after an accepted request an index is committed if and only if it was, or the leader has committed it and the log reaches it |
| `Exchanges.CommitGoesBackIff` | src/internal/raft/node.go:759-767 | the commit index goes back exactly when the request cuts the log below it and announces one beyond it |
| `Exchanges.BackOffFindsTheLastCommonEntry` | src/internal/raft/node.go:620-625 | the request accepted in the end starts at the last entry below nextIndex that both logs share |
| `Exchanges.AcceptanceIsNoted` | src/internal/raft/node.go:616-618 | after an acceptance matchIndex is the end of the leader's log and the next request carries nothing |
| `Exchanges.RejectionFollowsTheHint` | src/internal/raft/node.go:620-625 | any other rejection lowers a nextIndex above 1 to the hint or by one, whichever is lower, and changes nothing else |
| `Exchanges.FollowerCatchesUp` | src/internal/raft/node.go:552-626 | however far behind, once the exchange has settled a follower has applied exactly what the leader has |
| `Exchanges.LastAnswerCommits` | src/internal/raft/node.go:616-619 | the answer that completes a majority makes the leader commit its whole log, if that ends in its own term |
| `Exchanges.FirstContact` | src/internal/raft/node.go:565-571 | a member without nextIndex is first asked about the end of the log |
| `Exchanges.JoinerIsReached` | src/internal/raft/node.go:253-257 | an observer joining under a new ID is recorded at its address and sent to from the end of the log on; a known ID keeps its record; the voters stay |
| `Redirects.WhoIsNamed` | src/internal/raft/node.go:231-246 | in any step of the code: whom a node redirects to changes only when it takes the lead, to itself, or follows a request, to its sender |
| `Redirects.RedirectsNameALeader` | src/internal/raft/node.go:231-246 | static or dynamic, over every SoleLeader run: whoever a node redirects to was elected in a term no later than the node's, and goes by that ID at that address; leaders name themselves |
| `Roster.VotersAreAsApplied` | src/internal/raft/node.go:356-375 | over any run in which no voter is renamed: each voter's record is what the last applied entry naming it says, address included, or as before if none names it |
| `Roster.AddedVoterIsReached` | src/internal/raft/node.go:364-366 | once its admission is applied, a voter is asked for votes and sent to at the address the entry gave |
| `Roster.NewNodeKnows` | src/internal/raft/node.go:95-119 | a new node knows itself and its peers as voters, the peers by address, and nobody else |
| `Roster.LeaderIsKnown` | src/internal/raft/membership.go:76-87 | after a current request the member at the leader's address goes by the leader's ID, voter or observer as before, and the others are untouched |
| `MembershipRuns.AppliedMembershipIsAFold` | src/internal/raft/node.go:356-375 | from any state over any run in which no voter is renamed: a node's voters are its earlier voters folded over the entries applied since, whatever observers joined |
| `MembershipRuns.MembershipIsAFoldIff` | src/internal/raft/node.go:727-731 | over every run of the code: they are throughout, and whenever a leader has just been adopted, if and only if no request makes the node rename a voter |
| `MembershipRuns.RenameKeepsVotersIff` | src/internal/raft/membership.go:76-87 | UpdateID leaves the voters as they are if and only if it neither renames nor overwrites one |
| `MembershipRuns.AppliedAtMostOnce` | src/internal/raft/node.go:663-675 | over every run of the code, static or dynamic: each log index is applied at most once, in increasing order |
| `MembershipRuns.MembersStayKeyed` | src/internal/raft/membership.go:59-94 | over every run, renames included, every member record carries the ID it is stored under |
| `Configs.OneChangeApart` | src/internal/raft/node.go:356-375 | the voters that two prefixes of a log make, with at most one membership entry in between, differ in at most one node |
| `Configs.ApplySeats` | src/internal/raft/node.go:663-675 | applying keeps a node's voters those that the applied part of its log makes of the initial ones |
| `Configs.LeaderVotes` | src/internal/raft/node.go:370-373 | whoever still leads after applying is still a voter in its own view |
| `DynamicSafety.ElectedKeeps` | src/internal/raft/node.go:694-703 | with changing voters: whoever is elected, or has the votes to be, has everything committed in earlier terms |
| `DynamicSafety.OneElected` | src/internal/raft/node.go:500-508 | with changing voters: only one candidate a term can have the votes, each counting its own view |
| `DynamicSteps.CommittableIsHeld` | src/internal/raft/node.go:633-659 | an index the leader finds committable is acknowledged by a majority of the voters it knows |
| `DynamicSteps.StepInv` | src/internal/raft/node.go:443-675 | every guarded step of a dynamic cluster keeps the invariant from which all this follows |
| `DynamicTheorems.DynamicStateMachineSafety` | src/internal/raft/node.go:633-675 | in every state of every Guarded run of a dynamic cluster: any two nodes applied the same entries in the same order, each exactly the committed part of its log |
| `DynamicTheorems.DynamicSafetyOverTime` | src/internal/raft/node.go:663-675 | the same for any two nodes at any two moments |
| `DynamicTheorems.DynamicElectionSafety` | src/internal/raft/node.go:443-526 | over every Guarded run: at most one node ever leads in a term |
| `DynamicTheorems.DynamicLeaderCompleteness` | src/internal/raft/node.go:694-703 | what any node has committed by some moment is in the log, from its election on, of every leader of a later term |
| `DynamicTheorems.DynamicCommitsAreBacked` | src/internal/raft/node.go:633-659 | every commit index is an entry of its leader's own term that a majority acknowledged of the voters of what had been committed before |
| `DynamicTheorems.SettledNodesAgreeOnVoters` | src/internal/raft/node.go:356-375 | nodes that have committed equally far know the same voters, joining nodes from their own admission on |
| `DynamicTheorems.EveryoneVotes` | src/internal/raft/node.go:95-103 | when everyone is an initial voter this is the cluster whose peer lists name everyone else, and every node is settled |
| `Counterexamples.TwoLeadersInOneTerm` | src/internal/raft/node.go:500-526 | in every cluster of three, static or dynamic, a run that obeys all the other rules reaches two leaders of one term |
| `Counterexamples.TwoLeadersDiverge` | src/internal/raft/node.go:328-338 | in a dynamic cluster the two then add a voter each, and Log Matching fails |
| `Counterexamples.RenameBreaksTheFold` | src/internal/raft/node.go:727-731 | in every dynamic cluster of three with a placeholder, all rules obeyed, the leader's first heartbeat changes a follower's voters although nothing was applied |
| `Necessity.LeaderAppendsIsNeeded` | src/internal/raft/node.go:328-338 | a deposed leader that finishes appendAndWaitCommit in its successor's term breaks Log Matching, all other rules obeyed |
| `Necessity.LeaderSendsIsNeeded` | src/internal/raft/node.go:539-546 | a deposed leader whose ticker fires once more overwrites what its successor was acknowledged |
| `Necessity.OrderIsNeeded` | src/internal/raft/log.go:56-62 | a late, shorter request takes away what the follower acknowledged |
| `Necessity.ReplyInReignIsNeeded` | src/internal/raft/node.go:607-619 | a success reply handled in a later reign claims entries the follower does not share |
| `Necessity.FreshMatchIsNeeded` | src/internal/raft/node.go:517-521 | an observer's matchIndex survives becomeLeader and claims entries it does not share |
| `Necessity.FreshNextIsNeeded` | src/internal/raft/node.go:517-521 | an observer's nextIndex survives becomeLeader and points beyond the shorter log of the new reign |
| `DynamicCommit.PendingBoundIsTight` | src/internal/raft/node.go:443-455 | in every dynamic cluster of three voters, under the Guarded rule with two pending membership entries instead of one and all other rules, a run that appends membership entries only makes two nodes apply different entries at one index |
| `DynamicCommit.OneChangeAtATimeIsNotEnough` | src/internal/raft/node.go:356-375 | so does one in which moreover every leader has a single membership change under way |
| `DynamicCommit.ChangesGoThrough` | src/internal/raft/node.go:264-324 | under the Guarded rule and all others a leader removes both other voters and adds a new one: the rule does not prevent changes |
| `Assignment.PickBest` | src/internal/metadata/assignment.go:75-96 | the loop returns the broker at the specified position, the empty ID when there is none |
| `Assignment.BestIsBest` | src/internal/metadata/assignment.go:82-95 | that position is the first unassigned broker of least score in list order; none exactly when every candidate scores MaxInt or none is left |
| `Assignment.AssignRow` | src/internal/metadata/assignment.go:52-65 | the inner loop: leader, followers picked with the leader already counted, both counters one up for the leader |
| `Assignment.AssignReplicas` | src/internal/metadata/assignment.go:22-71 | the nested loops compute the specification rows; empty for no brokers, no partitions or no replication |
| `Assignment.ScoreReduces` | src/internal/metadata/assignment.go:89-89 | without overflow the score is the initial count plus (n + 1) times this topic's leaders, and stays below MaxInt |
| `Assignment.AllocationWellFormed` | src/internal/metadata/assignment.go:28-70 | one row a partition of min(RF, n) entries; all different and listed if and only if the list names that many different brokers |
| `Assignment.DistinctBrokersWellFormed` | src/internal/metadata/assignment.go:28-70 | different broker IDs are always enough |
| `Greedy.IsolatedIff` | src/internal/metadata/assignment.go:51-68 | the exact isolation condition for the abstract process |
| `AssignmentTheorems.AllocatorTrace` | src/internal/metadata/assignment.go:51-96 | the rows' leaders follow the greedy process step by step |
| `AssignmentTheorems.IsolationIff` | src/internal/metadata/assignment.go:12-14 | after every prefix the topic's leaders per broker differ by at most one, if and only if for every broker min(P, n) brokers come before its second leader |
| `AssignmentTheorems.IsolationWithinSpread` | src/internal/metadata/assignment.go:32-33 | initial counts within n of each other are enough |
| `AssignmentTheorems.SpreadIsTight` | src/internal/metadata/assignment.go:12-14 | at n + 1 isolation fails, for every n of two or more |
| `AssignmentTheorems.GlobalBalance` | src/internal/metadata/assignment.go:51-68 | totals within n of each other end no further apart than before, or one apart |
| `AssignmentTheorems.GreedyOptimal` | src/internal/metadata/assignment.go:51-96 | no other choice of leaders has a smaller largest score |
| `AssignmentTheorems.FinalCounters` | src/internal/metadata/assignment.go:36-64 | the allocator's counters end as the initial ones plus the rows led, for every broker |
| `Allocation.AllocationIff` | src/internal/metadata/assignment.go:28-96 | rows are the allocator's if and only if there is one of min(RF, n) entries per partition and every slot, leader or follower, holds the least loaded broker not in its row yet, the first in list order among equals; load is the initial count plus n + 1 for each row led so far |
| `Allocation.FollowersAreLeastLoaded` | src/internal/metadata/assignment.go:54-57 | a follower weighs no more than any broker not chosen before it in its row, and less than those earlier in the list |
| `Allocation.SlotsAreWellFilled` | src/internal/metadata/assignment.go:75-96 | the same for each slot as long as the list names a broker that is left, repeated IDs or not |
| `Allocation.NothingAllocatedIff` | src/internal/metadata/assignment.go:28-30 | no rows exactly without brokers, partitions or replicas |
| `Allocation.WrapsAround` | src/internal/metadata/assignment.go:89-89 | 64-bit results are the mathematical ones up to full turns |
| `Store.InMemoryStore.constructor` | src/internal/metadata/store.go:45-51 | an empty store |
| `Store.InMemoryStore.ApplyClusterInit` | src/internal/metadata/store.go:55-65 | the new state is that of the command function |
| `Store.InMemoryStore.ApplyCreateTopic` | src/internal/metadata/store.go:67-118 | the same, with counting, allocation and insertion done by loops |
| `Store.InMemoryStore.InsertPartitions` | src/internal/metadata/store.go:90-114 | the loop adds exactly the keys 0 to n - 1 with their records |
| `Store.InMemoryStore.ApplyDeleteTopic` | src/internal/metadata/store.go:122-139 | the same, with the deletion loop |
| `Store.InMemoryStore.ApplyUpdatePartition` | src/internal/metadata/store.go:143-176 | compare-and-swap on the partition epoch, both epochs in 32 bits |
| `Store.InMemoryStore.LeaderCountsLocked` | src/internal/metadata/store.go:263-271 | for every iteration order, the number of online partitions each broker leads |
| `Store.InMemoryStore.GetTopicByName` | src/internal/metadata/store.go:191-201 | not found, the record, or a nil dereference for a dangling index entry |
| `Store.InMemoryStore.ListPartitions` | src/internal/metadata/store.go:225-241 | the records present among the topic's partition numbers, in order |
| `Store.CountsWith` | src/internal/metadata/store.go:263-271 | one more partition adds one for its leader, if it is online under one |
| `IndexAgreement.CreateAgreesIff` | src/internal/metadata/store.go:67-118 | a create keeps topics, name index and partition keys in agreement if and only if its name is taken or its TopicID is not live |
| `IndexAgreement.AgreementIff` | src/internal/metadata/store.go:55-176 | over any command list, agreement after every prefix if and only if no effective create reuses a live TopicID |
| `IndexAgreement.UniqueCreatesAgree` | src/internal/metadata/store.go:55-176 | TopicIDs that are never reused keep agreement throughout |
| `IndexAgreement.NameLookupSafe` | src/internal/metadata/store.go:191-201 | with agreement the lookup never dereferences nil and finds exactly the topic of that name |
| `IndexAgreement.ListedComplete` | src/internal/metadata/store.go:225-241 | with agreement the list is complete and ordered |
| `IndexAgreement.DeleteIsComplete` | src/internal/metadata/store.go:120-139 | a delete leaves no partition or name behind and touches no other topic |
| `IndexAgreement.ReusedIDDangles` | src/internal/metadata/store.go:71-88 | reusing a live TopicID under a second name and deleting it makes the first name a nil dereference |
| `IndexAgreement.StatusAlwaysAgrees` | src/internal/metadata/store.go:103-111 | with non-empty broker IDs a partition is online exactly when it has a leader, in every reachable state |
| `Balance.RecountAgrees` | src/internal/metadata/store.go:76-116 | after a create, recounting leaders gives exactly the allocator's final counters |
| `Balance.CreateKeepsBalance` | src/internal/metadata/store.go:76-118 | a create over brokers within n leaders of each other leaves them within the old spread, or one |
| `Balance.RunsStayBalanced` | src/internal/metadata/store.go:67-118 | from empty, any list of creates over one broker set whose scores stay within 64 bits keeps every two brokers within one leader |
| `Balance.ShortListsHaveRoom` | src/internal/metadata/assignment.go:83-89 | they do for fewer than 2^31 brokers and at most 2^30 commands |
| `Lives.VersionMovesIff` | src/internal/metadata/store.go:55-176 | a command moves the version by one if the cluster has no ID, the name is free, the topic exists or the epoch is the expected one; otherwise it changes nothing |
| `Lives.FirstIDStays` | src/internal/metadata/store.go:55-65 | over every command list the cluster ID is the first non-empty one given |
| `Lives.UpdateInstalls` | src/internal/metadata/store.go:159-175 | an accepted update installs its leader and ISR, offline exactly without a leader, and touches no other partition, topic or name |
| `Lives.CreateInstalls` | src/internal/metadata/store.go:67-118 | a create records the topic as the payload has it, with partitions led by the first replica of their row, all replicas in sync, and touches nothing else |
| `Lives.OnlineLeadersCount` | src/internal/metadata/store.go:263-271 | a broker's count is the number of online partitions that it leads |
| `Lives.StoredRowsAreWellFilled` | src/internal/metadata/store.go:76-114 | the rows a create left in the store are well filled by the leaders counted before it |
| `Lives.LeadsAsLastUpdated` | src/internal/metadata/store.go:143-176 | over a topic's life leader, ISR and status are those of the last update that took effect, or the former ones if there was none |
| `Lives.LifeOfAPartition` | src/internal/metadata/store.go:67-176 | from the create on: replicas for good those of the row; leader and ISR as last updated, or the first replica and all replicas |
| `Lives.LifeOfATopic` | src/internal/metadata/store.go:79-87 | from the create on the topic's record stays what the payload said |
| `Fencing.VersionCounts` | src/internal/metadata/store.go:55-176 | the version counts exactly the commands that changed the state |
| `Fencing.EqualVersionsEqualStates` | src/internal/metadata/store.go:249-253 | within a run equal versions mean equal states, short of a full turn of the counter |
| `Fencing.EpochsCount` | src/internal/metadata/store.go:159-172 | over a topic's life replicas never change, PartitionEpoch counts the accepted updates and LeaderEpoch those that changed the leader |
| `Fencing.EpochsFromBirth` | src/internal/metadata/store.go:97-113 | both counts start at zero with the create |
| `Fencing.ReplicasFromBirth` | src/internal/metadata/store.go:92-101 | the replicas are forever those the allocator chose at the create |
| `Fencing.OneWinnerPerEpoch` | src/internal/metadata/store.go:153-157 | of all updates of a partition with one ExpectedEpoch at most one takes effect, unless 2^32 others do in between |
| `Fencing.EqualLeaderEpochsEqualLeaders` | src/internal/metadata/store.go:169-171 | equal leader epochs mean equal leaders, short of 2^32 leader changes |
| `Replay.ReplaySafeIff` | src/internal/metadata/store.go:15-19 | re-applying a whole list over its final state leaves cluster ID, topics, index and partitions unchanged if and only if no update expects the epoch its partition ends with |
| `Replay.SettledReplaySafe` | src/internal/metadata/store.go:55-176 | the safe direction, for lists of any length, names deleted and reused included |
| `Replay.ReplaySafe` | src/internal/metadata/store.go:141-157 | it is enough that no update is ahead of its partition's epoch when first applied |
| `Replay.AheadIsNotSafe` | src/internal/metadata/store.go:153-157 | an update refused for being ahead takes effect when the list is replayed |

## Left out

- Raft terms and indices are unbounded; the code has uint64.
- Restart: term, vote and log live in memory only and are lost; every theorem is about runs without restart.
- Liveness and timing: timers, jitter, goroutine scheduling and context deadlines are nondeterministic steps, and nothing is claimed to happen eventually. A lone voter never takes the lead, because votes are looked at only when a reply arrives.
- The transports, gob framing, HTTP admin server, metrics, logging, `joinCluster`, `killPort`, configuration, brokers and CLI: input and output. A message may reach any node, any number of times.
- JSON encoding of membership changes: an entry carries the decoded change, or a mark that it does not decode.
- `maybePromoteObservers` and `TokenClusterAuth`: too easy to add anything.
- runCandidate: the quorum and the peer list are read in the same step as the term increment, and granted votes are a set of peer addresses, one vote per address.
- JoinAsObserver: the leadership check and the two map updates after it are one step.
- RaftObjects.Node.MakeAppendRequest: reads nextIndex and the log in one step; the code reads the log after releasing the node's mutex, the previous entry and the entries one after the other (`src/internal/raft/node.go:573-583`), so that a truncation in between is not in the model.
- SendVote: reads the last index and the last term of the log in one step; the code reads them one after the other (`src/internal/raft/node.go:458-463`).
- SafetySteps.StateMachineSafety: for a static voter set, with placeholder IDs; so are RaftTheorems.CommittedSurvivesElections, RaftTheorems.CommitsAreBacked and RaftTheorems.StateMachineSafetyOverTime. `DynamicTheorems` has the counterparts for changing voters.
- DynamicTheorems.DynamicStateMachineSafety: IDs are addresses and every peer list names the initial voters, as for the other members of `DynamicTheorems`; the guards that are not covered by a run are that a node still be a candidate when it takes the lead, be a voter in its own view and have applied its own admission when it campaigns, and that members go by their addresses.
- MembershipRuns.AppliedMembershipIsAFold: says nothing about runs in which UpdateID renames a voter, where it is false (`MembershipIsAFoldIff`).
- RaftTheorems.AdvancesToGreatestMajority: requires the leader to be a voter; one that removed itself still counts its own log towards the quorum.
- BackOff.BackOffTerminates: exchanges with one follower, no other step in between.
- Partition and topic records are values in the maps, not pointers: the copy helpers that keep callers from sharing them have nothing to do here, and nil and empty replica lists are the same.
- Store.InMemoryStore.LeaderCountsLocked: counts partitions with unbounded integers; the code's int would wrap at 2^63 partitions.
- IndexAgreement.StatusAlwaysAgrees: does not say the ISR is part of the replicas, because update payloads are not validated.
- ListTopics, GetTopic, GetPartition, Version and ClusterID: plain reads.
- Broker registration, ISR shrinking, segments and consumer groups exist in documents only.
