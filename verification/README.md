# Verified model of the K8s P2P failover proof of concept

Several Kubernetes clusters keep replicated logs of cluster commands. One node per cluster takes part in a
Raft-like protocol: nodes elect a leader by term and log length, the leader stores a command after a quorum
of confirmations, and members copy entries by fetching them from the leader one index at a time. Log entries
carry no term, nothing is ever truncated, and a node may vote a second time in a term for a strictly longer
log, so the guarantees are not those of textbook Raft. This project models the protocol as the code has it
and proves which guarantees it gives, and with which conditions.

| file | what it holds |
|---|---|
| Basics.dfy | addresses, commands, logs, and the counted log length |
| Quorum.dfy | the quorum rule and why it is the least that works |
| Routing.dfy | classes for the peer table: leader marks, time to live, the padded address list |
| LeaderWatch.dfy | waiting for the leader to fall silent, against "20 seconds since the last contact" |
| NodeSteps.dfy | what a node does with each message, as functions |
| RaftNode.dfy | a class for the node whose handlers and loops are proved to compute those functions |
| Protocol.dfy | the protocol as a transition system over any number of nodes |
| Fields.dfy | what every step does to every field of a node, described independently of the step functions |
| Answers.dfy, Signals.dfy | what handling a request leads to, and how an outbid candidate gives way |
| Tallies.dfy, Decisions.dfy | the counting loops against the protocol's steps, and that decisions are taken once |
| Elections.dfy, Commits.dfy | invariants of every run about votes, terms, quorum requests and catch-up handlers |
| ElectionTheorems.dfy, Durability.dfy | who can win an election, and what a commit guarantees afterwards |
| Shape.dfy | logs without empty commands, stable fetches, conservation towards the cluster |
| SingleLeader.dfy | the conditions on a step under which all logs agree while one node leads, and the invariant they keep |
| Agreement.dfy | that the conditions are exact, step by step, and what holds along every such run |
| CatchUpRefinement.dfy | the catch-up loop of the class against the fetch steps of the protocol |
| Runs.dfy | building runs out of steps, of one step by each of a set of nodes, and of whole elections and commits |
| Survival.dfy | what a later winner holds of a committed log while the steps keep to those conditions |
| Limits.dfy | for which numbers of clusters a commit's length survives and a term has one winner, exactly |
| Divergence.dfy | for which numbers of clusters logs agree and committed entries survive, exactly |
| MemberWrite.dfy | a run that takes a member's write into both logs |
| Disagreement.dfy | two runs with at most one leader showing that its conditions on confirmations and stores are needed |
| Shuffle.dfy, Proxy.dfy | the in-place shuffle used to pick peers and nodes |

## How the protocol is modelled

- A run is any finite sequence of steps from the initial state. Requests travel on connections that carry at
  most one reply; a lost message is one never delivered, delay and reordering are the order of the steps, and
  a stopped node is one that takes no more steps. Heartbeats may also be delivered more than once.
- `role` and `term` can change while an election is still being counted, and the winner becomes leader
  regardless (raft/raft.go:214-219). Election results are therefore about campaigns, identified by candidate
  and term, that enough peers granted, whatever the candidate's role is by then.
- The channel behind `newTerm` is declared but never created (raft/raft.go:52, 87-103), so sends on it block
  for ever. The model counts the blocked senders and lets the main loop take such a signal at any time or
  never; the results hold for the code as it is and for one in which the channel exists.
- All lengths are the counted ones of `getLengthLog`, which skips empty commands. Results about lengths make no
  assumption on what clients submit; results about contents assume, like the command line
  (poc/client.go:86-131), that no client submits the empty command, and prove that no log then holds one.
- The routing table is fixed, a node's own address is not in it, and no peer has the empty address.

## Model

| member | source | states |
|---|---|---|
| Basics.CountedLengthIsLength | raft/raft.go:192-202 | the counted log length is the real one exactly when no empty command was stored |
| Quorum.QuorumsMeet | raft/routing.go:76-79 | two nodes, each with a quorum of its peers, always share a supporter, for any number of nodes |
| Quorum.QuorumIsLeast | raft/routing.go:76-79 | a threshold makes all such groups overlap if and only if it is at least the one computed when the table is locked |
| Routing.Peer.GetTimeRemaining | raft/peer.go:35-41 | reading the remaining time demotes and deactivates a peer that is out of time, and nothing else |
| Routing.PeerRouting.AddPeer | raft/routing.go:81-91 | a peer is added once and only before locking; otherwise the table is unchanged |
| Routing.PeerRouting.LockRoutingTableEntries | raft/routing.go:76-79 | locks the table and yields the quorum for its size |
| Routing.PeerRouting.GetPeersAddress | raft/routing.go:58-64 | as many blanks as peers, then every peer exactly once in any order |
| Routing.OneRequestPerPeer | raft/raft.go:242-254 | skipping blanks in that list contacts each peer exactly once and nobody else |
| Routing.PeerRouting.GetLeaderAddr | raft/routing.go:93-103 | finds the node itself if marked, else some marked peer, and nothing exactly when none is marked |
| Routing.PeerRouting.GetLeaderTimeout | raft/routing.go:106-118 | looks at one marked peer only, demotes it if its time ran out, and leaves every other peer alone |
| Routing.PeerRouting.CheckLeaderTimeout | raft/routing.go:142-154 | the wait is over exactly when less than one nanosecond remains, otherwise the exact remaining time is given |
| Routing.PeerRouting.UpdateTTL | raft/routing.go:158-168 | a known peer gets a full period from now, is active again and keeps its mark; an unknown one is refused |
| Routing.PeerRouting.MakeLeader | raft/routing.go:232-247 | marks one known address and leaves all existing marks |
| Routing.PeerRouting.WipeLeader | raft/routing.go:225-230 | no leader mark remains |
| LeaderWatch.Deliver | raft/raft.go:487-497 | any message, handled by its handler, renews its sender's time to live and nobody else's; a member's marks stay unless a vote request changes them |
| LeaderWatch.AwaitLeaderTTL | raft/raft.go:328-342 | while messages arrive through the handlers, the re-arming wait ends at the first moment at which the leader has been silent for 20 seconds, and it ends |
| LeaderWatch.WatchLeader | raft/raft.go:315-324 | with a marked leader returns at the first moment of a 20 second silence, not earlier and not later, which for a leader that keeps in touch is 20 seconds after its last message; without one at once |
| LeaderWatch.InTouchIsAwaited | raft/raft.go:328-342 | a leader whose messages are never 20 seconds apart is waited for until 20 seconds after the last of them |
| LeaderWatch.OnlyLeaderMatters | raft/routing.go:158-168 | the wait ends at the same moment whatever other peers send meanwhile |
| RaftNode.RaftNode.GetLengthLog | raft/raft.go:192-202 | the counting loop computes the counted length |
| RaftNode.RaftNode.AddCommit | raft/raft.go:150-162 | appends the command and hands it to one sender; the rest of the node is unchanged |
| RaftNode.RaftNode.LockMembership | raft/raft.go:205 | fixes the quorum for the number of peers |
| RaftNode.RaftNode.Targets | raft/raft.go:242-254 | the addresses contacted are the peers, each once |
| RaftNode.RaftNode.StartCampaign | raft/raft.go:210-254 | the next term, and exactly one request per peer with that term and the own length |
| RaftNode.RaftNode.TallyVotes | raft/raft.go:256-276 | won exactly when a quorum of replies precedes the first timeout |
| RaftNode.RaftNode.TakeElectionResult | raft/raft.go:214-219 | a won election makes the node leader, a lost one keeps its role |
| RaftNode.RaftNode.TakeNewLeader | raft/raft.go:220-222 | a signal that another candidate is preferred ends the candidacy as a member |
| RaftNode.RaftNode.HandleRequestVote | raft/raft.go:487-526 | the handler changes the node and answers as the vote step of the protocol says, and renews the time to live of its caller only; unknown callers are ignored |
| RaftNode.RaftNode.HandleAppendEntry | raft/raft.go:527-561 | the handler changes the node and decides as the append step says, a catch-up fetches from a marked leader, and the time to live of the caller only is renewed |
| RaftNode.RaftNode.FetchMissing | raft/raft.go:562-590 | the catch-up loop asks the leader looked up at its start, in the term of its start, for one index after another, stores exactly the entries its specification says and confirms only when it got them all |
| RaftNode.CatchUpIsCorrect | raft/raft.go:559-590 | from a prefix of the leader's log the loop ends with one more entry per answered fetch: always a prefix, the full length exactly when all were answered, and a confirmation only then |
| RaftNode.CatchUpReaches | raft/raft.go:559-590 | whatever is answered, a completed catch-up gained exactly the missing number of entries |
| RaftNode.RaftNode.HandleFetch | raft/raft.go:595-607 | answers as the fetch step says and changes nothing but the time to live of its caller |
| RaftNode.RaftNode.RequestAddObject | raft/raft.go:424-444 | one request per peer with the leader's term, length and the object |
| RaftNode.RaftNode.TallyConfirms | raft/raft.go:446-466 | accepted exactly when, after some reply and before the first timeout, the replies heard hold a quorum of confirmations; denials do not count |
| RaftNode.RaftNode.AskLeader | raft/raft.go:379-387 | with time left for a marked leader the request names the address looked up, the own term, the own length and the object; an expired or missing leader gets none |
| RaftNode.RaftNode.CommitObject | raft/raft.go:361-407 | when each role stores the object; a member exactly when it made that request and the reply to it confirms |
| RaftNode.RaftNode.ClusterReceives | kube/kube_client.go:134-139 | taking a pending command keeps the balance of committed, pending and received commands |
| CatchUpRefinement.FetchOnceIsThreeSteps | raft/raft.go:562-584 | one undisturbed loop iteration is the protocol's send, answer and take steps |
| CatchUpRefinement.LoopRefinesSession | raft/raft.go:562-590 | the loop stores what an undisturbed protocol session stores and confirms exactly when that session may finish |
| CatchUpRefinement.SessionTouchesOneNode | raft/raft.go:562-590 | such a session changes no node but the one catching up |
| Protocol.StepProgress | raft/raft.go:150-162 | no step of any node lowers a term, rewrites or drops a log entry, or changes the membership |
| Protocol.RunProgress | raft/raft.go:138-162 | the same between any two points of a run |
| Fields.EveryFieldMoves | raft/raft.go:204-607 | what any step does to each of the nine fields of any node, field by field: term, role, log, awaited election, leader marks, the two kinds of pending signals, commands on their way and received |
| Decisions.RoundEndsOnce | raft/raft.go:424-467 | a quorum request ends at most once: its leader stores once on it, and never after the timeout |
| Decisions.WriteEndsOnce | raft/raft.go:386-406 | a member stores at most once on a write, and never after giving up on it |
| Elections.StepKeepsElection | raft/raft.go:204-276 | every step keeps the invariant on campaigns, grants, terms entered and roles |
| Elections.ElectionAlways | raft/raft.go:204-276 | the invariant holds at every point of every run |
| Answers.VoteIsGiven | raft/raft.go:499-523 | a vote is given exactly when it is due, with the voter's length and whether it entered the term, and only then is there a reply |
| Answers.WriteIsHandled | raft/raft.go:537-591 | a member's write opens a quorum request of the target, owed to the write, exactly if the target leads, is not behind the member's term and has its length; it is denied exactly by a leader of another length, confirmed at once exactly by another node of the same length, and exactly the remaining nodes fetch first, with how much they miss |
| Answers.RoundIsHandled | raft/raft.go:527-591 | the same for a leader's quorum request and the call of the node that handles it |
| Answers.HeartbeatIsHandled | raft/raft.go:527-591 | a heartbeat is never answered, and makes a node of another length fetch exactly unless it is behind in term or steps aside as a candidate |
| Answers.FetchIsAnswered | raft/raft.go:595-604 | a fetch is answered exactly by a leader that is not behind the asker's term and has the index, with the entry there |
| Answers.SubmissionLeadsTo | raft/raft.go:361-387 | a submitted object makes exactly a leader ask its quorum and exactly a member that knows a leader write to it, with its own term and length |
| Signals.OutvotedBecomesMember | raft/raft.go:514-523 | a waiting candidate asked by a longer log of its own term grants the vote, may give way at once, and is then a member that waits for no election and cannot campaign |
| Signals.OutledBecomesMember | raft/raft.go:530-533 | the same for a candidate asked to append after a longer log by a leader of its term or a later one |
| Signals.GivesWay | raft/raft.go:220-222 | taking the signal makes the node a member that waits for no election and changes nothing else |
| Signals.StandsDown | raft/raft.go:220-222 | from then on the node stays a member and starts no campaign until its own loop makes it a candidate |
| Signals.SignalsBalance | raft/raft.go:514-533 | along every run the pending signals are exactly the times the node was outbid less the times its loop took one |
| Signals.PendingSignalHasCause | raft/raft.go:514-533 | so a pending signal comes only from a longer log met as a candidate |
| Tallies.VoteTallyIsTheLoop | raft/raft.go:256-276 | replies and timeouts, one protocol step each, make a campaign pass exactly when the counting loop passes on the same events |
| ElectionTheorems.ConditionalElectionSafety | raft/raft.go:499-523 | two campaigns of one term reach a quorum only through a common backer that granted one of them inside the term with a strictly shorter log |
| ElectionTheorems.OneWinnerWithoutSameTermVotes | raft/raft.go:514-523 | if no vote of a term was given by a node already in it, at most one campaign of the term reaches a quorum, for any number of nodes |
| ElectionTheorems.LongVotersEnterTerms | raft/raft.go:499-523 | that is so in particular when no voter was shorter than the log it voted for |
| ElectionTheorems.CandidateVotesClimb | raft/raft.go:514-523 | along any chain of votes between one term's candidates the advertised length strictly grows, so there is no cycle |
| ElectionTheorems.TwoClustersOneWinner | raft/raft.go:210-219 | with two clusters at most one campaign per term is granted a quorum, unconditionally |
| ElectionTheorems.TallyIsExact | raft/raft.go:256-275 | although replies are counted unread, the tally is the number of distinct peers that granted and were heard, each no longer than the candidate |
| ElectionTheorems.LeaderHadMajority | raft/raft.go:214-219 | whoever is leader was granted votes by a majority, itself included, in a campaign of its own |
| ElectionTheorems.CampaignTermsIncrease | raft/raft.go:210-213 | a campaign takes a term above all earlier ones of its candidate, so candidate and term name one campaign |
| ElectionTheorems.OneAnswerEntersTerm | raft/raft.go:501-513 | along a run a node answers at most one vote request through the branch for a new term, per term |
| Commits.StepKeepsCommit | raft/raft.go:424-467 | every step keeps the invariant: true confirmations, exact tallies, sessions that will reach what they promise |
| Commits.CommitAlways | raft/raft.go:424-591 | the invariant holds at every point of every run |
| Tallies.TallyIsTheLoop | raft/raft.go:446-466 | replies and timeouts, one protocol step each, make a quorum request accepted exactly when the counting loop accepts on the same replies |
| Durability.QuorumCertifiesReplication | raft/raft.go:446-466 | when a leader may commit at index k, at least floor(N/2)+1 distinct nodes hold k or more entries |
| Durability.LaterCampaignsReach | raft/raft.go:235-276 | campaigns and votes after a moment record lengths no smaller than those of that moment |
| Durability.LaterWinnersReach | raft/raft.go:235-276 | if more than half of all nodes hold at least m entries, every later campaign that reaches a quorum advertises, and its candidate holds, at least m |
| Durability.LagOneDurability | raft/raft.go:361-372 | once a leader stores an entry on a quorum of confirmations for index k, every later campaign that reaches a quorum advertises, and its candidate holds, at least k entries |
| Durability.ContentCompleteness | raft/raft.go:235-276 | if more than half of the logs start with p and all logs are comparable when a campaign starts, it can only win if its candidate's log starts with p |
| Survival.WinnersKeepVouched | raft/raft.go:235-372 | for any number of clusters, if every step up to the start of a campaign keeps to the conditions for the leader that committed, a candidate that reaches a quorum starts with that leader's log up to the index its quorum vouched for |
| Survival.WinnerOfTwoKeepsAll | raft/raft.go:235-276 | with at most two clusters and such steps the log of a candidate that reaches a quorum equals the leader's |
| Divergence.AlwaysComparableIffOne | raft/raft.go:361-407 | in every run all logs are comparable, if and only if there is a single cluster |
| Divergence.RivalLogsDiverge | raft/raft.go:361-372 | for any two or more clusters, a run in which two nodes elected in different terms commit different entries at one index, because neither role nor term is checked again when the confirmations are in |
| Divergence.CommitsSurviveIffOne | raft/raft.go:361-372 | in every run the log of each later winner starts with a leader's log after a commit, if and only if there is a single cluster |
| Divergence.CommitIsLost | raft/raft.go:361-372 | for any two or more clusters, a run in which a later winner lacks the committed entry |
| Divergence.DisciplinedCommitsSurviveIffTwo | raft/raft.go:235-372 | when the steps up to the campaign keep to the conditions for the leader that committed, the same holds if and only if there are at most two clusters |
| Limits.LengthsSurviveIffTwo | raft/raft.go:361-372 | in every run each later winner advertises at least the length a leader has after a commit, if and only if there are at most two clusters |
| Limits.LagOneIsTight | raft/raft.go:446-466 | for any three or more clusters, a run in which a later winner advertises exactly the length the confirmations vouched for and lacks the committed entry |
| Limits.OneWinnerIffTwo | raft/raft.go:499-523 | in every run at most one campaign per term reaches a quorum, if and only if there are at most two clusters |
| Limits.TwoWinnersInOneTerm | raft/raft.go:514-523 | for any three or more clusters, a run in which two candidates of one term both reach a quorum |
| Shape.NothingLostToCluster | raft/raft.go:150-162 | at every point of every run a node's committed commands are those received by the cluster plus those pending, counted with multiplicity |
| Shape.LogsStayReal | raft/raft.go:183-202 | no log ever holds the empty command, so counted and real lengths agree |
| Shape.FetchesAreStable | raft/raft.go:595-604 | a leader's answer at an index of at least 1 is a real entry in bounds, and the same for ever after |
| Agreement.SingleLeaderPrefixSafety | raft/raft.go:471-604 | while one node leads and the step conditions hold: every log is a prefix of its log; the length named by every round, heartbeat, write, vote request and catch-up handler is within it; every fetch asks for at most the index after it; and every fetch reply in flight is its entry at that index |
| Agreement.LogsAgreeUnderOneLeader | raft/raft.go:471-604 | the same, and so comparable logs for ever, from the initial state |
| SingleLeader.HandsBackMeaning | raft/raft.go:527-561 | a condition on the target's role, the two terms and the two lengths decides whether a write is left unconfirmed by a node that is not leader |
| Agreement.StoresDecide | raft/raft.go:150-162 | from a state that fits, a step keeps all logs prefixes of the leader's and no other node leader if and only if it promotes nobody else and stores at the index asked for, or an equal next entry |
| Agreement.DisciplineDecides | raft/raft.go:377-591 | a step leads to a state that fits again if and only if it also confirms a write only as a leader, or when the object is already at that index of the leader's log |
| Agreement.FirstBreakIsUndisciplined | raft/raft.go:150-591 | along a run, as long as the conditions were met the next step keeps the agreement exactly when it meets its own |
| Agreement.UntrueAnswerBreaks | raft/raft.go:377-406 | after a confirmation at equal length, or on a leader's commit, that violates its condition, the member that takes it at an unmoved length leaves the leader's log |
| Agreement.UntrueLongerAnswerBreaks | raft/raft.go:559-590 | the same when the node that confirms is longer than the member, and answers after fetching nothing |
| Agreement.UntrueSessionBreaks | raft/raft.go:559-590 | the same for any confirmation given at the end of a catch-up, by a longer or a shorter node |
| Agreement.WriteAgreement | raft/raft.go:377-406 | taking the reply to a write keeps the agreement if and only if it stores nothing, the member leads, its length has not moved since it asked, or the object equals the leader's next entry for it |
| Agreement.ConfirmedWritesAgree | raft/raft.go:377-406 | in every such run a write confirmed to another node than the leader is, once taken, at the index it was made for in both logs |
| MemberWrite.WriteReachesBothLogs | raft/raft.go:361-407 | for any two or more clusters and any object, a run in which a member submits it, its leader takes it up, commits and confirms it, and the member stores it at the same index |
| Agreement.FetchAgreement | raft/raft.go:572-584 | taking a fetch reply keeps the agreement if and only if nothing is stored, it is stored at the index asked for, or it equals the leader's next entry for the node |
| Disagreement.ConfirmationsMatter | raft/raft.go:554-557 | for any two or more clusters, a run with nobody promoted and all stores in order in which candidates confirm writes and two logs become incomparable |
| Disagreement.StoresMatter | raft/raft.go:559-584 | for any two or more clusters, a run with one leader and only true confirmations in which two catch-up handlers of one node store the same entry and its log outgrows the leader's |
| Shuffle.ShuffleIsBijection | proxy/proxy.go:195-199 | over distinct entries different draws give different arrangements and every arrangement arises: the loop is an unbiased shuffle |
| Shuffle.LastRound | proxy/proxy.go:196-199 | a round puts the next entry where the draw says, what was there in the entry's own place, and moves nothing else |
| Shuffle.DrawsAreRecovered | proxy/proxy.go:195-199 | the draws can be read back from the final arrangement |
| Shuffle.EveryArrangementArises | proxy/proxy.go:195-199 | the draws read back from any arrangement, repeated entries included, produce it |
| Shuffle.PickIsFair | proxy/proxy.go:195-206 | for any two usable positions the draws can be paired so that picking one becomes picking the other, whatever padding or repetition the list has |
| Shuffle.PickIsUsable | proxy/proxy.go:200-205 | the scan finds a non-empty entry exactly when there is one, and then the first |
| Proxy.ShuffleInPlace | proxy/proxy.go:196-199 | the swaps in the array compute the shuffle |
| Proxy.Proxy.GetRandomPeerAddr | proxy/proxy.go:195-206 | the list is permuted in place, and the pick is an original non-empty address exactly when there is one |
| Proxy.Proxy.ForwardToCluster | proxy/proxy.go:227-276 | the first usable node of a shuffled copy is contacted and its outcome is the result; the node list itself is not touched |
| Proxy.SelectionsNeverLosePeers | proxy/proxy.go:195-206 | over any number of selections the list stays a permutation of the original and a usable peer is found exactly when there was one |

## Where code and documentation differ

- README.md:4-6 promises fully replicated logs. Logs always agree, and a committed entry is always in the log
  of each later winner, only with a single cluster (`AlwaysComparableIffOne`, `CommitsSurviveIffOne`): a node
  that has lost its role still commits on confirmations it gathered before (raft/raft.go:363-370).
- What does hold for any number of clusters: a later winner is as long as a majority was before
  (`LaterWinnersReach`), so after a commit at most one entry shorter (`LagOneDurability`) and not shorter if and
  only if there are at most two clusters (`LengthsSurviveIffTwo`). If the steps keep to the conditions of
  agreement under the committing leader, the winner's log starts with what the leader's quorum vouched for
  (`WinnersKeepVouched`), and with the entry itself if and only if there are at most two clusters
  (`DisciplinedCommitsSurviveIffTwo`).
- A term has at most one winner if and only if there are at most two clusters (`OneWinnerIffTwo`); with more,
  whenever no vote of the term came through the branch for a term the voter is already in
  (`OneWinnerWithoutSameTermVotes`).
- While one node leads, all logs agree as long as each step confirms truly and stores in order, and the first
  step that stores out of order ends it (`FirstBreakIsUndisciplined`). The code enforces neither: `addCommit`
  has no index guard, and a node at the asker's length confirms a write whatever its role
  (raft/raft.go:554-557).
- raft/raft.go:671 says a vote is sent only for a greater term. The code also sends one inside the current
  term, to a caller with a strictly longer log (raft/raft.go:516-522); the model follows the code.
- The field `Agreed` is set but never read; the tally counts replies. `TallyIsExact` shows that this makes no
  difference, because a refusal sends no reply.

## Left out

- Agreement.SingleLeaderPrefixSafety: covers runs in which no other node is promoted and each step meets conditions the code does not enforce; `StoresDecide` and `DisciplineDecides` show the conditions to be exact for each step, `ConfirmationsMatter` and `StoresMatter` give runs that break them.
- Agreement.ConfirmedWritesAgree: says nothing of a write whose member is the leader itself by the time it is answered; its object then goes wherever the leader's log ends.
- LeaderWatch.AwaitLeaderTTL: timers fire exactly when due and after the messages due by then, one peer is marked as leader, no vote request that would change a mark arrives during the wait, and the channel for news of a term, which does not exist in the code, does not end it.
- RaftNode.RaftNode.FetchMissing: nothing else stores on the node during the loop; interleaved handlers are covered by the protocol model, not by this method.
- RaftNode.RaftNode.CommitObject: replies and timeouts are parameters, so what other handlers do while it waits is covered by the protocol model only.
- Durability.LagOneDurability: speaks of lengths, not contents; contents are covered by `ContentCompleteness`, `WinnersKeepVouched` and `CommitsSurviveIffOne`.
- Raising the term and reading the log length at the start of a campaign are one step, and so is each handler's check and update of the term.
- Terms, lengths and clocks are unbounded integers; overflow of machine integers is not modelled.
- Restarts: nothing is persisted, so a node that stops does not come back.
- Equal logs under competing leaders for two or more clusters, and one winner per term for three or more: false of the code (`AlwaysComparableIffOne`, `OneWinnerIffTwo`).
- TCP, gob encoding and the 2048-byte buffers: requests and replies are typed values.
- A time to live is kept by the routing classes; in the protocol model a leader mark may expire at any moment.
- Liveness of elections, goroutine leaks and data races between handlers.
- Unused routing and candidate-support code such as `MakeCandidate`, `GetRandomMember` and `supportCandidate`.
- Reconciling listening ports, health checks, Kubernetes calls, the command line and the plotting scripts.
