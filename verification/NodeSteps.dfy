/**
 * What one node does to its own state when it handles a message, as functions. The class in RaftNode.dfy
 * is proved to compute them; the protocol in Protocol.dfy is made of them.
 */
module NodeSteps {
  import opened Basics

  /** Requests, with the fields the handlers read. */
  datatype RequestVote = RequestVote(term: int, candidateAddr: Addr, logIndex: nat)
  datatype AppendEntry = AppendEntry(term: int, leaderAddr: Addr, logIndex: nat, newObject: KubeCmd)
  datatype FetchEntry = FetchEntry(term: int, logIndex: nat)
  datatype FetchedEntry = FetchedEntry(logIndex: nat, newObject: KubeCmd)

  /**
   * `leaders` are the routing-table entries marked LEADER (the node itself may be one of them).
   * `electing` is the campaign term whose result the main loop waits for.
   * The two signal counters are handlers blocked on a channel until the main loop takes their signal.
   * `toCluster` are commands handed to a sender, `received` those the cluster client has taken.
   */
  datatype Node = Node(
    term: int,
    role: RaftStatus,
    log: Log,
    leaders: set<Addr>,
    electing: Option<int>,
    newLeaderSignals: nat,
    newTermSignals: nat,
    toCluster: multiset<KubeCmd>,
    received: multiset<KubeCmd>)

  const FRESH_NODE := Node(0, MEMBER, [], {}, None, 0, 0, multiset{}, multiset{})

  function LogLength(n: Node): nat {
    CountedLength(n.log)
  }

  function AddCommit(n: Node, x: KubeCmd): Node {
    n.(log := n.log + [x], toCluster := n.toCluster + multiset{x})
  }

  /** The entry at a 1-based index; index 0 answers the empty command. */
  function LogItem(log: Log, index: nat): KubeCmd
    requires index <= |log|
  {
    if index == 0 then EMPTY_CMD else log[index - 1]
  }

  /** Only known addresses can be marked; marking one does not unmark another. */
  function MarkLeader(known: set<Addr>, n: Node, addr: Addr): Node {
    if addr in known then n.(leaders := n.leaders + {addr}) else n
  }

  // ----- the main loop

  function BeginCampaign(n: Node): Node {
    n.(term := n.term + 1, electing := Some(n.term + 1))
  }

  /** A won election makes the node leader whatever its role and term have become meanwhile. */
  function ConcludeElection(n: Node, won: bool): Node {
    n.(role := if won then LEADER else n.role, electing := None)
  }

  /** Another candidate with a longer log is preferred to the own candidacy. */
  function YieldToCandidate(n: Node): Node
    requires n.newLeaderSignals > 0
  {
    n.(role := MEMBER, electing := None, newLeaderSignals := n.newLeaderSignals - 1)
  }

  /** A handler's news of a higher term; only in a code base in which the channel for it exists. */
  function YieldToTerm(n: Node): Node
    requires n.newTermSignals > 0
  {
    n.(role := MEMBER, electing := None, newTermSignals := n.newTermSignals - 1)
  }

  function HandedToCluster(n: Node, x: KubeCmd): Node {
    n.(toCluster := n.toCluster - multiset{x}, received := n.received + multiset{x})
  }

  // ----- votes

  datatype VoteAnswer = NoVote | Vote(viaNewTerm: bool)

  function OnRequestVote(known: set<Addr>, n: Node, req: RequestVote): (Node, VoteAnswer) {
    if req.term > n.term then
      var stepped := n.(term := req.term, role := MEMBER, newTermSignals := n.newTermSignals + 1);
      if req.logIndex < LogLength(n) then (stepped.(leaders := {}), NoVote)
      else (MarkLeader(known, stepped, req.candidateAddr), Vote(true))
    else if req.term == n.term && req.logIndex > LogLength(n) then
      var marked := MarkLeader(known, n, req.candidateAddr);
      (if n.role == CANDIDATE then marked.(newLeaderSignals := n.newLeaderSignals + 1) else marked, Vote(false))
    else (n, NoVote)
  }

  // ----- appends

  /** What the handler does next: nothing, reply, ask its own quorum, or fetch `missing` entries first. */
  datatype AppendAction = Silent | Answer(confirmed: bool) | AskQuorum | CatchUp(missing: nat)

  function OnAppendEntry(known: set<Addr>, n: Node, req: AppendEntry): (Node, AppendAction) {
    if req.term >= n.term && req.logIndex > LogLength(n) && n.role == CANDIDATE then
      (MarkLeader(known, n.(term := req.term, newLeaderSignals := n.newLeaderSignals + 1), req.leaderAddr), Silent)
    else if req.term > n.term then
      (n.(term := req.term, newTermSignals := n.newTermSignals + 1), Silent)
    else if n.role == LEADER && req.newObject != EMPTY_CMD then
      (n, if req.logIndex == LogLength(n) then AskQuorum else Answer(false))
    else if LogLength(n) == req.logIndex then
      (n, if req.newObject == EMPTY_CMD then Silent else Answer(true))
    else
      (n, CatchUp(if req.logIndex > LogLength(n) then req.logIndex - LogLength(n) else 0))
  }

  // ----- fetches

  /** A leader's answer to a fetch; other nodes, and nodes behind the asker's term, stay silent. */
  function OnFetch(n: Node, req: FetchEntry): Option<FetchedEntry> {
    if req.term <= n.term && n.role == LEADER && req.logIndex <= LogLength(n)
    then Some(FetchedEntry(req.logIndex, LogItem(n.log, req.logIndex)))
    else None
  }

  /** Whether a catching-up node stores what it was sent for the index it asked. */
  predicate Accepts(asked: nat, entry: FetchedEntry) {
    entry.newObject != EMPTY_CMD && entry.logIndex == asked
  }

  /** The address GetLeaderAddr may return: itself if marked, otherwise any marked peer. */
  predicate LeaderLookup(n: Node, self: Addr, found: Option<Addr>) {
    match found
    case None => n.leaders == {}
    case Some(a) => a in n.leaders && (self in n.leaders ==> a == self)
  }

  // ----- what every one of these keeps

  /** Terms never fall and logs only grow at the end. */
  predicate Progress(before: Node, after: Node) {
    before.term <= after.term && before.log <= after.log
  }

  /** The committed commands are exactly those the cluster has taken plus those still on their way. */
  predicate Conserved(n: Node) {
    multiset(n.log) == n.received + n.toCluster
  }

  lemma AddCommitConserves(n: Node, x: KubeCmd)
    requires Conserved(n)
    ensures Conserved(AddCommit(n, x)) && Progress(n, AddCommit(n, x))
  {
  }

  /** A vote is given only to a caller whose log is no shorter; without a new term, strictly longer. */
  lemma VoteMeaning(known: set<Addr>, n: Node, req: RequestVote)
    ensures var (after, answer) := OnRequestVote(known, n, req);
            && Progress(n, after) && after.log == n.log
            && after.toCluster == n.toCluster && after.received == n.received
            && (answer.Vote? <==> (req.term > n.term && req.logIndex >= LogLength(n))
                                  || (req.term == n.term && req.logIndex > LogLength(n)))
            && (answer.Vote? ==> after.term == req.term && (answer.viaNewTerm <==> n.term < req.term))
            && (after.role == n.role || after.role == MEMBER)
  {
  }

  /** A confirmation, now or after catching up, means the log reaches the index asked about. */
  lemma ConfirmMeaning(known: set<Addr>, n: Node, req: AppendEntry)
    ensures var (after, action) := OnAppendEntry(known, n, req);
            && Progress(n, after) && after.log == n.log && after.role == n.role
            && (action == Answer(true) ==> LogLength(n) == req.logIndex)
            && (action.CatchUp? ==> LogLength(n) + action.missing >= req.logIndex
                                    && (action.missing == 0 <==> req.logIndex < LogLength(n)))
            && (action.AskQuorum? ==> n.role == LEADER && LogLength(n) == req.logIndex && req.newObject != EMPTY_CMD)
  {
  }
}
