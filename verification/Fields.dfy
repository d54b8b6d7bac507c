/**
 * What every step does to every field of every node. Each field is described on its own, by what happens
 * to the node in the step; the step functions are proved to move all nine fields exactly so.
 */
module Fields {
  import opened Basics
  import opened NodeSteps
  import opened Protocol

  // ----- what happens to a node in a step

  datatype Ask =
    | AskedVote(term: int, from: Addr, logIndex: nat)
    | AskedAppend(term: int, from: Addr, logIndex: nat)

  datatype Event =
    | Nothing
    | Candidacy | Campaigns | Result(won: bool) | HearsOfCandidate | HearsOfTerm
    | Asked(ask: Ask)
    | Stores(cmd: KubeCmd)
    | Forgets(leader: Addr)
    | Delivers(cmd: KubeCmd)

  ghost function AskedOf(p: Addr, v: Addr, ask: Ask): Event {
    if p == v then Event.Asked(ask) else Nothing
  }

  /** An entry is stored by a leader when its quorum accepted, by a member when confirmed or sent for the index asked. */
  ghost function EventAt(s: State, step: Step, v: Addr): Event
    requires Enabled(s, step)
  {
    match step
    case BecomeCandidate(p) => if p == v then Candidacy else Nothing
    case StartCampaign(p) => if p == v then Campaigns else Nothing
    case TakeElectionResult(p) =>
      if p == v then Result(s.campaigns[CampaignId(v, s.nodes[v].electing.value)].status == Passed) else Nothing
    case TakeNewLeader(p) => if p == v then HearsOfCandidate else Nothing
    case TakeNewTerm(p) => if p == v then HearsOfTerm else Nothing
    case HandleVoteRequest(id, p) => AskedOf(p, v, AskedVote(id.term, id.candidate, s.campaigns[id].logIndex))
    case HandleHeartbeat(beat, p, _, _) => AskedOf(p, v, AskedAppend(beat.term, beat.leader, beat.logIndex))
    case HandleRoundAppend(rid, p, _, _) => var r := s.rounds[rid]; AskedOf(p, v, AskedAppend(r.term, r.leader, r.logIndex))
    case HandleWrite(w, _, _) => var wr := s.writes[w]; AskedOf(wr.target, v, AskedAppend(wr.term, wr.target, wr.logIndex))
    case CommitRound(rid) => if s.rounds[rid].leader == v then Stores(s.rounds[rid].cmd) else Nothing
    case TakeWriteReply(w) =>
      if s.writes[w].member == v && s.writes[w].status == WriteAnswered(true) then Stores(s.writes[w].cmd) else Nothing
    case TakeFetchReply(k) => var ses := s.sessions[k]; var entry := ses.fetch.entry;
      if ses.member == v && entry.newObject != EMPTY_CMD && entry.logIndex == ses.fetch.index
      then Stores(entry.newObject) else Nothing
    case ExpireLeader(p, l) => if p == v then Forgets(l) else Nothing
    case ClusterReceive(p, x) => if p == v then Delivers(x) else Nothing
    case _ => Nothing
  }

  // ----- the conditions

  /** The asker is in a later term. */
  predicate Newer(n: Node, e: Event) {
    e.Asked? && e.ask.term > n.term
  }

  /** A vote is due: in a new term to a log no shorter, within the term to a longer one. */
  predicate VoteDue(n: Node, e: Event) {
    && e.Asked? && e.ask.AskedVote?
    && (if e.ask.term > n.term then e.ask.logIndex >= LogLength(n)
        else e.ask.term == n.term && e.ask.logIndex > LogLength(n))
  }

  /** A candidate meets a longer log: a rival's in its own term, or a leader's in its term or a later one. */
  predicate Outbid(n: Node, e: Event) {
    && n.role == CANDIDATE && e.Asked? && e.ask.logIndex > LogLength(n)
    && (if e.ask.AskedVote? then e.ask.term == n.term else e.ask.term >= n.term)
  }

  // ----- the fields afterwards

  function TermAfter(n: Node, e: Event): int {
    if e.Campaigns? then n.term + 1 else if Newer(n, e) then e.ask.term else n.term
  }

  function RoleAfter(n: Node, e: Event): RaftStatus {
    match e
    case Candidacy => CANDIDATE
    case Result(won) => if won then LEADER else n.role
    case HearsOfCandidate => MEMBER
    case HearsOfTerm => MEMBER
    case Asked(ask) => if ask.AskedVote? && Newer(n, e) then MEMBER else n.role
    case _ => n.role
  }

  /** The election whose result is awaited. */
  function ElectingAfter(n: Node, e: Event): Option<int> {
    match e
    case Campaigns => Some(n.term + 1)
    case Result(_) => None
    case HearsOfCandidate => None
    case HearsOfTerm => None
    case _ => n.electing
  }

  /** A refusal in a new term forgets every leader; a vote, or being outbid by a leader, marks the asker. */
  function LeadersAfter(known: set<Addr>, n: Node, e: Event): set<Addr> {
    if e.Forgets? then n.leaders - {e.leader}
    else if Newer(n, e) && e.ask.AskedVote? && !VoteDue(n, e) then {}
    else if VoteDue(n, e) || (Outbid(n, e) && e.ask.AskedAppend?) then n.leaders + ({e.ask.from} * known)
    else n.leaders
  }

  function LeaderSignalsAfter(n: Node, e: Event): int {
    n.newLeaderSignals + (if Outbid(n, e) then 1 else 0) - (if e.HearsOfCandidate? then 1 else 0)
  }

  function TermSignalsAfter(n: Node, e: Event): int {
    n.newTermSignals + (if Newer(n, e) && !Outbid(n, e) then 1 else 0) - (if e.HearsOfTerm? then 1 else 0)
  }

  function LogAfter(n: Node, e: Event): Log {
    if e.Stores? then n.log + [e.cmd] else n.log
  }

  function ToClusterAfter(n: Node, e: Event): multiset<KubeCmd> {
    if e.Stores? then n.toCluster + multiset{e.cmd} else if e.Delivers? then n.toCluster - multiset{e.cmd} else n.toCluster
  }

  function ReceivedAfter(n: Node, e: Event): multiset<KubeCmd> {
    if e.Delivers? then n.received + multiset{e.cmd} else n.received
  }

  predicate MovesTo(known: set<Addr>, n: Node, e: Event, after: Node) {
    && after.term == TermAfter(n, e) && after.role == RoleAfter(n, e) && after.log == LogAfter(n, e)
    && after.electing == ElectingAfter(n, e) && after.leaders == LeadersAfter(known, n, e)
    && after.newLeaderSignals == LeaderSignalsAfter(n, e) && after.newTermSignals == TermSignalsAfter(n, e)
    && after.toCluster == ToClusterAfter(n, e) && after.received == ReceivedAfter(n, e)
  }

  // ----- they are what the step functions compute

  lemma VoteMovesTo(known: set<Addr>, n: Node, req: RequestVote)
    ensures MovesTo(known, n, Event.Asked(AskedVote(req.term, req.candidateAddr, req.logIndex)), OnRequestVote(known, n, req).0)
  {
    hide LogLength;
  }

  lemma AppendMovesTo(known: set<Addr>, n: Node, req: AppendEntry)
    ensures MovesTo(known, n, Event.Asked(AskedAppend(req.term, req.leaderAddr, req.logIndex)), OnAppendEntry(known, n, req).0)
  {
    hide LogLength;
  }

  lemma NothingMoves(known: set<Addr>, n: Node)
    ensures MovesTo(known, n, Nothing, n)
  {
  }

  lemma StoreMovesTo(known: set<Addr>, n: Node, x: KubeCmd)
    ensures MovesTo(known, n, Stores(x), AddCommit(n, x))
  {
  }

  lemma OwnMovesTo(known: set<Addr>, n: Node, won: bool)
    ensures MovesTo(known, n, Candidacy, n.(role := CANDIDATE)) && MovesTo(known, n, Campaigns, BeginCampaign(n))
    ensures MovesTo(known, n, Result(won), ConcludeElection(n, won))
    ensures n.newLeaderSignals > 0 ==> MovesTo(known, n, HearsOfCandidate, YieldToCandidate(n))
    ensures n.newTermSignals > 0 ==> MovesTo(known, n, HearsOfTerm, YieldToTerm(n))
  {
  }

  /** Only one node has something happen to it. */
  lemma OneMoves(s: State, t: State, step: Step, p: Addr, after: Node, v: Addr)
    requires Enabled(s, step) && p in s.nodes && v in s.nodes && t.nodes == s.nodes[p := after]
    requires v != p ==> EventAt(s, step, v) == Nothing
    requires MovesTo(s.nodes.Keys, s.nodes[p], EventAt(s, step, p), after)
    ensures v in t.nodes && MovesTo(s.nodes.Keys, s.nodes[v], EventAt(s, step, v), t.nodes[v])
  {
    hide MovesTo, EventAt, Enabled;
    NothingMoves(s.nodes.Keys, s.nodes[v]);
  }

  lemma NoneMoves(s: State, t: State, step: Step, v: Addr)
    requires Enabled(s, step) && v in s.nodes && t.nodes == s.nodes && EventAt(s, step, v) == Nothing
    ensures v in t.nodes && MovesTo(s.nodes.Keys, s.nodes[v], EventAt(s, step, v), t.nodes[v])
  {
    NothingMoves(s.nodes.Keys, s.nodes[v]);
  }

  ghost predicate FieldsMove(s: State, step: Step, v: Addr)
    requires Enabled(s, step) && v in s.nodes
  {
    v in Apply(s, step).nodes && MovesTo(s.nodes.Keys, s.nodes[v], EventAt(s, step, v), Apply(s, step).nodes[v])
  }

  lemma MainLoopMoves(s: State, step: Step, v: Addr)
    requires Enabled(s, step) && ElectionStep(step) && v in s.nodes
    ensures FieldsMove(s, step, v)
  {
    hide MovesTo, OnRequestVote, LogLength;
    var t := Apply(s, step);
    match step
    case BecomeCandidate(p) =>
      OwnMovesTo(s.nodes.Keys, s.nodes[p], false);
      OneMoves(s, t, step, p, s.nodes[p].(role := CANDIDATE), v);
    case StartCampaign(p) =>
      OwnMovesTo(s.nodes.Keys, s.nodes[p], false);
      OneMoves(s, t, step, p, BeginCampaign(s.nodes[p]), v);
    case TakeElectionResult(p) =>
      var won := s.campaigns[CampaignId(p, s.nodes[p].electing.value)].status == Passed;
      OwnMovesTo(s.nodes.Keys, s.nodes[p], won);
      OneMoves(s, t, step, p, ConcludeElection(s.nodes[p], won), v);
    case TakeNewLeader(p) =>
      OwnMovesTo(s.nodes.Keys, s.nodes[p], false);
      OneMoves(s, t, step, p, YieldToCandidate(s.nodes[p]), v);
    case TakeNewTerm(p) =>
      OwnMovesTo(s.nodes.Keys, s.nodes[p], false);
      OneMoves(s, t, step, p, YieldToTerm(s.nodes[p]), v);
    case HandleVoteRequest(id, p) =>
      var req := RequestVote(id.term, id.candidate, s.campaigns[id].logIndex);
      VoteMovesTo(s.nodes.Keys, s.nodes[p], req);
      OneMoves(s, t, step, p, OnRequestVote(s.nodes.Keys, s.nodes[p], req).0, v);
    case CountVote(id, p) => NoneMoves(s, t, step, v);
    case ElectionTimeout(id) => NoneMoves(s, t, step, v);
  }

  lemma HandlerMoves(s: State, step: Step, v: Addr)
    requires Enabled(s, step) && AppendStep(step) && v in s.nodes
    ensures FieldsMove(s, step, v)
  {
    hide MovesTo, OnAppendEntry, LogLength, Acting;
    var t := Apply(s, step);
    match step
    case HandleHeartbeat(beat, p, newId, lookup) =>
      var req := AppendEntry(beat.term, beat.leader, beat.logIndex, EMPTY_CMD);
      AppendingNodes(s, p, req, NoConn, newId, lookup);
      AppendMovesTo(s.nodes.Keys, s.nodes[p], req);
      hide Appending;
      OneMoves(s, t, step, p, OnAppendEntry(s.nodes.Keys, s.nodes[p], req).0, v);
    case HandleRoundAppend(rid, p, newId, lookup) =>
      var r := s.rounds[rid];
      var req := AppendEntry(r.term, r.leader, r.logIndex, r.cmd);
      AppendingNodes(SetCall(s, rid, p, Working), p, req, RoundConn(rid, p), newId, lookup);
      AppendMovesTo(s.nodes.Keys, s.nodes[p], req);
      hide Appending;
      OneMoves(s, t, step, p, OnAppendEntry(s.nodes.Keys, s.nodes[p], req).0, v);
    case HandleWrite(w, newId, lookup) =>
      var wr := s.writes[w];
      var req := AppendEntry(wr.term, wr.target, wr.logIndex, wr.cmd);
      AppendingNodes(s.(writes := s.writes[w := wr.(status := WriteWorking)]), wr.target, req, WriteConn(w), newId, lookup);
      AppendMovesTo(s.nodes.Keys, s.nodes[wr.target], req);
      hide Appending;
      OneMoves(s, t, step, wr.target, OnAppendEntry(s.nodes.Keys, s.nodes[wr.target], req).0, v);
  }

  lemma CommitMoves(s: State, rid: nat, v: Addr)
    requires Enabled(s, CommitRound(rid)) && v in s.nodes
    ensures FieldsMove(s, CommitRound(rid), v)
  {
    hide MovesTo, LogLength, AddCommit;
    var r := s.rounds[rid];
    ConfirmKeepsNodes(SetNode(s, r.leader, AddCommit(s.nodes[r.leader], r.cmd))
                        .(rounds := s.rounds[rid := r.(status := Committed)]), r.origin, true);
    hide Confirm;
    StoreMovesTo(s.nodes.Keys, s.nodes[r.leader], r.cmd);
    OneMoves(s, Apply(s, CommitRound(rid)), CommitRound(rid), r.leader, AddCommit(s.nodes[r.leader], r.cmd), v);
  }

  lemma WriteReplyMoves(s: State, w: nat, v: Addr)
    requires Enabled(s, TakeWriteReply(w)) && v in s.nodes
    ensures FieldsMove(s, TakeWriteReply(w), v)
  {
    hide MovesTo, LogLength, AddCommit;
    var wr, t := s.writes[w], Apply(s, TakeWriteReply(w));
    if wr.status.confirmed {
      StoreMovesTo(s.nodes.Keys, s.nodes[wr.member], wr.cmd);
      OneMoves(s, t, TakeWriteReply(w), wr.member, AddCommit(s.nodes[wr.member], wr.cmd), v);
    } else {
      NoneMoves(s, t, TakeWriteReply(w), v);
    }
  }

  lemma FetchReplyMoves(s: State, k: nat, v: Addr)
    requires Enabled(s, TakeFetchReply(k)) && v in s.nodes
    ensures FieldsMove(s, TakeFetchReply(k), v)
  {
    hide MovesTo, LogLength, AddCommit;
    var ses, t := s.sessions[k], Apply(s, TakeFetchReply(k));
    if Accepts(ses.fetch.index, ses.fetch.entry) {
      StoreMovesTo(s.nodes.Keys, s.nodes[ses.member], ses.fetch.entry.newObject);
      OneMoves(s, t, TakeFetchReply(k), ses.member, AddCommit(s.nodes[ses.member], ses.fetch.entry.newObject), v);
    } else {
      NoneMoves(s, t, TakeFetchReply(k), v);
    }
  }

  lemma StoreMoves(s: State, step: Step, v: Addr)
    requires Enabled(s, step) && StoringStep(step) && v in s.nodes
    ensures FieldsMove(s, step, v)
  {
    hide FieldsMove;
    match step
    case CommitRound(rid) => CommitMoves(s, rid, v);
    case TakeWriteReply(w) => WriteReplyMoves(s, w, v);
    case TakeFetchReply(k) => FetchReplyMoves(s, k, v);
  }

  lemma ForgetMovesTo(known: set<Addr>, n: Node, l: Addr)
    ensures MovesTo(known, n, Forgets(l), n.(leaders := n.leaders - {l}))
  {
  }

  lemma DeliverMovesTo(known: set<Addr>, n: Node, x: KubeCmd)
    ensures MovesTo(known, n, Delivers(x), HandedToCluster(n, x))
  {
  }

  lemma QuietMoves(s: State, step: Step, v: Addr)
    requires Enabled(s, step) && QuietStep(step) && v in s.nodes
    ensures FieldsMove(s, step, v)
  {
    hide MovesTo, LogLength, HandedToCluster, OnFetch;
    var t := Apply(s, step);
    if step.ExpireLeader? {
      ForgetMovesTo(s.nodes.Keys, s.nodes[step.v], step.leader);
      OneMoves(s, t, step, step.v, s.nodes[step.v].(leaders := s.nodes[step.v].leaders - {step.leader}), v);
    } else if step.ClusterReceive? {
      DeliverMovesTo(s.nodes.Keys, s.nodes[step.v], step.cmd);
      OneMoves(s, t, step, step.v, HandedToCluster(s.nodes[step.v], step.cmd), v);
    } else {
      QuietStepNodes(s, step);
      NoneMoves(s, t, step, v);
    }
  }

  /** Every step moves every field of every node as described, and no node joins or leaves. */
  lemma EveryFieldMoves(s: State, step: Step, v: Addr)
    requires Enabled(s, step) && v in s.nodes
    ensures v in Apply(s, step).nodes
    ensures MovesTo(s.nodes.Keys, s.nodes[v], EventAt(s, step, v), Apply(s, step).nodes[v])
  {
    hide Apply, Enabled, EventAt, MovesTo;
    if ElectionStep(step) { MainLoopMoves(s, step, v); }
    else if AppendStep(step) { HandlerMoves(s, step, v); }
    else if StoringStep(step) { StoreMoves(s, step, v); }
    else { QuietMoves(s, step, v); }
  }
}
