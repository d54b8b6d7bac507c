/**
 * The replication protocol as a transition system: any number of nodes, each request on its own
 * connection carrying at most one reply. A message that is lost is one that is never delivered, a node
 * that stops is one that takes no further step, and delay and reordering are the order of the steps.
 */
module Protocol {
  import opened Basics
  import opened NodeSteps
  import Q = Quorum

  // ----- elections

  /** How a vote was given: by entering a new term or within the term, and the voter's log length then. */
  datatype Grant = Grant(viaNewTerm: bool, voterLength: nat)

  /** The reply to a vote request carries nothing the tally looks at. */
  datatype VoteReply = Withheld | InFlight | Heard

  datatype VoteCall = VoteSent | VoteHandled(grant: Option<Grant>, reply: VoteReply)

  datatype TallyStatus = Tallying | Passed | TimedOut

  /** One request per peer, and the tally kept by the goroutine that counts the replies. */
  datatype Campaign = Campaign(logIndex: nat, calls: map<Addr, VoteCall>, tally: nat, status: TallyStatus)

  datatype CampaignId = CampaignId(candidate: Addr, term: int)

  // ----- commits

  datatype AppendCall = AppendSent | Working | Answered(confirmed: bool) | Counted(confirmed: bool)

  /** The connection a confirmation is owed on. */
  datatype Conn = NoConn | RoundConn(round: nat, peer: Addr) | WriteConn(write: nat)

  datatype RoundStatus = Asking | Accepted | Committed | Abandoned

  /** A leader's quorum request for one object. */
  datatype Round = Round(leader: Addr, term: int, logIndex: nat, cmd: KubeCmd,
                         calls: map<Addr, AppendCall>, tally: nat, status: RoundStatus, origin: Conn)

  /** A member's request that its leader commit an object. */
  datatype WriteStatus = WriteSent | WriteWorking | WriteAnswered(confirmed: bool) | WriteClosed
  datatype Write = Write(member: Addr, target: Addr, term: int, logIndex: nat, cmd: KubeCmd, status: WriteStatus)

  /** A handler that is fetching missing entries before it confirms. */
  datatype FetchStatus = Idle | Asked(index: nat) | Arrived(index: nat, entry: FetchedEntry)
  datatype Session = Session(member: Addr, conn: Conn, logIndex: nat, missing: nat,
                             leader: Option<Addr>, term: int, fetch: FetchStatus)

  datatype Heartbeat = Heartbeat(leader: Addr, term: int, logIndex: nat)

  datatype State = State(
    nodes: map<Addr, Node>,
    campaigns: map<CampaignId, Campaign>,
    rounds: map<nat, Round>,
    writes: map<nat, Write>,
    sessions: map<nat, Session>,
    heartbeats: set<Heartbeat>)

  function Peers(s: State, v: Addr): set<Addr> {
    s.nodes.Keys - {v}
  }

  function QuorumOf(s: State): nat
    requires s.nodes != map[]
  {
    Q.Quorum(|s.nodes| - 1)
  }

  function Init(members: set<Addr>): State {
    State(map v | v in members :: FRESH_NODE, map[], map[], map[], map[], {})
  }

  // ----- steps

  datatype Step =
    | BecomeCandidate(v: Addr)
    | StartCampaign(v: Addr)
    | HandleVoteRequest(id: CampaignId, voter: Addr)
    | CountVote(id: CampaignId, voter: Addr)
    | ElectionTimeout(id: CampaignId)
    | TakeElectionResult(v: Addr)
    | TakeNewLeader(v: Addr)
    | TakeNewTerm(v: Addr)
    | ExpireLeader(v: Addr, leader: Addr)
    | SendHeartbeat(v: Addr)
    | HandleHeartbeat(beat: Heartbeat, peer: Addr, newId: nat, lookup: Option<Addr>)
    | SubmitCommit(v: Addr, cmd: KubeCmd, newId: nat, lookup: Option<Addr>)
    | HandleRoundAppend(round: nat, peer: Addr, newId: nat, lookup: Option<Addr>)
    | CountConfirm(round: nat, peer: Addr)
    | RoundTimeout(round: nat)
    | CommitRound(round: nat)
    | HandleWrite(write: nat, newId: nat, lookup: Option<Addr>)
    | TakeWriteReply(write: nat)
    | WriteTimeout(write: nat)
    | SendFetch(session: nat)
    | HandleFetch(session: nat)
    | TakeFetchReply(session: nat)
    | AbortSession(session: nat)
    | FinishSession(session: nat)
    | ClusterReceive(v: Addr, cmd: KubeCmd)

  ghost predicate Enabled(s: State, step: Step) {
    match step
    case BecomeCandidate(v) => v in s.nodes && s.nodes[v].role == MEMBER && s.nodes[v].electing == None
    case StartCampaign(v) => v in s.nodes && s.nodes[v].role == CANDIDATE && s.nodes[v].electing == None
    case HandleVoteRequest(id, p) => VoteCallIs(s, id, p) && s.campaigns[id].calls[p] == VoteSent
    case CountVote(id, p) =>
      && VoteCallIs(s, id, p) && s.campaigns[id].status == Tallying
      && s.campaigns[id].calls[p].VoteHandled? && s.campaigns[id].calls[p].reply == InFlight
    case ElectionTimeout(id) => id in s.campaigns && s.campaigns[id].status == Tallying
    case TakeElectionResult(v) => v in s.nodes && s.nodes[v].electing.Some?
      && CampaignId(v, s.nodes[v].electing.value) in s.campaigns
      && s.campaigns[CampaignId(v, s.nodes[v].electing.value)].status != Tallying
    case TakeNewLeader(v) => v in s.nodes && s.nodes[v].electing.Some? && s.nodes[v].newLeaderSignals > 0
    case TakeNewTerm(v) => v in s.nodes && s.nodes[v].newTermSignals > 0
      && (s.nodes[v].role == CANDIDATE ==> s.nodes[v].electing.Some?)
    case ExpireLeader(v, l) => v in s.nodes && l in s.nodes[v].leaders && l != v
    case SendHeartbeat(v) => v in s.nodes && s.nodes[v].role == LEADER
    case HandleHeartbeat(beat, p, newId, lookup) =>
      beat in s.heartbeats && p in s.nodes && p != beat.leader && newId !in s.sessions && newId !in s.rounds
      && LeaderLookup(s.nodes[p], p, lookup)
    case SubmitCommit(v, x, newId, lookup) => v in s.nodes && newId !in s.rounds && newId !in s.writes
      && LeaderLookup(s.nodes[v], v, lookup)
    case HandleRoundAppend(rid, p, newId, lookup) =>
      && AppendCallIs(s, rid, p) && s.rounds[rid].calls[p] == AppendSent
      && newId !in s.sessions && newId !in s.rounds && LeaderLookup(s.nodes[p], p, lookup)
    case CountConfirm(rid, p) =>
      AppendCallIs(s, rid, p) && s.rounds[rid].status == Asking && s.rounds[rid].calls[p].Answered?
    case RoundTimeout(rid) => rid in s.rounds && s.rounds[rid].status == Asking
    case CommitRound(rid) => rid in s.rounds && s.rounds[rid].status == Accepted && s.rounds[rid].leader in s.nodes
    case HandleWrite(w, newId, lookup) =>
      && w in s.writes && s.writes[w].status == WriteSent
      && s.writes[w].target in s.nodes && s.writes[w].target != s.writes[w].member
      && newId !in s.sessions && newId !in s.rounds
      && LeaderLookup(s.nodes[s.writes[w].target], s.writes[w].target, lookup)
    case TakeWriteReply(w) => w in s.writes && s.writes[w].status.WriteAnswered? && s.writes[w].member in s.nodes
    case WriteTimeout(w) => w in s.writes && s.writes[w].status != WriteClosed
    case SendFetch(k) => k in s.sessions && s.sessions[k].missing > 0 && s.sessions[k].fetch == Idle
      && s.sessions[k].member in s.nodes
    case HandleFetch(k) => k in s.sessions && s.sessions[k].fetch.Asked?
      && s.sessions[k].leader.Some? && s.sessions[k].leader.value != s.sessions[k].member
      && s.sessions[k].leader.value in s.nodes
      && OnFetch(s.nodes[s.sessions[k].leader.value], FetchEntry(s.sessions[k].term, s.sessions[k].fetch.index)).Some?
    case TakeFetchReply(k) => k in s.sessions && s.sessions[k].fetch.Arrived? && s.sessions[k].member in s.nodes
      && s.sessions[k].missing > 0
    case AbortSession(k) => k in s.sessions
    case FinishSession(k) => k in s.sessions && s.sessions[k].missing == 0 && s.sessions[k].fetch == Idle
    case ClusterReceive(v, x) => v in s.nodes && x in s.nodes[v].toCluster
  }

  ghost predicate VoteCallIs(s: State, id: CampaignId, p: Addr) {
    id in s.campaigns && p in s.campaigns[id].calls && p in s.nodes
  }

  ghost predicate AppendCallIs(s: State, rid: nat, p: Addr) {
    rid in s.rounds && p in s.rounds[rid].calls && p in s.nodes
  }

  // ----- effects

  function SetNode(s: State, v: Addr, n: Node): State {
    s.(nodes := s.nodes[v := n])
  }

  ghost function Apply(s: State, step: Step): State
    requires Enabled(s, step)
  {
    match step
    case BecomeCandidate(v) => SetNode(s, v, s.nodes[v].(role := CANDIDATE))
    case StartCampaign(v) => Campaigning(s, v)
    case HandleVoteRequest(id, p) => Voting(s, id, p)
    case CountVote(id, p) => VoteCounted(s, id, p)
    case ElectionTimeout(id) => s.(campaigns := s.campaigns[id := s.campaigns[id].(status := TimedOut)])
    case TakeElectionResult(v) => ElectionResult(s, v)
    case TakeNewLeader(v) => SetNode(s, v, YieldToCandidate(s.nodes[v]))
    case TakeNewTerm(v) => SetNode(s, v, YieldToTerm(s.nodes[v]))
    case ExpireLeader(v, l) => var n := s.nodes[v]; SetNode(s, v, n.(leaders := n.leaders - {l}))
    case SendHeartbeat(v) => var n := s.nodes[v];
      s.(heartbeats := s.heartbeats + {Heartbeat(v, n.term, LogLength(n))})
    case HandleHeartbeat(beat, p, newId, lookup) =>
      Appending(s, p, AppendEntry(beat.term, beat.leader, beat.logIndex, EMPTY_CMD), NoConn, newId, lookup)
    case SubmitCommit(v, x, newId, lookup) => Submitting(s, v, x, newId, lookup)
    case HandleRoundAppend(rid, p, newId, lookup) => var r := s.rounds[rid];
      Appending(SetCall(s, rid, p, Working), p, AppendEntry(r.term, r.leader, r.logIndex, r.cmd),
                RoundConn(rid, p), newId, lookup)
    case CountConfirm(rid, p) => ConfirmCounted(s, rid, p)
    case RoundTimeout(rid) => s.(rounds := s.rounds[rid := s.rounds[rid].(status := Abandoned)])
    case CommitRound(rid) => var r := s.rounds[rid];
      var stored := SetNode(s, r.leader, AddCommit(s.nodes[r.leader], r.cmd));
      Confirm(stored.(rounds := s.rounds[rid := r.(status := Committed)]), r.origin, true)
    case HandleWrite(w, newId, lookup) => var wr := s.writes[w];
      Appending(s.(writes := s.writes[w := wr.(status := WriteWorking)]), wr.target,
                AppendEntry(wr.term, wr.target, wr.logIndex, wr.cmd), WriteConn(w), newId, lookup)
    case TakeWriteReply(w) => var wr := s.writes[w];
      var closed := s.(writes := s.writes[w := wr.(status := WriteClosed)]);
      if wr.status.confirmed then SetNode(closed, wr.member, AddCommit(s.nodes[wr.member], wr.cmd)) else closed
    case WriteTimeout(w) => s.(writes := s.writes[w := s.writes[w].(status := WriteClosed)])
    case SendFetch(k) =>
      SetFetch(s, k, Asked(LogLength(s.nodes[s.sessions[k].member]) + 1))
    case HandleFetch(k) => var ses := s.sessions[k];
      SetFetch(s, k, Arrived(ses.fetch.index,
                             OnFetch(s.nodes[ses.leader.value], FetchEntry(ses.term, ses.fetch.index)).value))
    case TakeFetchReply(k) => FetchTaken(s, k)
    case AbortSession(k) => s.(sessions := s.sessions - {k})
    case FinishSession(k) => Confirm(s.(sessions := s.sessions - {k}), s.sessions[k].conn, true)
    case ClusterReceive(v, x) => SetNode(s, v, HandedToCluster(s.nodes[v], x))
  }

  /** The term is raised, the own length read, and one request sent to every peer. */
  function Campaigning(s: State, v: Addr): State
    requires v in s.nodes
  {
    var calls := map p | p in s.nodes && p != v :: VoteSent;
    SetNode(s, v, BeginCampaign(s.nodes[v]))
      .(campaigns := s.campaigns[CampaignId(v, s.nodes[v].term + 1) := Campaign(LogLength(s.nodes[v]), calls, 0, Tallying)])
  }

  function Voting(s: State, id: CampaignId, p: Addr): State
    requires id in s.campaigns && p in s.nodes
  {
    var c := s.campaigns[id];
    var (after, answer) := OnRequestVote(s.nodes.Keys, s.nodes[p], RequestVote(id.term, id.candidate, c.logIndex));
    var call := if answer.Vote? then VoteHandled(Some(Grant(answer.viaNewTerm, LogLength(s.nodes[p]))), InFlight)
                else VoteHandled(None, Withheld);
    SetNode(s, p, after).(campaigns := s.campaigns[id := c.(calls := c.calls[p := call])])
  }

  /** Every reply counts as a vote; the reply's own Agreed field is not looked at. */
  function VoteCounted(s: State, id: CampaignId, p: Addr): State
    requires id in s.campaigns && p in s.campaigns[id].calls && s.campaigns[id].calls[p].VoteHandled? && p in s.nodes
  {
    var c := s.campaigns[id];
    var tally := c.tally + 1;
    s.(campaigns := s.campaigns[id := c.(
      calls := c.calls[p := c.calls[p].(reply := Heard)], tally := tally,
      status := if tally >= QuorumOf(s) then Passed else c.status)])
  }

  function ElectionResult(s: State, v: Addr): State
    requires v in s.nodes && s.nodes[v].electing.Some?
    requires CampaignId(v, s.nodes[v].electing.value) in s.campaigns
  {
    var n := s.nodes[v];
    var won := s.campaigns[CampaignId(v, n.electing.value)].status == Passed;
    SetNode(s, v, ConcludeElection(n, won))
  }

  /** An object handed to a node: its own quorum if leader, nothing if candidate, else a request to its leader. */
  function Submitting(s: State, v: Addr, x: KubeCmd, newId: nat, lookup: Option<Addr>): State
    requires v in s.nodes
  {
    var n := s.nodes[v];
    if n.role == LEADER then s.(rounds := s.rounds[newId := NewRound(s, v, x, NoConn)])
    else if n.role == MEMBER && lookup.Some? then
      s.(writes := s.writes[newId := Write(v, lookup.value, n.term, LogLength(n), x, WriteSent)])
    else s
  }

  function NewRound(s: State, v: Addr, x: KubeCmd, origin: Conn): Round
    requires v in s.nodes
  {
    var n := s.nodes[v];
    Round(v, n.term, LogLength(n), x, map p | p in s.nodes && p != v :: AppendSent, 0, Asking, origin)
  }

  function Appending(s: State, p: Addr, req: AppendEntry, conn: Conn, newId: nat, lookup: Option<Addr>): State
    requires p in s.nodes
  {
    var (after, action) := OnAppendEntry(s.nodes.Keys, s.nodes[p], req);
    Acting(SetNode(s, p, after), p, req, action, conn, newId, lookup)
  }

  function Acting(s: State, p: Addr, req: AppendEntry, action: AppendAction, conn: Conn, newId: nat, lookup: Option<Addr>): State
    requires p in s.nodes
  {
    match action
    case Silent => s
    case Answer(confirmed) => Confirm(s, conn, confirmed)
    case AskQuorum => s.(rounds := s.rounds[newId := NewRound(s, p, req.newObject, conn)])
    case CatchUp(missing) =>
      s.(sessions := s.sessions[newId := Session(p, conn, req.logIndex, missing, lookup, s.nodes[p].term, Idle)])
  }

  function SetCall(s: State, rid: nat, p: Addr, call: AppendCall): State
    requires rid in s.rounds
  {
    s.(rounds := s.rounds[rid := s.rounds[rid].(calls := s.rounds[rid].calls[p := call])])
  }

  function SetFetch(s: State, k: nat, fetch: FetchStatus): State
    requires k in s.sessions
  {
    s.(sessions := s.sessions[k := s.sessions[k].(fetch := fetch)])
  }

  /** A reply reaches the caller only while the caller still waits for it. */
  function Confirm(s: State, conn: Conn, confirmed: bool): State {
    match conn
    case NoConn => s
    case RoundConn(rid, p) =>
      if rid in s.rounds && p in s.rounds[rid].calls && s.rounds[rid].calls[p] == Working
      then SetCall(s, rid, p, Answered(confirmed)) else s
    case WriteConn(w) =>
      if w in s.writes && s.writes[w].status == WriteWorking
      then s.(writes := s.writes[w := s.writes[w].(status := WriteAnswered(confirmed))]) else s
  }

  function ConfirmCounted(s: State, rid: nat, p: Addr): State
    requires rid in s.rounds && p in s.rounds[rid].calls && s.rounds[rid].calls[p].Answered? && p in s.nodes
  {
    var r := s.rounds[rid];
    var yes := r.calls[p].confirmed;
    var tally := if yes then r.tally + 1 else r.tally;
    s.(rounds := s.rounds[rid := r.(calls := r.calls[p := Counted(yes)], tally := tally,
                                    status := if tally >= QuorumOf(s) then Accepted else r.status)])
  }

  /** The entry is stored if it is the one asked for; otherwise the handler gives up without replying. */
  function FetchTaken(s: State, k: nat): State
    requires k in s.sessions && s.sessions[k].fetch.Arrived? && s.sessions[k].member in s.nodes
    requires s.sessions[k].missing > 0
  {
    var ses := s.sessions[k];
    if Accepts(ses.fetch.index, ses.fetch.entry) then
      SetNode(s, ses.member, AddCommit(s.nodes[ses.member], ses.fetch.entry.newObject))
        .(sessions := s.sessions[k := ses.(missing := ses.missing - 1, fetch := Idle)])
    else s.(sessions := s.sessions - {k})
  }

  // ----- runs

  /** A finite run: a start state and the steps taken from it. */
  ghost predicate Execution(trace: seq<State>, steps: seq<Step>) {
    && |trace| == |steps| + 1
    && forall i :: 0 <= i < |steps| ==> Enabled(trace[i], steps[i]) && trace[i + 1] == Apply(trace[i], steps[i])
  }

  ghost predicate Run(members: set<Addr>, trace: seq<State>, steps: seq<Step>) {
    Execution(trace, steps) && trace[0] == Init(members) && members != {}
  }

  // ----- progress of every node in every step

  ghost predicate NodesProgress(s: State, t: State) {
    && s.nodes.Keys == t.nodes.Keys
    && forall v :: v in s.nodes ==> Progress(s.nodes[v], t.nodes[v])
  }

  lemma ConfirmKeepsNodes(s: State, conn: Conn, confirmed: bool)
    ensures Confirm(s, conn, confirmed).nodes == s.nodes
    ensures Confirm(s, conn, confirmed).campaigns == s.campaigns
    ensures Confirm(s, conn, confirmed).sessions == s.sessions
    ensures Confirm(s, conn, confirmed).heartbeats == s.heartbeats
    ensures Confirm(s, conn, confirmed).rounds.Keys == s.rounds.Keys
    ensures Confirm(s, conn, confirmed).writes.Keys == s.writes.Keys
  {
  }

  lemma AppendingNodes(s: State, p: Addr, req: AppendEntry, conn: Conn, newId: nat, lookup: Option<Addr>)
    requires p in s.nodes
    ensures Appending(s, p, req, conn, newId, lookup).nodes
            == s.nodes[p := OnAppendEntry(s.nodes.Keys, s.nodes[p], req).0]
    ensures Appending(s, p, req, conn, newId, lookup).campaigns == s.campaigns
  {
  }

  lemma NodeMoves(s: State, t: State, v: Addr, n: Node)
    requires v in s.nodes && t.nodes == s.nodes[v := n] && Progress(s.nodes[v], n)
    ensures NodesProgress(s, t)
  {
  }

  lemma AppendingProgress(s: State, p: Addr, req: AppendEntry, conn: Conn, newId: nat, lookup: Option<Addr>)
    requires p in s.nodes
    ensures NodesProgress(s, Appending(s, p, req, conn, newId, lookup))
  {
    AppendingNodes(s, p, req, conn, newId, lookup);
    ConfirmMeaning(s.nodes.Keys, s.nodes[p], req);
    NodeMoves(s, Appending(s, p, req, conn, newId, lookup), p, OnAppendEntry(s.nodes.Keys, s.nodes[p], req).0);
  }

  predicate ElectionStep(step: Step) {
    || step.BecomeCandidate? || step.StartCampaign? || step.HandleVoteRequest? || step.CountVote?
    || step.ElectionTimeout? || step.TakeElectionResult? || step.TakeNewLeader? || step.TakeNewTerm?
  }

  predicate AppendStep(step: Step) {
    step.HandleHeartbeat? || step.HandleRoundAppend? || step.HandleWrite?
  }

  lemma ElectionStepProgress(s: State, step: Step)
    requires Enabled(s, step) && ElectionStep(step)
    ensures NodesProgress(s, Apply(s, step))
  {
    hide NodesProgress, LogLength, OnRequestVote;
    match step
    case HandleVoteRequest(id, p) =>
      var req := RequestVote(id.term, id.candidate, s.campaigns[id].logIndex);
      VoteMeaning(s.nodes.Keys, s.nodes[p], req);
      NodeMoves(s, Apply(s, step), p, OnRequestVote(s.nodes.Keys, s.nodes[p], req).0);
    case CountVote(id, p) => NodesStay(s, Apply(s, step));
    case ElectionTimeout(id) => NodesStay(s, Apply(s, step));
    case BecomeCandidate(v) => NodeMoves(s, Apply(s, step), v, Apply(s, step).nodes[v]);
    case StartCampaign(v) => NodeMoves(s, Apply(s, step), v, Apply(s, step).nodes[v]);
    case TakeElectionResult(v) => NodeMoves(s, Apply(s, step), v, Apply(s, step).nodes[v]);
    case TakeNewLeader(v) => NodeMoves(s, Apply(s, step), v, Apply(s, step).nodes[v]);
    case TakeNewTerm(v) => NodeMoves(s, Apply(s, step), v, Apply(s, step).nodes[v]);
  }

  lemma NodesStay(s: State, t: State)
    requires t.nodes == s.nodes
    ensures NodesProgress(s, t)
  {
  }

  lemma AppendStepProgress(s: State, step: Step)
    requires Enabled(s, step) && AppendStep(step)
    ensures NodesProgress(s, Apply(s, step))
  {
    match step
    case HandleHeartbeat(beat, p, newId, lookup) =>
      AppendingProgress(s, p, AppendEntry(beat.term, beat.leader, beat.logIndex, EMPTY_CMD), NoConn, newId, lookup);
    case HandleRoundAppend(rid, p, newId, lookup) =>
      var r := s.rounds[rid];
      AppendingProgress(SetCall(s, rid, p, Working), p, AppendEntry(r.term, r.leader, r.logIndex, r.cmd),
                        RoundConn(rid, p), newId, lookup);
    case HandleWrite(w, newId, lookup) =>
      var wr := s.writes[w];
      AppendingProgress(s.(writes := s.writes[w := wr.(status := WriteWorking)]), wr.target,
                        AppendEntry(wr.term, wr.target, wr.logIndex, wr.cmd), WriteConn(w), newId, lookup);
  }

  /** The three steps in which a node stores an entry. */
  predicate StoringStep(step: Step) {
    step.CommitRound? || step.TakeWriteReply? || step.TakeFetchReply?
  }

  predicate QuietStep(step: Step) {
    !ElectionStep(step) && !AppendStep(step) && !StoringStep(step)
  }

  /** The node that may store an entry, and the entry it would store. */
  function StoredBy(s: State, step: Step): (Addr, KubeCmd)
    requires match step
             case CommitRound(rid) => rid in s.rounds
             case TakeWriteReply(w) => w in s.writes
             case TakeFetchReply(k) => k in s.sessions && s.sessions[k].fetch.Arrived?
             case _ => false
  {
    match step
    case CommitRound(rid) => (s.rounds[rid].leader, s.rounds[rid].cmd)
    case TakeWriteReply(w) => (s.writes[w].member, s.writes[w].cmd)
    case TakeFetchReply(k) => (s.sessions[k].member, s.sessions[k].fetch.entry.newObject)
  }

  lemma StoringStepNodes(s: State, step: Step)
    requires Enabled(s, step) && StoringStep(step)
    ensures var (v, x) := StoredBy(s, step); var t := Apply(s, step);
            && v in s.nodes && t.campaigns == s.campaigns
            && (t.nodes == s.nodes || t.nodes == s.nodes[v := AddCommit(s.nodes[v], x)])
  {
    match step
    case CommitRound(rid) =>
      var r := s.rounds[rid];
      ConfirmKeepsNodes(SetNode(s, r.leader, AddCommit(s.nodes[r.leader], r.cmd))
                          .(rounds := s.rounds[rid := r.(status := Committed)]), r.origin, true);
    case TakeWriteReply(w) =>
    case TakeFetchReply(k) =>
  }

  /** The remaining steps change at most which leaders a node has marked and what its cluster has received. */
  lemma QuietStepNodes(s: State, step: Step)
    requires Enabled(s, step) && QuietStep(step)
    ensures var t := Apply(s, step);
            && t.campaigns == s.campaigns
            && (t.nodes == s.nodes
                || (step.ExpireLeader? && t.nodes == s.nodes[step.v := s.nodes[step.v].(leaders := t.nodes[step.v].leaders)])
                || (step.ClusterReceive? && t.nodes == s.nodes[step.v := HandedToCluster(s.nodes[step.v], step.cmd)]))
  {
    match step
    case FinishSession(k) =>
      ConfirmKeepsNodes(s.(sessions := s.sessions - {k}), s.sessions[k].conn, true);
    case _ =>
  }

  lemma OtherStepProgress(s: State, step: Step)
    requires Enabled(s, step) && !ElectionStep(step) && !AppendStep(step)
    ensures NodesProgress(s, Apply(s, step))
  {
    if StoringStep(step) {
      StoringStepNodes(s, step);
    } else {
      QuietStepNodes(s, step);
    }
    hide Apply, Enabled;
  }

  /** No step lowers a term, rewrites or drops a log entry, or changes the membership. */
  lemma StepProgress(s: State, step: Step)
    requires Enabled(s, step)
    ensures NodesProgress(s, Apply(s, step))
  {
    hide Apply, Enabled;
    if ElectionStep(step) { ElectionStepProgress(s, step); }
    else if AppendStep(step) { AppendStepProgress(s, step); }
    else { OtherStepProgress(s, step); }
  }

  /** Along a run terms never fall and each earlier log is a prefix of each later one. */
  lemma {:induction false} RunProgress(trace: seq<State>, steps: seq<Step>, i: nat, j: nat)
    requires Execution(trace, steps) && i <= j < |trace|
    ensures NodesProgress(trace[i], trace[j])
    decreases j
  {
    hide Apply, Enabled;
    if i == j {
    } else {
      RunProgress(trace, steps, i, j - 1);
      StepProgress(trace[j - 1], steps[j - 1]);
    }
  }

  /** Membership is fixed. */
  lemma RunMembers(members: set<Addr>, trace: seq<State>, steps: seq<Step>, i: nat)
    requires Run(members, trace, steps) && i < |trace|
    ensures trace[i].nodes.Keys == members && |trace[i].nodes| == |members| && trace[i].nodes != map[]
    ensures QuorumOf(trace[i]) == |members| / 2
  {
    RunProgress(trace, steps, 0, i);
    hide Apply, Enabled;
    assert |trace[i].nodes| == |trace[i].nodes.Keys|;
  }

  lemma StepAt(trace: seq<State>, steps: seq<Step>, i: nat)
    requires Execution(trace, steps) && i < |steps|
    ensures Enabled(trace[i], steps[i]) && trace[i + 1] == Apply(trace[i], steps[i])
  {
    hide Apply, Enabled;
  }

  lemma LengthProgress(s: State, t: State, v: Addr)
    requires NodesProgress(s, t) && v in s.nodes
    ensures LogLength(s.nodes[v]) <= LogLength(t.nodes[v])
  {
    CountedLengthMonotone(s.nodes[v].log, t.nodes[v].log);
  }
}
