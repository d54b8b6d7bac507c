/**
 * Agreement while only one node leads. Members store what they fetch or what a confirmed write tells
 * them to; under conditions that can be read off the state before each step, everything they store is
 * a prefix of the leader's log.
 */
module SingleLeader {
  import opened Basics
  import opened NodeSteps
  import opened Protocol
  import opened Elections
  import opened Shape

  // ----- the conditions on one step

  /** x is what the leader's log has right after the entries of v. */
  ghost predicate NextEntryIs(s: State, lead: Addr, v: Addr, x: KubeCmd) {
    && v in s.nodes && lead in s.nodes && |s.nodes[v].log| < |s.nodes[lead].log|
    && s.nodes[lead].log[|s.nodes[v].log|] == x
  }

  /** The object of this write is in the leader's log where its member wants it, or its member is the leader. */
  ghost predicate WriteHolds(s: State, lead: Addr, w: nat) {
    && w in s.writes && lead in s.nodes
    && var wr, log := s.writes[w], s.nodes[lead].log;
       wr.member == lead || (wr.logIndex < |log| && log[wr.logIndex] == wr.cmd)
  }

  /** The node leads, or will turn to the write's term or to its longer log instead of answering. */
  predicate HandsBack(n: Node, wr: Write) {
    || n.role == LEADER
    || wr.term > n.term
    || (n.role == CANDIDATE && wr.term >= n.term && wr.logIndex > LogLength(n))
  }

  /** No other node than `lead` is promoted. */
  ghost predicate OneLeader(s: State, step: Step, lead: Addr)
    requires Enabled(s, step)
  {
    match step
    case TakeElectionResult(v) =>
      v != lead ==> s.campaigns[CampaignId(v, s.nodes[v].electing.value)].status != Passed
    case _ => true
  }

  /**
   * An entry is stored at the index it was asked for, a guard the code could have, or equals the one that
   * belongs where it goes. Under one leader the first implies the second, which goes further only where the
   * leader's log repeats an entry.
   */
  ghost predicate StoresInOrder(s: State, step: Step, lead: Addr)
    requires Enabled(s, step)
  {
    match step
    case TakeFetchReply(k) => var ses := s.sessions[k];
      Accepts(ses.fetch.index, ses.fetch.entry) ==>
        || |s.nodes[ses.member].log| + 1 == ses.fetch.index
        || NextEntryIs(s, lead, ses.member, ses.fetch.entry.newObject)
    case TakeWriteReply(w) => var wr := s.writes[w];
      wr.status.confirmed && wr.member != lead ==>
        |s.nodes[wr.member].log| == wr.logIndex || NextEntryIs(s, lead, wr.member, wr.cmd)
    case _ => true
  }

  /**
   * A write is left to a leader, who stores it where the member asked for; anything else about to be
   * confirmed is in the leader's log already.
   */
  ghost predicate ConfirmsTruly(s: State, step: Step, lead: Addr)
    requires Enabled(s, step)
  {
    match step
    case HandleWrite(w, newId, lookup) => HandsBack(s.nodes[s.writes[w].target], s.writes[w]) || WriteHolds(s, lead, w)
    case CommitRound(rid) => var r := s.rounds[rid];
      r.origin.WriteConn? && r.origin.write in s.writes && s.writes[r.origin.write].status == WriteWorking ==>
        |s.nodes[r.leader].log| == r.logIndex || WriteHolds(s, lead, r.origin.write)
    case _ => true
  }

  ghost predicate Disciplined(s: State, step: Step, lead: Addr)
    requires Enabled(s, step)
  {
    OneLeader(s, step, lead) && StoresInOrder(s, step, lead) && ConfirmsTruly(s, step, lead) && RealSubmission(step)
  }

  ghost predicate DisciplinedRun(trace: seq<State>, steps: seq<Step>, lead: Addr) {
    && Execution(trace, steps)
    && forall i :: 0 <= i < |steps| ==> Disciplined(trace[i], steps[i], lead)
  }

  /** The condition on the target is the guard of the branches in which it does not confirm on its own. */
  lemma HandsBackMeaning(known: set<Addr>, n: Node, wr: Write)
    requires wr.cmd != EMPTY_CMD
    ensures HandsBack(n, wr)
            <==> OnAppendEntry(known, n, AppendEntry(wr.term, wr.target, wr.logIndex, wr.cmd)).1
                 in {Silent, AskQuorum, Answer(false)}
  {
    hide LogLength;
  }

  // ----- the invariant

  /** A request still able to make its leader store something. */
  predicate Open(r: Round) {
    r.status in {Asking, Accepted}
  }

  ghost predicate RoundFits(s: State, lead: Addr, rid: nat)
    requires rid in s.rounds && lead in s.nodes
  {
    var r := s.rounds[rid];
    && r.logIndex <= |s.nodes[lead].log|
    && (Open(r) ==> r.leader == lead)
    && (Open(r) && r.origin.WriteConn? ==>
      && r.origin.write in s.writes
      && s.writes[r.origin.write].cmd == r.cmd && s.writes[r.origin.write].logIndex == r.logIndex)
  }

  ghost predicate SessionFits(s: State, lead: Addr, k: nat)
    requires k in s.sessions && lead in s.nodes
  {
    var ses, log := s.sessions[k], s.nodes[lead].log;
    && (ses.conn.WriteConn? ==> WriteHolds(s, lead, ses.conn.write))
    && ses.logIndex <= |log|
    && (ses.fetch.Asked? ==> 1 <= ses.fetch.index <= |log| + 1)
    && (ses.fetch.Arrived? ==>
      && ses.member != lead && 1 <= ses.fetch.index <= |log|
      && ses.fetch.entry == FetchedEntry(ses.fetch.index, log[ses.fetch.index - 1]))
  }

  ghost predicate WriteFits(s: State, lead: Addr, w: nat)
    requires w in s.writes && lead in s.nodes
  {
    var wr := s.writes[w];
    && wr.member in s.nodes
    && wr.logIndex <= |s.nodes[wr.member].log| && wr.logIndex <= |s.nodes[lead].log|
    && (wr.status == WriteAnswered(true) ==> WriteHolds(s, lead, w))
  }

  ghost predicate MembersFit(s: State, lead: Addr) {
    && lead in s.nodes
    && (forall v :: v in s.nodes && v != lead ==> s.nodes[v].role != LEADER)
    && (forall v :: v in s.nodes ==> s.nodes[v].log <= s.nodes[lead].log)
  }

  ghost predicate RequestsFit(s: State, lead: Addr) {
    && lead in s.nodes
    && (forall rid :: rid in s.rounds ==> RoundFits(s, lead, rid))
    && (forall k :: k in s.sessions ==> SessionFits(s, lead, k))
    && (forall w :: w in s.writes ==> WriteFits(s, lead, w))
    && (forall b :: b in s.heartbeats ==> b.logIndex <= |s.nodes[lead].log|)
  }

  ghost predicate LeaderInv(s: State, lead: Addr) {
    MembersFit(s, lead) && RequestsFit(s, lead)
  }

  /** A state nothing is in flight in, with every log a prefix of the leader's, is a valid start. */
  lemma QuietStart(s: State, lead: Addr)
    requires MembersFit(s, lead)
    requires s.rounds == map[] && s.sessions == map[] && s.writes == map[] && s.heartbeats == {}
    ensures LeaderInv(s, lead)
  {
  }

  // ----- one frame for all steps

  ghost predicate RoundCarried(s: State, t: State, rid: nat)
    requires rid in t.rounds
  {
    && rid in s.rounds
    && t.rounds[rid].leader == s.rounds[rid].leader && t.rounds[rid].logIndex == s.rounds[rid].logIndex
    && t.rounds[rid].cmd == s.rounds[rid].cmd && t.rounds[rid].origin == s.rounds[rid].origin
    && (Open(t.rounds[rid]) ==> Open(s.rounds[rid]))
  }

  /** Writes keep everything but their status. */
  ghost predicate WritesStable(s: State, t: State) {
    && s.writes.Keys <= t.writes.Keys
    && forall w :: w in s.writes ==> t.writes[w] == s.writes[w].(status := t.writes[w].status)
  }

  ghost predicate LogsGrow(s: State, t: State) {
    forall v :: v in s.nodes ==> v in t.nodes && s.nodes[v].log <= t.nodes[v].log
  }

  lemma RequestsFrame(s: State, t: State, lead: Addr)
    requires RequestsFit(s, lead) && LogsGrow(s, t)
    requires WritesStable(s, t)
    requires forall rid :: rid in t.rounds ==> RoundCarried(s, t, rid) || RoundFits(t, lead, rid)
    requires forall k :: k in t.sessions ==> (k in s.sessions && t.sessions[k] == s.sessions[k]) || SessionFits(t, lead, k)
    requires forall w :: w in t.writes ==>
      (w in s.writes && (t.writes[w].status == WriteAnswered(true) ==> s.writes[w].status == WriteAnswered(true)))
      || WriteFits(t, lead, w)
    requires forall b :: b in t.heartbeats ==> b in s.heartbeats || b.logIndex <= |t.nodes[lead].log|
    ensures RequestsFit(t, lead)
  {
    forall rid | rid in t.rounds ensures RoundFits(t, lead, rid) {
      if RoundCarried(s, t, rid) { assert RoundFits(s, lead, rid); }
    }
    forall k | k in t.sessions ensures SessionFits(t, lead, k) {
      if k in s.sessions && t.sessions[k] == s.sessions[k] { assert SessionFits(s, lead, k); }
    }
    forall w | w in t.writes ensures WriteFits(t, lead, w) {
      if w in s.writes { assert WriteFits(s, lead, w); }
    }
  }

  /** Steps that change nodes only. */
  lemma NodesFrame(s: State, t: State, lead: Addr)
    requires RequestsFit(s, lead) && LogsGrow(s, t)
    requires t.rounds == s.rounds && t.sessions == s.sessions && t.writes == s.writes && t.heartbeats == s.heartbeats
    ensures RequestsFit(t, lead)
  {
    forall rid | rid in t.rounds ensures RoundCarried(s, t, rid) {}
    hide RoundFits, SessionFits, WriteFits;
    RequestsFrame(s, t, lead);
  }

  // ----- replies

  lemma ConfirmFits(s: State, conn: Conn, confirmed: bool, lead: Addr)
    requires RequestsFit(s, lead)
    requires conn.WriteConn? && confirmed && conn.write in s.writes && s.writes[conn.write].status == WriteWorking ==>
      WriteHolds(s, lead, conn.write)
    ensures RequestsFit(Confirm(s, conn, confirmed), lead)
  {
    hide RequestsFit, WriteHolds;
    match conn
    case NoConn =>
    case RoundConn(rid, p) =>
      if rid in s.rounds && p in s.rounds[rid].calls && s.rounds[rid].calls[p] == Working {
        CallFits(s, rid, p, Answered(confirmed), lead);
      }
    case WriteConn(w) =>
      if w in s.writes && s.writes[w].status == WriteWorking { WriteAnswerFits(s, w, confirmed, lead); }
  }

  lemma WriteAnswerFits(s: State, w: nat, confirmed: bool, lead: Addr)
    requires RequestsFit(s, lead) && w in s.writes && (confirmed ==> WriteHolds(s, lead, w))
    ensures RequestsFit(s.(writes := s.writes[w := s.writes[w].(status := WriteAnswered(confirmed))]), lead)
  {
    assert WriteFits(s, lead, w);
    WriteChangeFits(s, s.(writes := s.writes[w := s.writes[w].(status := WriteAnswered(confirmed))]), w, lead);
  }

  lemma CallFits(s: State, rid: nat, p: Addr, call: AppendCall, lead: Addr)
    requires RequestsFit(s, lead) && rid in s.rounds && p in s.rounds[rid].calls
    ensures RequestsFit(SetCall(s, rid, p, call), lead)
  {
    var t := SetCall(s, rid, p, call);
    forall id | id in t.rounds ensures RoundCarried(s, t, id) {}
    hide RoundFits, SessionFits, WriteFits;
    RequestsFrame(s, t, lead);
  }

  lemma RoundChangeFits(s: State, t: State, rid: nat, lead: Addr)
    requires RequestsFit(s, lead) && rid in s.rounds && rid in t.rounds
    requires t == s.(rounds := s.rounds[rid := t.rounds[rid]]) && RoundCarried(s, t, rid)
    ensures RequestsFit(t, lead)
  {
    forall id | id in t.rounds ensures RoundCarried(s, t, id) {}
    hide RoundFits, SessionFits, WriteFits;
    RequestsFrame(s, t, lead);
  }

  lemma NewRoundFits(s: State, newId: nat, x: KubeCmd, origin: Conn, lead: Addr)
    requires RequestsFit(s, lead) && newId !in s.rounds
    requires origin.WriteConn? ==>
      && origin.write in s.writes
      && s.writes[origin.write].cmd == x && s.writes[origin.write].logIndex == LogLength(s.nodes[lead])
    ensures RequestsFit(s.(rounds := s.rounds[newId := NewRound(s, lead, x, origin)]), lead)
  {
    var t := s.(rounds := s.rounds[newId := NewRound(s, lead, x, origin)]);
    assert RoundFits(t, lead, newId);
    forall rid | rid in t.rounds && rid != newId ensures RoundCarried(s, t, rid) {}
    hide RoundFits, SessionFits, WriteFits;
    RequestsFrame(s, t, lead);
  }

  lemma SessionChangeFits(s: State, t: State, k: nat, lead: Addr)
    requires RequestsFit(s, lead) && t == s.(sessions := t.sessions)
    requires k in t.sessions ==> SessionFits(t, lead, k)
    requires forall o :: o in t.sessions && o != k ==> o in s.sessions && t.sessions[o] == s.sessions[o]
    ensures RequestsFit(t, lead)
  {
    forall rid | rid in t.rounds ensures RoundCarried(s, t, rid) {}
    hide RoundFits, SessionFits, WriteFits;
    RequestsFrame(s, t, lead);
  }

  lemma WriteChangeFits(s: State, t: State, w: nat, lead: Addr)
    requires RequestsFit(s, lead) && w in t.writes && t == s.(writes := s.writes[w := t.writes[w]])
    requires WritesStable(s, t) && WriteFits(t, lead, w)
    ensures RequestsFit(t, lead)
  {
    forall rid | rid in t.rounds ensures RoundCarried(s, t, rid) {}
    hide RoundFits, SessionFits, WriteFits;
    RequestsFrame(s, t, lead);
  }

  // ----- roles and prefixes of nodes that store nothing

  lemma MembersFrame(s: State, t: State, lead: Addr)
    requires MembersFit(s, lead) && t.nodes.Keys == s.nodes.Keys
    requires forall v :: v in s.nodes ==> t.nodes[v].log == s.nodes[v].log
    requires forall v :: v in s.nodes && v != lead && t.nodes[v].role == LEADER ==> s.nodes[v].role == LEADER
    ensures MembersFit(t, lead)
  {
  }

  lemma ElectionStepRoles(s: State, step: Step, lead: Addr)
    requires Enabled(s, step) && ElectionStep(step) && OneLeader(s, step, lead)
    ensures forall v :: v in s.nodes && v in Apply(s, step).nodes && v != lead && Apply(s, step).nodes[v].role == LEADER
              ==> s.nodes[v].role == LEADER
  {
    if step.HandleVoteRequest? {
      VoteMeaning(s.nodes.Keys, s.nodes[step.voter],
                  RequestVote(step.id.term, step.id.candidate, s.campaigns[step.id].logIndex));
    }
    hide OnRequestVote;
  }

  lemma ElectionStepFits(s: State, step: Step, lead: Addr)
    requires LeaderInv(s, lead) && Enabled(s, step) && ElectionStep(step) && OneLeader(s, step, lead)
    ensures LeaderInv(Apply(s, step), lead)
  {
    hide LeaderInv, OneLeader;
    hide Apply, Enabled, MembersFit, RequestsFit, LogsGrow;
    LeaderInvParts(s, lead);
    ElectionStepMembers(s, step, lead);
    ElectionStepLogs(s, step);
    ElectionStepRequestsSame(s, step);
    NodesFrame(s, Apply(s, step), lead);
    LeaderInvWhole(Apply(s, step), lead);
  }

  lemma ElectionStepMembers(s: State, step: Step, lead: Addr)
    requires MembersFit(s, lead) && Enabled(s, step) && ElectionStep(step) && OneLeader(s, step, lead)
    ensures MembersFit(Apply(s, step), lead)
  {
    hide Apply, Enabled, OneLeader;
    ElectionStepCommands(s, step);
    ElectionStepRoles(s, step, lead);
    MembersFrame(s, Apply(s, step), lead);
  }

  lemma ElectionStepLogs(s: State, step: Step)
    requires Enabled(s, step) && ElectionStep(step)
    ensures LogsGrow(s, Apply(s, step))
  {
    hide Apply, Enabled;
    ElectionStepCommands(s, step);
  }

  lemma LeaderInvParts(s: State, lead: Addr)
    requires LeaderInv(s, lead)
    ensures MembersFit(s, lead) && RequestsFit(s, lead)
  {
  }

  lemma LeaderInvWhole(s: State, lead: Addr)
    requires MembersFit(s, lead) && RequestsFit(s, lead)
    ensures LeaderInv(s, lead)
  {
  }

  lemma ElectionStepRequestsSame(s: State, step: Step)
    requires Enabled(s, step) && ElectionStep(step)
    ensures var t := Apply(s, step);
            t.rounds == s.rounds && t.sessions == s.sessions && t.writes == s.writes && t.heartbeats == s.heartbeats
  {
    hide OnRequestVote, LogLength;
  }

  // ----- requests handled by a node

  /** What may be asked for on a connection, so that answering it is right. */
  ghost predicate AskFits(s: State, conn: Conn, req: AppendEntry, p: Addr, lead: Addr)
    requires p in s.nodes && lead in s.nodes
  {
    && req.logIndex <= |s.nodes[lead].log|
    && (conn.WriteConn? ==>
      && conn.write in s.writes
      && s.writes[conn.write].cmd == req.newObject && s.writes[conn.write].logIndex == req.logIndex
      && (OnAppendEntry(s.nodes.Keys, s.nodes[p], req).1 in {Silent, AskQuorum, Answer(false)}
          || WriteHolds(s, lead, conn.write)))
  }

  lemma AppendingFits(s: State, p: Addr, req: AppendEntry, conn: Conn, newId: nat, lookup: Option<Addr>, lead: Addr)
    requires MembersFit(s, lead) && RequestsFit(s, lead) && p in s.nodes && AskFits(s, conn, req, p, lead)
    requires newId !in s.rounds && newId !in s.sessions
    ensures LeaderInv(Appending(s, p, req, conn, newId, lookup), lead)
  {
    AppendingMembersFit(s, p, req, conn, newId, lookup, lead);
    hide MembersFit;
    AppendingRequestsFit(s, p, req, conn, newId, lookup, lead);
  }

  lemma AppendingMembersFit(s: State, p: Addr, req: AppendEntry, conn: Conn, newId: nat, lookup: Option<Addr>, lead: Addr)
    requires MembersFit(s, lead) && p in s.nodes
    ensures MembersFit(Appending(s, p, req, conn, newId, lookup), lead)
  {
    AppendingNodes(s, p, req, conn, newId, lookup);
    ConfirmMeaning(s.nodes.Keys, s.nodes[p], req);
    hide OnAppendEntry, Appending;
    MembersFrame(s, Appending(s, p, req, conn, newId, lookup), lead);
  }

  /** Handling an append moves no log. */
  lemma HandlerMovesNoLog(s: State, p: Addr, req: AppendEntry, lead: Addr)
    requires p in s.nodes && lead in s.nodes
    ensures var moved := SetNode(s, p, OnAppendEntry(s.nodes.Keys, s.nodes[p], req).0);
            && LogsGrow(s, moved) && moved.nodes[lead].log == s.nodes[lead].log
            && forall w :: WriteHolds(s, lead, w) <==> WriteHolds(moved, lead, w)
  {
    ConfirmMeaning(s.nodes.Keys, s.nodes[p], req);
    hide OnAppendEntry;
  }

  lemma AppendingRequestsFit(s: State, p: Addr, req: AppendEntry, conn: Conn, newId: nat, lookup: Option<Addr>, lead: Addr)
    requires MembersFit(s, lead) && RequestsFit(s, lead) && p in s.nodes && AskFits(s, conn, req, p, lead)
    requires newId !in s.rounds && newId !in s.sessions
    ensures RequestsFit(Appending(s, p, req, conn, newId, lookup), lead)
  {
    var (after, action) := OnAppendEntry(s.nodes.Keys, s.nodes[p], req);
    ConfirmMeaning(s.nodes.Keys, s.nodes[p], req);
    var moved := SetNode(s, p, after);
    assert action.AskQuorum? ==> p == lead;
    HandlerMovesNoLog(s, p, req, lead);
    assert lead in s.nodes;
    hide RequestsFit, OnAppendEntry, MembersFit, WriteHolds, LogsGrow, Acting;
    NodesFrame(s, moved, lead);
    ActingFits(moved, p, req, action, conn, newId, lookup, lead);
  }

  lemma ActingFits(s: State, p: Addr, req: AppendEntry, action: AppendAction, conn: Conn, newId: nat, lookup: Option<Addr>,
                   lead: Addr)
    requires RequestsFit(s, lead) && p in s.nodes && newId !in s.rounds && newId !in s.sessions
    requires req.logIndex <= |s.nodes[lead].log|
    requires action.AskQuorum? ==> p == lead && req.logIndex == LogLength(s.nodes[lead])
    requires conn.WriteConn? ==>
      && conn.write in s.writes
      && s.writes[conn.write].cmd == req.newObject && s.writes[conn.write].logIndex == req.logIndex
      && (action in {Silent, AskQuorum, Answer(false)} || WriteHolds(s, lead, conn.write))
    ensures RequestsFit(Acting(s, p, req, action, conn, newId, lookup), lead)
  {
    hide RequestsFit, WriteHolds, LogLength;
    match action
    case Silent =>
    case Answer(confirmed) => ConfirmFits(s, conn, confirmed, lead);
    case AskQuorum => NewRoundFits(s, newId, req.newObject, conn, lead);
    case CatchUp(missing) => NewSessionFits(s, newId, Session(p, conn, req.logIndex, missing, lookup, s.nodes[p].term, Idle), lead);
  }

  lemma NewSessionFits(s: State, k: nat, ses: Session, lead: Addr)
    requires RequestsFit(s, lead) && ses.fetch == Idle && ses.logIndex <= |s.nodes[lead].log|
    requires ses.conn.WriteConn? ==> WriteHolds(s, lead, ses.conn.write)
    ensures RequestsFit(s.(sessions := s.sessions[k := ses]), lead)
  {
    SessionChangeFits(s, s.(sessions := s.sessions[k := ses]), k, lead);
  }

  lemma RoundAppendFits(s: State, rid: nat, p: Addr, newId: nat, lookup: Option<Addr>, lead: Addr)
    requires LeaderInv(s, lead) && Enabled(s, HandleRoundAppend(rid, p, newId, lookup))
    ensures LeaderInv(Apply(s, HandleRoundAppend(rid, p, newId, lookup)), lead)
  {
    var r := s.rounds[rid];
    var working := SetCall(s, rid, p, Working);
    assert RoundFits(s, lead, rid);
    CallFits(s, rid, p, Working, lead);
    hide RequestsFit;
    AppendingFits(working, p, AppendEntry(r.term, r.leader, r.logIndex, r.cmd), RoundConn(rid, p), newId, lookup, lead);
  }

  lemma HeartbeatFits(s: State, beat: Heartbeat, p: Addr, newId: nat, lookup: Option<Addr>, lead: Addr)
    requires LeaderInv(s, lead) && Enabled(s, HandleHeartbeat(beat, p, newId, lookup))
    ensures LeaderInv(Apply(s, HandleHeartbeat(beat, p, newId, lookup)), lead)
  {
    assert beat.logIndex <= |s.nodes[lead].log|;
    hide RequestsFit;
    AppendingFits(s, p, AppendEntry(beat.term, beat.leader, beat.logIndex, EMPTY_CMD), NoConn, newId, lookup, lead);
  }

  lemma WriteRequestFits(s: State, w: nat, newId: nat, lookup: Option<Addr>, lead: Addr)
    requires LeaderInv(s, lead) && RealRequests(s) && Enabled(s, HandleWrite(w, newId, lookup))
    requires ConfirmsTruly(s, HandleWrite(w, newId, lookup), lead)
    ensures LeaderInv(Apply(s, HandleWrite(w, newId, lookup)), lead)
  {
    var wr := s.writes[w];
    var working := s.(writes := s.writes[w := wr.(status := WriteWorking)]);
    assert WriteFits(s, lead, w);
    HandsBackMeaning(s.nodes.Keys, s.nodes[wr.target], wr);
    hide OnAppendEntry, HandsBack, LogLength, MembersFit;
    WriteChangeFits(s, working, w, lead);
    hide RequestsFit;
    AppendingFits(working, wr.target, AppendEntry(wr.term, wr.target, wr.logIndex, wr.cmd), WriteConn(w), newId, lookup, lead);
  }

  lemma AppendStepFits(s: State, step: Step, lead: Addr)
    requires LeaderInv(s, lead) && RealRequests(s) && Enabled(s, step) && AppendStep(step) && ConfirmsTruly(s, step, lead)
    ensures LeaderInv(Apply(s, step), lead)
  {
    hide LeaderInv, Apply;
    match step
    case HandleHeartbeat(beat, p, newId, lookup) => HeartbeatFits(s, beat, p, newId, lookup, lead);
    case HandleRoundAppend(rid, p, newId, lookup) => RoundAppendFits(s, rid, p, newId, lookup, lead);
    case HandleWrite(w, newId, lookup) => WriteRequestFits(s, w, newId, lookup, lead);
  }

  // ----- storing

  lemma RealLength(s: State, v: Addr)
    requires NoEmptyLogs(s) && v in s.nodes
    ensures LogLength(s.nodes[v]) == |s.nodes[v].log|
  {
    CountedLengthIsLength(s.nodes[v].log);
  }

  /** Another node stores the leader's next entry for it. */
  lemma MemberStores(s: State, v: Addr, x: KubeCmd, lead: Addr)
    requires MembersFit(s, lead) && RequestsFit(s, lead) && v in s.nodes && v != lead
    requires |s.nodes[v].log| < |s.nodes[lead].log| && s.nodes[lead].log[|s.nodes[v].log|] == x
    ensures LeaderInv(SetNode(s, v, AddCommit(s.nodes[v], x)), lead)
  {
    var t := SetNode(s, v, AddCommit(s.nodes[v], x));
    PrefixExtension(s.nodes[v].log, s.nodes[lead].log, x);
    hide RequestsFit;
    NodesFrame(s, t, lead);
  }

  lemma LeaderStores(s: State, x: KubeCmd, lead: Addr)
    requires MembersFit(s, lead) && RequestsFit(s, lead)
    ensures LeaderInv(SetNode(s, lead, AddCommit(s.nodes[lead], x)), lead)
  {
    hide RequestsFit;
    NodesFrame(s, SetNode(s, lead, AddCommit(s.nodes[lead], x)), lead);
  }

  lemma CommitRoundFits(s: State, rid: nat, lead: Addr)
    requires LeaderInv(s, lead) && NoEmptyLogs(s) && Enabled(s, CommitRound(rid))
    requires ConfirmsTruly(s, CommitRound(rid), lead)
    ensures LeaderInv(Apply(s, CommitRound(rid)), lead)
  {
    var r := s.rounds[rid];
    assert RoundFits(s, lead, rid);
    RealLength(s, lead);
    LeaderStores(s, r.cmd, lead);
    var stored := SetNode(s, lead, AddCommit(s.nodes[lead], r.cmd));
    var closed := stored.(rounds := s.rounds[rid := r.(status := Committed)]);
    RoundChangeFits(stored, closed, rid, lead);
    hide RequestsFit;
    ConfirmFits(closed, r.origin, true, lead);
    ConfirmKeepsNodes(closed, r.origin, true);
  }

  lemma WriteReplyFits(s: State, w: nat, lead: Addr)
    requires LeaderInv(s, lead) && NoEmptyLogs(s) && Enabled(s, TakeWriteReply(w))
    requires StoresInOrder(s, TakeWriteReply(w), lead)
    ensures LeaderInv(Apply(s, TakeWriteReply(w)), lead)
  {
    var wr := s.writes[w];
    assert WriteFits(s, lead, w);
    RealLength(s, wr.member);
    var closed := s.(writes := s.writes[w := wr.(status := WriteClosed)]);
    WriteChangeFits(s, closed, w, lead);
    hide RequestsFit;
    if wr.status.confirmed {
      if wr.member == lead { LeaderStores(closed, wr.cmd, lead); } else { MemberStores(closed, wr.member, wr.cmd, lead); }
    }
  }

  lemma FetchReplyFits(s: State, k: nat, lead: Addr)
    requires LeaderInv(s, lead) && NoEmptyLogs(s) && Enabled(s, TakeFetchReply(k))
    requires StoresInOrder(s, TakeFetchReply(k), lead)
    ensures LeaderInv(FetchTaken(s, k), lead)
  {
    var ses := s.sessions[k];
    var t := FetchTaken(s, k);
    assert SessionFits(s, lead, k);
    RealLength(s, ses.member);
    if Accepts(ses.fetch.index, ses.fetch.entry) {
      MemberStores(s, ses.member, ses.fetch.entry.newObject, lead);
      var stored := SetNode(s, ses.member, AddCommit(s.nodes[ses.member], ses.fetch.entry.newObject));
      SessionChangeFits(stored, t, k, lead);
    } else {
      SessionChangeFits(s, t, k, lead);
    }
  }

  lemma StoringStepFits(s: State, step: Step, lead: Addr)
    requires LeaderInv(s, lead) && NoEmptyLogs(s) && Enabled(s, step) && StoringStep(step)
    requires StoresInOrder(s, step, lead) && ConfirmsTruly(s, step, lead)
    ensures LeaderInv(Apply(s, step), lead)
  {
    hide LeaderInv, NoEmptyLogs, StoresInOrder, ConfirmsTruly;
    match step
    case CommitRound(rid) => CommitRoundFits(s, rid, lead);
    case TakeWriteReply(w) => WriteReplyFits(s, w, lead);
    case TakeFetchReply(k) => FetchReplyFits(s, k, lead);
  }

  // ----- the remaining steps

  lemma SubmitFits(s: State, v: Addr, x: KubeCmd, newId: nat, lookup: Option<Addr>, lead: Addr)
    requires LeaderInv(s, lead) && NoEmptyLogs(s) && v in s.nodes && newId !in s.rounds && newId !in s.writes
    ensures LeaderInv(Submitting(s, v, x, newId, lookup), lead)
  {
    RealLength(s, v);
    var t := Submitting(s, v, x, newId, lookup);
    if s.nodes[v].role == LEADER {
      NewRoundFits(s, newId, x, NoConn, lead);
    } else if s.nodes[v].role == MEMBER && lookup.Some? {
      WriteChangeFits(s, t, newId, lead);
    }
  }

  lemma AnswerFetchFits(s: State, k: nat, lead: Addr)
    requires LeaderInv(s, lead) && NoEmptyLogs(s) && Enabled(s, HandleFetch(k))
    ensures LeaderInv(Apply(s, HandleFetch(k)), lead)
  {
    RealLength(s, lead);
    assert SessionFits(s, lead, k);
    SessionChangeFits(s, Apply(s, HandleFetch(k)), k, lead);
  }

  lemma SendFetchFits(s: State, k: nat, lead: Addr)
    requires LeaderInv(s, lead) && NoEmptyLogs(s) && Enabled(s, SendFetch(k))
    ensures LeaderInv(Apply(s, SendFetch(k)), lead)
  {
    RealLength(s, s.sessions[k].member);
    assert SessionFits(s, lead, k);
    SessionChangeFits(s, Apply(s, SendFetch(k)), k, lead);
  }

  lemma EndSessionFits(s: State, k: nat, lead: Addr)
    requires LeaderInv(s, lead) && k in s.sessions
    ensures LeaderInv(s.(sessions := s.sessions - {k}), lead)
    ensures LeaderInv(Confirm(s.(sessions := s.sessions - {k}), s.sessions[k].conn, true), lead)
  {
    var removed := s.(sessions := s.sessions - {k});
    assert SessionFits(s, lead, k);
    SessionChangeFits(s, removed, k, lead);
    hide RequestsFit;
    ConfirmFits(removed, s.sessions[k].conn, true, lead);
    ConfirmKeepsNodes(removed, s.sessions[k].conn, true);
  }

  lemma BeatFits(s: State, v: Addr, lead: Addr)
    requires LeaderInv(s, lead) && NoEmptyLogs(s) && Enabled(s, SendHeartbeat(v))
    ensures LeaderInv(Apply(s, SendHeartbeat(v)), lead)
  {
    var t := Apply(s, SendHeartbeat(v));
    RealLength(s, v);
    forall rid | rid in t.rounds ensures RoundCarried(s, t, rid) {}
    hide RoundFits, SessionFits, WriteFits;
    RequestsFrame(s, t, lead);
  }

  lemma CountingFits(s: State, step: Step, lead: Addr)
    requires LeaderInv(s, lead) && Enabled(s, step) && (step.CountConfirm? || step.RoundTimeout?)
    ensures LeaderInv(Apply(s, step), lead)
  {
    RoundChangeFits(s, Apply(s, step), step.round, lead);
  }

  lemma WriteTimeoutFits(s: State, w: nat, lead: Addr)
    requires LeaderInv(s, lead) && Enabled(s, WriteTimeout(w))
    ensures LeaderInv(Apply(s, WriteTimeout(w)), lead)
  {
    assert WriteFits(s, lead, w);
    WriteChangeFits(s, Apply(s, WriteTimeout(w)), w, lead);
  }

  /** Changing only which leaders a node has marked, or what its cluster has received. */
  lemma RelabelFits(s: State, v: Addr, n: Node, lead: Addr)
    requires LeaderInv(s, lead) && v in s.nodes && n.log == s.nodes[v].log && n.role == s.nodes[v].role
    ensures LeaderInv(SetNode(s, v, n), lead)
  {
    hide RequestsFit;
    MembersFrame(s, SetNode(s, v, n), lead);
    NodesFrame(s, SetNode(s, v, n), lead);
  }

  lemma BookkeepingFits(s: State, step: Step, lead: Addr)
    requires LeaderInv(s, lead) && Enabled(s, step) && (step.ExpireLeader? || step.ClusterReceive?)
    ensures LeaderInv(Apply(s, step), lead)
  {
    hide LeaderInv;
    RelabelFits(s, step.v, Apply(s, step).nodes[step.v], lead);
  }

  lemma QuietStepFits(s: State, step: Step, lead: Addr)
    requires LeaderInv(s, lead) && NoEmptyLogs(s) && Enabled(s, step) && QuietStep(step)
    ensures LeaderInv(Apply(s, step), lead)
  {
    hide LeaderInv, NoEmptyLogs;
    match step
    case SendHeartbeat(v) => BeatFits(s, v, lead);
    case SubmitCommit(v, x, newId, lookup) => SubmitFits(s, v, x, newId, lookup, lead);
    case CountConfirm(rid, p) => CountingFits(s, step, lead);
    case RoundTimeout(rid) => CountingFits(s, step, lead);
    case WriteTimeout(w) => WriteTimeoutFits(s, w, lead);
    case SendFetch(k) => SendFetchFits(s, k, lead);
    case HandleFetch(k) => AnswerFetchFits(s, k, lead);
    case AbortSession(k) => EndSessionFits(s, k, lead);
    case FinishSession(k) => EndSessionFits(s, k, lead);
    case ExpireLeader(v, l) => BookkeepingFits(s, step, lead);
    case ClusterReceive(v, x) => BookkeepingFits(s, step, lead);
  }

  lemma StepFits(s: State, step: Step, lead: Addr)
    requires LeaderInv(s, lead) && ShapeInv(s) && Enabled(s, step) && Disciplined(s, step, lead)
    ensures LeaderInv(Apply(s, step), lead)
  {
    hide LeaderInv, NoEmptyLogs, RealRequests, Enabled, Apply, StoresInOrder, ConfirmsTruly, OneLeader;
    if ElectionStep(step) { ElectionStepFits(s, step, lead); }
    else if AppendStep(step) { AppendStepFits(s, step, lead); }
    else if StoringStep(step) { StoringStepFits(s, step, lead); }
    else { QuietStepFits(s, step, lead); }
  }
}
