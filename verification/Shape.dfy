/** What logs look like in every run, what leaders answer to fetches, and what the cluster receives. */
module Shape {
  import opened Basics
  import opened NodeSteps
  import opened Protocol

  // ----- conservation: needs no assumption about what clients submit

  ghost predicate AllConserved(s: State) {
    forall v :: v in s.nodes ==> Conserved(s.nodes[v])
  }

  /** The parts of a node that conservation is about. */
  ghost predicate SameCommands(s: State, t: State) {
    && s.nodes.Keys == t.nodes.Keys
    && forall v :: v in s.nodes ==>
      && t.nodes[v].log == s.nodes[v].log
      && t.nodes[v].toCluster == s.nodes[v].toCluster && t.nodes[v].received == s.nodes[v].received
  }

  lemma ElectionStepCommands(s: State, step: Step)
    requires Enabled(s, step) && ElectionStep(step)
    ensures SameCommands(s, Apply(s, step))
  {
    hide LogLength, OnRequestVote, SameCommands;
    match step
    case HandleVoteRequest(id, p) => VoteCommands(s, id, p);
    case StartCampaign(v) => MovedCommands(s, Campaigning(s, v), v);
    case BecomeCandidate(v) => MovedCommands(s, Apply(s, step), v);
    case TakeElectionResult(v) => MovedCommands(s, Apply(s, step), v);
    case TakeNewLeader(v) => MovedCommands(s, Apply(s, step), v);
    case TakeNewTerm(v) => MovedCommands(s, Apply(s, step), v);
    case CountVote(id, p) => UnmovedCommands(s, Apply(s, step));
    case ElectionTimeout(id) => UnmovedCommands(s, Apply(s, step));
  }

  lemma MovedCommands(s: State, t: State, v: Addr)
    requires v in s.nodes && v in t.nodes && t.nodes == s.nodes[v := t.nodes[v]]
    requires t.nodes[v].log == s.nodes[v].log
    requires t.nodes[v].toCluster == s.nodes[v].toCluster && t.nodes[v].received == s.nodes[v].received
    ensures SameCommands(s, t)
  {
  }

  lemma UnmovedCommands(s: State, t: State)
    requires t.nodes == s.nodes
    ensures SameCommands(s, t)
  {
  }

  lemma VoteCommands(s: State, id: CampaignId, p: Addr)
    requires VoteCallIs(s, id, p)
    ensures SameCommands(s, Voting(s, id, p))
  {
    VoteMeaning(s.nodes.Keys, s.nodes[p], RequestVote(id.term, id.candidate, s.campaigns[id].logIndex));
    hide OnRequestVote;
  }

  lemma AppendingCommands(s: State, p: Addr, req: AppendEntry, conn: Conn, newId: nat, lookup: Option<Addr>)
    requires p in s.nodes
    ensures SameCommands(s, Appending(s, p, req, conn, newId, lookup))
  {
    AppendingNodes(s, p, req, conn, newId, lookup);
    hide Appending, Acting, LogLength;
  }

  lemma AppendStepCommands(s: State, step: Step)
    requires Enabled(s, step) && AppendStep(step)
    ensures SameCommands(s, Apply(s, step))
  {
    hide SameCommands;
    match step
    case HandleHeartbeat(beat, p, newId, lookup) =>
      AppendingCommands(s, p, AppendEntry(beat.term, beat.leader, beat.logIndex, EMPTY_CMD), NoConn, newId, lookup);
    case HandleRoundAppend(rid, p, newId, lookup) =>
      var r := s.rounds[rid];
      var working := SetCall(s, rid, p, Working);
      AppendingCommands(working, p, AppendEntry(r.term, r.leader, r.logIndex, r.cmd), RoundConn(rid, p), newId, lookup);
      SameNodesCommands(s, working, Apply(s, step));
    case HandleWrite(w, newId, lookup) =>
      var wr := s.writes[w];
      var working := s.(writes := s.writes[w := wr.(status := WriteWorking)]);
      AppendingCommands(working, wr.target, AppendEntry(wr.term, wr.target, wr.logIndex, wr.cmd), WriteConn(w), newId, lookup);
      SameNodesCommands(s, working, Apply(s, step));
  }

  lemma SameNodesCommands(s: State, m: State, t: State)
    requires m.nodes == s.nodes && SameCommands(m, t)
    ensures SameCommands(s, t)
  {
  }

  lemma StepConserves(s: State, step: Step)
    requires AllConserved(s) && Enabled(s, step)
    ensures AllConserved(Apply(s, step))
  {
    hide Apply, Enabled;
    if ElectionStep(step) {
      ElectionStepCommands(s, step);
    } else if AppendStep(step) {
      AppendStepCommands(s, step);
    } else if StoringStep(step) {
      StoringConserves(s, step);
    } else {
      QuietConserves(s, step);
    }
  }

  lemma StoringConserves(s: State, step: Step)
    requires AllConserved(s) && Enabled(s, step) && StoringStep(step)
    ensures AllConserved(Apply(s, step))
  {
    StoringStepNodes(s, step);
    hide Apply, Enabled, StoredBy;
    var (v, x) := StoredBy(s, step);
    AddCommitConserves(s.nodes[v], x);
  }

  lemma QuietConserves(s: State, step: Step)
    requires AllConserved(s) && Enabled(s, step) && QuietStep(step)
    ensures AllConserved(Apply(s, step))
  {
    QuietStepNodes(s, step);
    if step.ClusterReceive? {
      var n := s.nodes[step.v];
      assert n.toCluster == n.toCluster - multiset{step.cmd} + multiset{step.cmd};
    }
    hide Apply, Enabled;
  }

  /**
   * At every point of every run each committed command has been received by the cluster or is in a
   * pending send, as often as it was committed: none is lost or duplicated, though order may change.
   */
  lemma NothingLostToCluster(members: set<Addr>, trace: seq<State>, steps: seq<Step>, i: nat, v: Addr)
    requires Run(members, trace, steps) && i < |trace| && v in trace[i].nodes
    ensures multiset(trace[i].nodes[v].log) == trace[i].nodes[v].received + trace[i].nodes[v].toCluster
  {
    ConservedAlways(members, trace, steps, i);
  }

  lemma {:induction false} ConservedAlways(members: set<Addr>, trace: seq<State>, steps: seq<Step>, i: nat)
    requires Run(members, trace, steps) && i < |trace|
    ensures AllConserved(trace[i])
  {
    hide Apply, Enabled;
    if i == 0 {
    } else {
      ConservedAlways(members, trace, steps, i - 1);
      StepConserves(trace[i - 1], steps[i - 1]);
    }
  }

  // ----- shape: when clients submit only real commands

  /** The command line hands over only objects it has built. */
  ghost predicate RealSubmissions(steps: seq<Step>) {
    forall i :: 0 <= i < |steps| ==> RealSubmission(steps[i])
  }

  predicate RealSubmission(step: Step) {
    step.SubmitCommit? ==> step.cmd != EMPTY_CMD
  }

  ghost predicate NoEmptyLogs(s: State) {
    forall v :: v in s.nodes ==> EMPTY_CMD !in s.nodes[v].log
  }

  ghost predicate RealRequests(s: State) {
    && (forall rid :: rid in s.rounds ==> s.rounds[rid].cmd != EMPTY_CMD)
    && (forall w :: w in s.writes ==> s.writes[w].cmd != EMPTY_CMD)
  }

  ghost predicate ShapeInv(s: State) {
    NoEmptyLogs(s) && RealRequests(s)
  }

  lemma ConfirmRequests(s: State, conn: Conn, confirmed: bool)
    requires RealRequests(s)
    ensures RealRequests(Confirm(s, conn, confirmed))
  {
  }

  lemma AppendingRequests(s: State, p: Addr, req: AppendEntry, conn: Conn, newId: nat, lookup: Option<Addr>)
    requires RealRequests(s) && p in s.nodes
    ensures RealRequests(Appending(s, p, req, conn, newId, lookup))
  {
    var (after, action) := OnAppendEntry(s.nodes.Keys, s.nodes[p], req);
    ConfirmMeaning(s.nodes.Keys, s.nodes[p], req);
    var moved := SetNode(s, p, after);
    hide OnAppendEntry, Acting, LogLength;
    assert RealRequests(moved);
    hide RealRequests;
    ActingRequests(moved, p, req, action, conn, newId, lookup);
  }

  lemma ActingRequests(s: State, p: Addr, req: AppendEntry, action: AppendAction, conn: Conn, newId: nat, lookup: Option<Addr>)
    requires RealRequests(s) && p in s.nodes && (action.AskQuorum? ==> req.newObject != EMPTY_CMD)
    ensures RealRequests(Acting(s, p, req, action, conn, newId, lookup))
  {
    hide LogLength;
    if action.Answer? { ConfirmRequests(s, conn, action.confirmed); }
  }

  lemma AppendStepRequests(s: State, step: Step)
    requires RealRequests(s) && Enabled(s, step) && AppendStep(step)
    ensures RealRequests(Apply(s, step))
  {
    match step
    case HandleHeartbeat(beat, p, newId, lookup) =>
      AppendingRequests(s, p, AppendEntry(beat.term, beat.leader, beat.logIndex, EMPTY_CMD), NoConn, newId, lookup);
    case HandleRoundAppend(rid, p, newId, lookup) =>
      var r := s.rounds[rid];
      AppendingRequests(SetCall(s, rid, p, Working), p, AppendEntry(r.term, r.leader, r.logIndex, r.cmd),
                        RoundConn(rid, p), newId, lookup);
    case HandleWrite(w, newId, lookup) =>
      var wr := s.writes[w];
      AppendingRequests(s.(writes := s.writes[w := wr.(status := WriteWorking)]), wr.target,
                        AppendEntry(wr.term, wr.target, wr.logIndex, wr.cmd), WriteConn(w), newId, lookup);
  }

  lemma SameRequests(s: State, t: State)
    requires RealRequests(s) && t.rounds == s.rounds && t.writes == s.writes
    ensures RealRequests(t)
  {
  }

  lemma ElectionStepRequests(s: State, step: Step)
    requires RealRequests(s) && Enabled(s, step) && ElectionStep(step)
    ensures RealRequests(Apply(s, step))
  {
    hide OnRequestVote, LogLength, RealRequests;
    SameRequests(s, Apply(s, step));
  }

  lemma StoringRequests(s: State, step: Step)
    requires RealRequests(s) && Enabled(s, step) && StoringStep(step)
    ensures RealRequests(Apply(s, step))
  {
    match step
    case CommitRound(rid) => CommitRequests(s, rid);
    case TakeWriteReply(w) => WriteReplyRequests(s, w);
    case TakeFetchReply(k) => SameRequests(s, Apply(s, step));
  }

  lemma CommitRequests(s: State, rid: nat)
    requires RealRequests(s) && Enabled(s, CommitRound(rid))
    ensures RealRequests(Apply(s, CommitRound(rid)))
  {
    var r := s.rounds[rid];
    var stored := SetNode(s, r.leader, AddCommit(s.nodes[r.leader], r.cmd));
    ConfirmRequests(stored.(rounds := s.rounds[rid := r.(status := Committed)]), r.origin, true);
  }

  lemma WriteReplyRequests(s: State, w: nat)
    requires RealRequests(s) && Enabled(s, TakeWriteReply(w))
    ensures RealRequests(Apply(s, TakeWriteReply(w)))
  {
    hide LogLength;
  }

  lemma QuietStepRequests(s: State, step: Step)
    requires RealRequests(s) && Enabled(s, step) && RealSubmission(step) && QuietStep(step)
    ensures RealRequests(Apply(s, step))
  {
    hide LogLength, OnFetch;
    if step.SubmitCommit? || step.CountConfirm? || step.RoundTimeout? || step.WriteTimeout? {
      RequestStepRequests(s, step);
    } else if step.FinishSession? {
      ConfirmRequests(s.(sessions := s.sessions - {step.session}), s.sessions[step.session].conn, true);
    } else {
      hide RealRequests;
      SameRequests(s, Apply(s, step));
    }
  }

  lemma RequestStepRequests(s: State, step: Step)
    requires RealRequests(s) && Enabled(s, step) && RealSubmission(step)
    requires step.SubmitCommit? || step.CountConfirm? || step.RoundTimeout? || step.WriteTimeout?
    ensures RealRequests(Apply(s, step))
  {
    hide RealRequests;
    match step
    case SubmitCommit(v, x, newId, lookup) => SubmitRequests(s, v, x, newId, lookup);
    case CountConfirm(rid, p) => RoundRequests(s, ConfirmCounted(s, rid, p), rid);
    case RoundTimeout(rid) => RoundRequests(s, Apply(s, step), rid);
    case WriteTimeout(w) => WriteRequests(s, Apply(s, step), w);
  }

  lemma RoundRequests(s: State, t: State, rid: nat)
    requires RealRequests(s) && rid in t.rounds
    requires t.rounds[rid].cmd != EMPTY_CMD || (rid in s.rounds && t.rounds[rid].cmd == s.rounds[rid].cmd)
    requires t.rounds == s.rounds[rid := t.rounds[rid]] && t.writes == s.writes
    ensures RealRequests(t)
  {
  }

  lemma WriteRequests(s: State, t: State, w: nat)
    requires RealRequests(s) && w in t.writes
    requires t.writes[w].cmd != EMPTY_CMD || (w in s.writes && t.writes[w].cmd == s.writes[w].cmd)
    requires t.writes == s.writes[w := t.writes[w]] && t.rounds == s.rounds
    ensures RealRequests(t)
  {
  }

  lemma SubmitRequests(s: State, v: Addr, x: KubeCmd, newId: nat, lookup: Option<Addr>)
    requires RealRequests(s) && v in s.nodes && x != EMPTY_CMD
    ensures RealRequests(Submitting(s, v, x, newId, lookup))
  {
    hide LogLength, RealRequests;
    var t := Submitting(s, v, x, newId, lookup);
    if s.nodes[v].role == LEADER { RoundRequests(s, t, newId); }
    else if s.nodes[v].role == MEMBER && lookup.Some? { WriteRequests(s, t, newId); }
  }

  lemma StepLogs(s: State, step: Step)
    requires ShapeInv(s) && Enabled(s, step)
    ensures NoEmptyLogs(Apply(s, step))
  {
    hide Apply, Enabled, RealRequests;
    if ElectionStep(step) {
      ElectionStepCommands(s, step);
    } else if AppendStep(step) {
      AppendStepCommands(s, step);
    } else if StoringStep(step) {
      StoringLogs(s, step);
    } else {
      QuietLogs(s, step);
    }
  }

  lemma QuietLogs(s: State, step: Step)
    requires NoEmptyLogs(s) && Enabled(s, step) && QuietStep(step)
    ensures NoEmptyLogs(Apply(s, step))
  {
    QuietSameLogs(s, step);
    hide Apply, Enabled;
  }

  lemma QuietSameLogs(s: State, step: Step)
    requires Enabled(s, step) && QuietStep(step)
    ensures s.nodes.Keys == Apply(s, step).nodes.Keys
    ensures forall v :: v in s.nodes ==> Apply(s, step).nodes[v].log == s.nodes[v].log
  {
    QuietStepNodes(s, step);
    hide Apply, Enabled;
  }

  lemma StoringLogs(s: State, step: Step)
    requires ShapeInv(s) && Enabled(s, step) && StoringStep(step)
    ensures NoEmptyLogs(Apply(s, step))
  {
    StoringStepNodes(s, step);
    if step.TakeFetchReply? && StoredBy(s, step).1 == EMPTY_CMD {
      assert Apply(s, step).nodes == s.nodes;
    }
  }

  lemma StepKeepsShape(s: State, step: Step)
    requires ShapeInv(s) && Enabled(s, step) && RealSubmission(step)
    ensures ShapeInv(Apply(s, step))
  {
    hide Apply, Enabled;
    StepLogs(s, step);
    if AppendStep(step) { AppendStepRequests(s, step); }
    else if ElectionStep(step) { ElectionStepRequests(s, step); }
    else if StoringStep(step) { StoringRequests(s, step); }
    else { QuietStepRequests(s, step); }
  }

  /** No log ever holds the empty command, so the counted length is the real one. */
  lemma {:induction false} LogsStayReal(members: set<Addr>, trace: seq<State>, steps: seq<Step>, i: nat)
    requires Run(members, trace, steps) && RealSubmissions(steps) && i < |trace|
    ensures ShapeInv(trace[i])
    ensures forall v :: v in trace[i].nodes ==> LogLength(trace[i].nodes[v]) == |trace[i].nodes[v].log|
  {
    hide Apply, Enabled;
    if i == 0 {
    } else {
      LogsStayReal(members, trace, steps, i - 1);
      StepKeepsShape(trace[i - 1], steps[i - 1]);
    }
    forall v | v in trace[i].nodes
      ensures LogLength(trace[i].nodes[v]) == |trace[i].nodes[v].log|
    {
      CountedLengthIsLength(trace[i].nodes[v].log);
    }
  }

  /** What a leader answers at an index of at least 1 is a real entry, and the same one for ever after. */
  lemma FetchesAreStable(members: set<Addr>, trace: seq<State>, steps: seq<Step>, i: nat, j: nat, u: Addr, req: FetchEntry)
    requires Run(members, trace, steps) && RealSubmissions(steps) && i <= j < |trace|
    requires u in trace[i].nodes && OnFetch(trace[i].nodes[u], req).Some? && req.logIndex >= 1
    ensures Accepts(req.logIndex, OnFetch(trace[i].nodes[u], req).value)
    ensures u in trace[j].nodes && req.logIndex <= |trace[j].nodes[u].log|
    ensures trace[j].nodes[u].log[req.logIndex - 1] == OnFetch(trace[i].nodes[u], req).value.newObject
    ensures forall later: FetchEntry :: later.logIndex == req.logIndex && OnFetch(trace[j].nodes[u], later).Some?
              ==> OnFetch(trace[j].nodes[u], later) == OnFetch(trace[i].nodes[u], req)
  {
    hide Apply, Enabled;
    LogsStayReal(members, trace, steps, i);
    RunProgress(trace, steps, i, j);
    assert trace[i].nodes[u].log[req.logIndex - 1] in trace[i].nodes[u].log;
  }
}
