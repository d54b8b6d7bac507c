/**
 * Exactly when agreement under one leader is kept, by one step and along a run, and everything that
 * follows while it is.
 */
module Agreement {
  import opened Basics
  import opened NodeSteps
  import opened Protocol
  import opened Elections
  import opened Shape
  import opened SingleLeader

  // ----- which steps keep the agreement, exactly

  /** From a state that fits, a step keeps every log a prefix of the leader's exactly when it stores in order. */
  lemma StoresDecide(s: State, step: Step, lead: Addr)
    requires LeaderInv(s, lead) && ShapeInv(s) && Enabled(s, step)
    ensures MembersFit(Apply(s, step), lead) <==> OneLeader(s, step, lead) && StoresInOrder(s, step, lead)
  {
    hide LeaderInv, NoEmptyLogs, RealRequests, Enabled, Apply, MembersFit, OneLeader, StoresInOrder;
    if step.TakeElectionResult? { PromotionDecides(s, step.v, lead); }
    else if step.TakeFetchReply? { FetchAgreement(s, step.session, lead); }
    else if step.TakeWriteReply? { WriteAgreement(s, step.write, lead); }
    else { OthersKeepMembers(s, step, lead); }
  }

  lemma PromotionDecides(s: State, v: Addr, lead: Addr)
    requires LeaderInv(s, lead) && Enabled(s, TakeElectionResult(v))
    ensures MembersFit(Apply(s, TakeElectionResult(v)), lead) <==> OneLeader(s, TakeElectionResult(v), lead)
    ensures StoresInOrder(s, TakeElectionResult(v), lead)
  {
    var t := Apply(s, TakeElectionResult(v));
    var won := s.campaigns[CampaignId(v, s.nodes[v].electing.value)].status == Passed;
    assert t.nodes == s.nodes[v := ConcludeElection(s.nodes[v], won)];
    hide RequestsFit, MembersFit, Apply;
    RoleDecides(s, t, v, ConcludeElection(s.nodes[v], won), lead);
  }

  lemma RoleDecides(s: State, t: State, v: Addr, n: Node, lead: Addr)
    requires MembersFit(s, lead) && v in s.nodes && t.nodes == s.nodes[v := n] && n.log == s.nodes[v].log
    requires n.role == LEADER || n.role == s.nodes[v].role
    ensures MembersFit(t, lead) <==> v == lead || n.role != LEADER
    ensures v != lead ==> s.nodes[v].role != LEADER
  {
    assert v in t.nodes && t.nodes[v] == n;
  }

  lemma FetchAgreement(s: State, k: nat, lead: Addr)
    requires LeaderInv(s, lead) && NoEmptyLogs(s) && Enabled(s, TakeFetchReply(k))
    ensures MembersFit(Apply(s, TakeFetchReply(k)), lead) <==> StoresInOrder(s, TakeFetchReply(k), lead)
    ensures OneLeader(s, TakeFetchReply(k), lead)
  {
    var ses := s.sessions[k];
    assert SessionFits(s, lead, k);
    assert s.nodes[lead].log[ses.fetch.index - 1] in s.nodes[lead].log;
    hide RequestsFit, SessionFits, NoEmptyLogs;
    AppendDecides(s, Apply(s, TakeFetchReply(k)), ses.member, ses.fetch.entry.newObject, lead);
  }

  lemma AppendDecides(s: State, t: State, v: Addr, x: KubeCmd, lead: Addr)
    requires MembersFit(s, lead) && v in s.nodes && v != lead && t.nodes == s.nodes[v := AddCommit(s.nodes[v], x)]
    ensures MembersFit(t, lead) <==> NextEntryIs(s, lead, v, x)
  {
    PrefixExtension(s.nodes[v].log, s.nodes[lead].log, x);
    assert t.nodes[v].log == s.nodes[v].log + [x];
  }

  lemma WriteAgreement(s: State, w: nat, lead: Addr)
    requires LeaderInv(s, lead) && Enabled(s, TakeWriteReply(w))
    ensures MembersFit(Apply(s, TakeWriteReply(w)), lead) <==> StoresInOrder(s, TakeWriteReply(w), lead)
    ensures OneLeader(s, TakeWriteReply(w), lead)
  {
    var wr, t := s.writes[w], Apply(s, TakeWriteReply(w));
    assert WriteFits(s, lead, w);
    hide RequestsFit, WriteFits;
    if !wr.status.confirmed {
      MembersFrame(s, t, lead);
    } else if wr.member == lead {
      assert t.nodes == s.nodes[lead := AddCommit(s.nodes[lead], wr.cmd)];
    } else {
      AppendDecides(s, t, wr.member, wr.cmd, lead);
    }
  }

  lemma OthersKeepMembers(s: State, step: Step, lead: Addr)
    requires LeaderInv(s, lead) && ShapeInv(s) && Enabled(s, step)
    requires !step.TakeElectionResult? && !step.TakeFetchReply? && !step.TakeWriteReply?
    ensures MembersFit(Apply(s, step), lead) && OneLeader(s, step, lead) && StoresInOrder(s, step, lead)
  {
    hide Apply, Enabled, NoEmptyLogs, RealRequests, LeaderInv;
    if ElectionStep(step) {
      ElectionStepFits(s, step, lead);
    } else if AppendStep(step) {
      AppendStepMembers(s, step, lead);
    } else if step.CommitRound? {
      CommitMembers(s, step.round, lead);
    } else {
      QuietStepFits(s, step, lead);
    }
    LeaderInvPartsIf(Apply(s, step), lead);
  }

  lemma LeaderInvPartsIf(s: State, lead: Addr)
    ensures LeaderInv(s, lead) ==> MembersFit(s, lead) && RequestsFit(s, lead)
  {
  }

  lemma AppendStepMembers(s: State, step: Step, lead: Addr)
    requires LeaderInv(s, lead) && Enabled(s, step) && AppendStep(step)
    ensures MembersFit(Apply(s, step), lead)
  {
    hide RequestsFit, MembersFit;
    match step
    case HandleHeartbeat(beat, p, newId, lookup) =>
      AppendingMembersFit(s, p, AppendEntry(beat.term, beat.leader, beat.logIndex, EMPTY_CMD), NoConn, newId, lookup, lead);
    case HandleRoundAppend(rid, p, newId, lookup) =>
      var r := s.rounds[rid];
      var working := SetCall(s, rid, p, Working);
      MembersFrameSame(s, working, lead);
      AppendingMembersFit(working, p, AppendEntry(r.term, r.leader, r.logIndex, r.cmd), RoundConn(rid, p), newId, lookup, lead);
    case HandleWrite(w, newId, lookup) =>
      var wr := s.writes[w];
      var working := s.(writes := s.writes[w := wr.(status := WriteWorking)]);
      MembersFrameSame(s, working, lead);
      AppendingMembersFit(working, wr.target, AppendEntry(wr.term, wr.target, wr.logIndex, wr.cmd), WriteConn(w), newId, lookup, lead);
  }

  lemma MembersFrameSame(s: State, t: State, lead: Addr)
    requires MembersFit(s, lead) && t.nodes == s.nodes
    ensures MembersFit(t, lead)
  {
  }

  lemma CommitMembers(s: State, rid: nat, lead: Addr)
    requires LeaderInv(s, lead) && Enabled(s, CommitRound(rid))
    ensures MembersFit(Apply(s, CommitRound(rid)), lead)
  {
    assert RoundFits(s, lead, rid);
    StoringStepNodes(s, CommitRound(rid));
    hide RequestsFit, Apply;
  }

  /** And it leaves a state that fits, so that the question can be asked again, exactly when it also confirms truly. */
  lemma DisciplineDecides(s: State, step: Step, lead: Addr)
    requires LeaderInv(s, lead) && ShapeInv(s) && Enabled(s, step) && RealSubmission(step)
    ensures LeaderInv(Apply(s, step), lead) <==> Disciplined(s, step, lead)
  {
    hide ShapeInv, Enabled, Apply, MembersFit, RequestsFit, OneLeader, StoresInOrder, ConfirmsTruly;
    StoresDecide(s, step, lead);
    if Disciplined(s, step, lead) {
      StepFits(s, step, lead);
    } else if !ConfirmsTruly(s, step, lead) {
      UntrueConfirmation(s, step, lead);
    }
  }

  lemma UntrueConfirmation(s: State, step: Step, lead: Addr)
    requires LeaderInv(s, lead) && ShapeInv(s) && Enabled(s, step) && !ConfirmsTruly(s, step, lead)
    ensures !RequestsFit(Apply(s, step), lead)
  {
    hide MembersFit, NoEmptyLogs;
    match step
    case HandleWrite(w, newId, lookup) => UntrueWrite(s, w, newId, lookup, lead);
    case CommitRound(rid) => UntrueCommit(s, rid, lead);
  }

  /** A handler that has caught up and is about to confirm the write. */
  ghost predicate OwesAnswer(s: State, k: nat, w: nat) {
    && k in s.sessions && s.sessions[k].conn == WriteConn(w) && s.sessions[k].missing == 0 && s.sessions[k].fetch == Idle
    && w in s.writes && s.writes[w].status == WriteWorking
  }

  lemma UntrueWrite(s: State, w: nat, newId: nat, lookup: Option<Addr>, lead: Addr)
    requires lead in s.nodes && RealRequests(s) && Enabled(s, HandleWrite(w, newId, lookup))
    requires !ConfirmsTruly(s, HandleWrite(w, newId, lookup), lead)
    ensures var t := Apply(s, HandleWrite(w, newId, lookup));
            && !RequestsFit(t, lead)
            && (LogLength(s.nodes[s.writes[w].target]) == s.writes[w].logIndex ==>
                  t.nodes == s.nodes && t.writes == s.writes[w := s.writes[w].(status := WriteAnswered(true))])
            && (LogLength(s.nodes[s.writes[w].target]) > s.writes[w].logIndex ==>
                  t.nodes == s.nodes && t.writes == s.writes[w := s.writes[w].(status := WriteWorking)]
                  && OwesAnswer(t, newId, w))
  {
    var wr := s.writes[w];
    var working := s.(writes := s.writes[w := wr.(status := WriteWorking)]);
    var req := AppendEntry(wr.term, wr.target, wr.logIndex, wr.cmd);
    var (after, action) := OnAppendEntry(s.nodes.Keys, s.nodes[wr.target], req);
    HandsBackMeaning(s.nodes.Keys, s.nodes[wr.target], wr);
    assert after == s.nodes[wr.target] && (action == Answer(true) || action.CatchUp?)
      && (LogLength(after) == wr.logIndex ==> action == Answer(true))
      && (LogLength(after) > wr.logIndex ==> action == CatchUp(0)) by { hide RequestsFit; }
    hide OnAppendEntry, LogLength;
    assert SetNode(working, wr.target, after) == working;
    UntrueActing(working, wr.target, req, action, w, newId, lookup, lead);
    hide RequestsFit;
  }

  lemma UntrueActing(s: State, p: Addr, req: AppendEntry, action: AppendAction, w: nat, newId: nat, lookup: Option<Addr>,
                     lead: Addr)
    requires p in s.nodes && lead in s.nodes && w in s.writes && s.writes[w].status == WriteWorking
    requires !WriteHolds(s, lead, w) && (action == Answer(true) || action.CatchUp?)
    ensures var t := Acting(s, p, req, action, WriteConn(w), newId, lookup);
            && !RequestsFit(t, lead)
            && (action == Answer(true) ==>
                  t.nodes == s.nodes && t.writes == s.writes[w := s.writes[w].(status := WriteAnswered(true))])
            && (action == CatchUp(0) ==> t.nodes == s.nodes && t.writes == s.writes && OwesAnswer(t, newId, w))
  {
    var t := Acting(s, p, req, action, WriteConn(w), newId, lookup);
    assert !WriteHolds(t, lead, w);
    if action.CatchUp? {
      assert newId in t.sessions && !SessionFits(t, lead, newId);
    } else {
      assert w in t.writes && !WriteFits(t, lead, w);
    }
  }

  lemma UntrueCommit(s: State, rid: nat, lead: Addr)
    requires LeaderInv(s, lead) && Enabled(s, CommitRound(rid)) && !ConfirmsTruly(s, CommitRound(rid), lead)
    ensures var t := Apply(s, CommitRound(rid)); var w := s.rounds[rid].origin.write;
            && !RequestsFit(t, lead) && w in s.writes && !WriteHolds(t, lead, w)
            && t.writes == s.writes[w := s.writes[w].(status := WriteAnswered(true))]
            && t.nodes == s.nodes[lead := AddCommit(s.nodes[lead], s.rounds[rid].cmd)]
  {
    var t, w := Apply(s, CommitRound(rid)), s.rounds[rid].origin.write;
    assert RoundFits(s, lead, rid);
    assert WriteFits(s, lead, w);
    hide RequestsFit, MembersFit;
    assert t.nodes == s.nodes[lead := AddCommit(s.nodes[lead], s.rounds[rid].cmd)];
    assert !WriteHolds(t, lead, w);
    UnheldAnswer(t, w, lead);
  }

  lemma UnheldAnswer(s: State, w: nat, lead: Addr)
    requires w in s.writes && s.writes[w].status == WriteAnswered(true) && !WriteHolds(s, lead, w)
    ensures !RequestsFit(s, lead)
  {
    assert RequestsFit(s, lead) ==> WriteFits(s, lead, w);
  }

  /** A member that takes such an answer at the length it asked with leaves the leader's log, although it stores in order. */
  lemma UntrueAnswerBreaks(s: State, step: Step, w: nat, lead: Addr)
    requires LeaderInv(s, lead) && ShapeInv(s) && Enabled(s, step) && !ConfirmsTruly(s, step, lead)
    requires w in s.writes && s.writes[w].member in s.nodes
    requires |s.nodes[s.writes[w].member].log| == s.writes[w].logIndex
    requires (step.CommitRound? && s.rounds[step.round].origin == WriteConn(w))
             || (step.HandleWrite? && step.write == w && LogLength(s.nodes[s.writes[w].target]) == s.writes[w].logIndex)
    ensures var t := Apply(s, step);
            && Enabled(t, TakeWriteReply(w)) && StoresInOrder(t, TakeWriteReply(w), lead)
            && !MembersFit(Apply(t, TakeWriteReply(w)), lead)
  {
    var t := Apply(s, step);
    OthersKeepMembers(s, step, lead);
    hide ShapeInv, MembersFit;
    if step.CommitRound? { UntrueCommit(s, step.round, lead); } else { UntrueWrite(s, w, step.newId, step.lookup, lead); }
    hide RequestsFit, Apply;
    assert !WriteHolds(t, lead, w);
    TakingBreaks(t, w, lead);
  }

  /**
   * The same for a confirmation by a handler that has caught up, however it did: when it is given while the
   * object is not in the leader's log at that index, the member that takes it leaves the leader's log.
   */
  lemma UntrueSessionBreaks(s: State, k: nat, w: nat, lead: Addr)
    requires MembersFit(s, lead) && OwesAnswer(s, k, w) && !WriteHolds(s, lead, w)
    requires s.writes[w].member in s.nodes && |s.nodes[s.writes[w].member].log| == s.writes[w].logIndex
    ensures Enabled(s, FinishSession(k))
    ensures var t := Apply(s, FinishSession(k));
            && Enabled(t, TakeWriteReply(w)) && StoresInOrder(t, TakeWriteReply(w), lead)
            && !MembersFit(Apply(t, TakeWriteReply(w)), lead)
  {
    hide MembersFit;
    var t := Apply(s, FinishSession(k));
    MembersFrameSame(s, t, lead);
    hide Apply;
    assert !WriteHolds(t, lead, w);
    TakingBreaks(t, w, lead);
  }

  /** A target longer than the member confirms through such a handler without fetching anything. */
  lemma UntrueLongerAnswerBreaks(s: State, w: nat, newId: nat, lookup: Option<Addr>, lead: Addr)
    requires LeaderInv(s, lead) && ShapeInv(s) && Enabled(s, HandleWrite(w, newId, lookup))
    requires !ConfirmsTruly(s, HandleWrite(w, newId, lookup), lead)
    requires LogLength(s.nodes[s.writes[w].target]) > s.writes[w].logIndex
    requires s.writes[w].member in s.nodes && |s.nodes[s.writes[w].member].log| == s.writes[w].logIndex
    ensures var t := Apply(s, HandleWrite(w, newId, lookup));
            && Enabled(t, FinishSession(newId))
            && var u := Apply(t, FinishSession(newId));
               && Enabled(u, TakeWriteReply(w)) && StoresInOrder(u, TakeWriteReply(w), lead)
               && !MembersFit(Apply(u, TakeWriteReply(w)), lead)
  {
    var t := Apply(s, HandleWrite(w, newId, lookup));
    OthersKeepMembers(s, HandleWrite(w, newId, lookup), lead);
    hide ShapeInv, MembersFit;
    UntrueWrite(s, w, newId, lookup, lead);
    hide RequestsFit, Apply;
    assert !WriteHolds(t, lead, w);
    UntrueSessionBreaks(t, newId, w, lead);
  }

  lemma TakingBreaks(s: State, w: nat, lead: Addr)
    requires MembersFit(s, lead) && !WriteHolds(s, lead, w)
    requires w in s.writes && s.writes[w].status == WriteAnswered(true) && s.writes[w].member in s.nodes
    requires |s.nodes[s.writes[w].member].log| == s.writes[w].logIndex
    ensures Enabled(s, TakeWriteReply(w)) && StoresInOrder(s, TakeWriteReply(w), lead)
    ensures !MembersFit(Apply(s, TakeWriteReply(w)), lead)
  {
    AppendDecides(s, Apply(s, TakeWriteReply(w)), s.writes[w].member, s.writes[w].cmd, lead);
  }

  // ----- whole runs

  /** What holds while one node leads: logs, everything in flight and every campaign stay within its log. */
  ghost predicate AllWithin(s: State, lead: Addr) {
    && lead in s.nodes
    && var log := s.nodes[lead].log;
       && (forall v :: v in s.nodes ==> s.nodes[v].log <= log)
       && (forall u, v :: u in s.nodes && v in s.nodes ==>
             s.nodes[u].log <= s.nodes[v].log || s.nodes[v].log <= s.nodes[u].log)
       && (forall rid :: rid in s.rounds ==> s.rounds[rid].logIndex <= |log|)
       && (forall b :: b in s.heartbeats ==> b.logIndex <= |log|)
       && (forall w :: w in s.writes ==> s.writes[w].logIndex <= |log|)
       && (forall id :: id in s.campaigns ==> s.campaigns[id].logIndex <= |log|)
       && (forall k :: k in s.sessions ==> AnswersWithin(s.sessions[k], log))
  }

  /** A handler that catches up promises to reach, asks for, and was sent, what the leader's log has. */
  ghost predicate AnswersWithin(ses: Session, log: Log) {
    && ses.logIndex <= |log|
    && (ses.fetch.Asked? ==> 1 <= ses.fetch.index <= |log| + 1)
    && (ses.fetch.Arrived? ==>
          1 <= ses.fetch.index <= |log| && ses.fetch.entry == FetchedEntry(ses.fetch.index, log[ses.fetch.index - 1]))
  }

  /** What a run may start from: the initial state, or any state reached before in which `lead`'s log covers all. */
  ghost predicate Settled(s: State, lead: Addr) {
    LeaderInv(s, lead) && ShapeInv(s) && ElectionInv(s)
  }

  lemma InitSettled(members: set<Addr>, lead: Addr)
    requires lead in members
    ensures Settled(Init(members), lead)
  {
    InitElection(members);
    QuietStart(Init(members), lead);
    hide RequestsFit;
  }

  lemma SettledWithin(s: State, lead: Addr)
    requires Settled(s, lead)
    ensures AllWithin(s, lead)
  {
    var log := s.nodes[lead].log;
    forall rid | rid in s.rounds ensures s.rounds[rid].logIndex <= |log| { assert RoundFits(s, lead, rid); }
    forall k | k in s.sessions ensures AnswersWithin(s.sessions[k], log) { assert SessionFits(s, lead, k); }
    forall w | w in s.writes ensures s.writes[w].logIndex <= |log| { assert WriteFits(s, lead, w); }
    forall id | id in s.campaigns ensures s.campaigns[id].logIndex <= |log| { CampaignWithin(s, id, lead); }
  }

  lemma CampaignWithin(s: State, id: CampaignId, lead: Addr)
    requires MembersFit(s, lead) && NoEmptyLogs(s) && CampaignsOk(s) && id in s.campaigns
    ensures s.campaigns[id].logIndex <= |s.nodes[lead].log|
  {
    assert CampaignOk(s, id);
    RealLength(s, id.candidate);
    assert s.nodes[id.candidate].log <= s.nodes[lead].log;
  }

  lemma StepSettles(s: State, step: Step, lead: Addr)
    requires Settled(s, lead) && Enabled(s, step) && Disciplined(s, step, lead)
    ensures Settled(Apply(s, step), lead)
  {
    hide Apply, Enabled, LeaderInv, ShapeInv, ElectionInv, OneLeader, StoresInOrder, ConfirmsTruly;
    StepFits(s, step, lead);
    StepKeepsShape(s, step);
    StepKeepsElection(s, step);
  }

  lemma {:induction false} SettledAlways(trace: seq<State>, steps: seq<Step>, lead: Addr, i: nat)
    requires DisciplinedRun(trace, steps, lead) && i < |trace| && Settled(trace[0], lead)
    ensures Settled(trace[i], lead)
  {
    hide Apply, Enabled, Settled;
    if i == 0 {
    } else {
      SettledAlways(trace, steps, lead, i - 1);
      assert Disciplined(trace[i - 1], steps[i - 1], lead);
      StepSettles(trace[i - 1], steps[i - 1], lead);
    }
  }

  /**
   * While only `lead` leads, from any settled state on: every log is a prefix of the leader's, every
   * LogIndex in flight is within it, and every fetch reply in flight is its entry at the index asked for.
   */
  lemma SingleLeaderPrefixSafety(trace: seq<State>, steps: seq<Step>, lead: Addr, i: nat)
    requires DisciplinedRun(trace, steps, lead) && i < |trace| && Settled(trace[0], lead)
    ensures AllWithin(trace[i], lead)
  {
    SettledAlways(trace, steps, lead, i);
    hide Settled, AllWithin;
    SettledWithin(trace[i], lead);
  }

  /** In particular from the initial state. */
  lemma LogsAgreeUnderOneLeader(members: set<Addr>, trace: seq<State>, steps: seq<Step>, lead: Addr, i: nat)
    requires Run(members, trace, steps) && DisciplinedRun(trace, steps, lead) && i < |trace| && lead in members
    ensures AllWithin(trace[i], lead)
  {
    InitSettled(members, lead);
    hide Execution, Settled, AllWithin;
    SingleLeaderPrefixSafety(trace, steps, lead, i);
  }

  /** The first step of a run that breaks the agreement is one that breaks a condition, and then it does. */
  lemma FirstBreakIsUndisciplined(trace: seq<State>, steps: seq<Step>, lead: Addr, i: nat)
    requires Execution(trace, steps) && i < |steps| && Settled(trace[0], lead) && RealSubmissions(steps)
    requires forall k :: 0 <= k < i ==> Disciplined(trace[k], steps[k], lead)
    ensures MembersFit(trace[i + 1], lead) <==> OneLeader(trace[i], steps[i], lead) && StoresInOrder(trace[i], steps[i], lead)
    ensures LeaderInv(trace[i + 1], lead) <==> Disciplined(trace[i], steps[i], lead)
  {
    StepAt(trace, steps, i);
    assert RealSubmission(steps[i]);
    assert Execution(trace[..i + 1], steps[..i]) by { hide Apply, Enabled; }
    assert DisciplinedRun(trace[..i + 1], steps[..i], lead) by { hide Apply, Enabled, Disciplined; }
    hide Execution, DisciplinedRun, Apply, Enabled, Disciplined;
    SettledAlways(trace[..i + 1], steps[..i], lead, i);
    hide LeaderInv, MembersFit;
    StoresDecide(trace[i], steps[i], lead);
    DisciplineDecides(trace[i], steps[i], lead);
  }

  /**
   * A write confirmed in such a run puts the same object at the same position of both logs: right after
   * the entries the member had when it asked.
   */
  lemma ConfirmedWritesAgree(trace: seq<State>, steps: seq<Step>, lead: Addr, i: nat, w: nat)
    requires DisciplinedRun(trace, steps, lead) && i < |steps| && Settled(trace[0], lead)
    requires steps[i] == TakeWriteReply(w) && w in trace[i].writes && trace[i].writes[w].status == WriteAnswered(true)
    requires trace[i].writes[w].member != lead
    ensures var wr := trace[i].writes[w];
            && wr.member in trace[i + 1].nodes && lead in trace[i + 1].nodes
            && var mine, theirs := trace[i + 1].nodes[wr.member].log, trace[i + 1].nodes[lead].log;
               && wr.logIndex < |mine| && mine <= theirs && mine[wr.logIndex] == wr.cmd == theirs[wr.logIndex]
  {
    SettledAlways(trace, steps, lead, i);
    SettledAlways(trace, steps, lead, i + 1);
    StepAt(trace, steps, i);
    hide DisciplinedRun, Execution, ElectionInv, ShapeInv;
    assert WriteFits(trace[i], lead, w);
    hide RequestsFit;
  }
}
