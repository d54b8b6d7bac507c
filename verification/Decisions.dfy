/** Quorum requests and writes are decided once: nothing is stored twice on one decision, or after giving up. */
module Decisions {
  import opened Basics
  import opened NodeSteps
  import opened Protocol

  function RoundRank(status: RoundStatus): nat {
    match status
    case Asking => 0
    case Accepted => 1
    case Committed => 2
    case Abandoned => 2
  }

  function WriteRank(status: WriteStatus): nat {
    match status
    case WriteSent => 0
    case WriteWorking => 1
    case WriteAnswered(_) => 2
    case WriteClosed => 3
  }

  /** No decision is lost or taken back. */
  ghost predicate Onward(s: State, t: State) {
    && (forall rid :: rid in s.rounds ==>
          rid in t.rounds && RoundRank(s.rounds[rid].status) <= RoundRank(t.rounds[rid].status))
    && (forall w :: w in s.writes ==>
          w in t.writes && WriteRank(s.writes[w].status) <= WriteRank(t.writes[w].status))
  }

  lemma OnwardOn(s: State, t: State, u: State)
    requires Onward(s, t) && Onward(t, u)
    ensures Onward(s, u)
  {
  }

  lemma SameDecisions(s: State, t: State)
    requires t.rounds == s.rounds && t.writes == s.writes
    ensures Onward(s, t)
  {
  }

  lemma RoundOnward(s: State, t: State, rid: nat)
    requires rid in t.rounds && t.rounds == s.rounds[rid := t.rounds[rid]] && t.writes == s.writes
    requires rid in s.rounds ==> RoundRank(s.rounds[rid].status) <= RoundRank(t.rounds[rid].status)
    ensures Onward(s, t)
  {
  }

  lemma WriteOnward(s: State, t: State, w: nat)
    requires w in t.writes && t.writes == s.writes[w := t.writes[w]] && t.rounds == s.rounds
    requires w in s.writes ==> WriteRank(s.writes[w].status) <= WriteRank(t.writes[w].status)
    ensures Onward(s, t)
  {
  }

  lemma ConfirmOnward(s: State, conn: Conn, confirmed: bool)
    ensures Onward(s, Confirm(s, conn, confirmed))
  {
    hide Onward;
    var t := Confirm(s, conn, confirmed);
    if t == s { SameDecisions(s, t); }
    else if conn.RoundConn? { RoundOnward(s, t, conn.round); }
    else { WriteOnward(s, t, conn.write); }
  }

  lemma ActingOnward(s: State, p: Addr, req: AppendEntry, action: AppendAction, conn: Conn, newId: nat, lookup: Option<Addr>)
    requires p in s.nodes && newId !in s.rounds
    ensures Onward(s, Acting(s, p, req, action, conn, newId, lookup))
  {
    hide Onward, LogLength;
    var t := Acting(s, p, req, action, conn, newId, lookup);
    match action
    case Answer(confirmed) => ConfirmOnward(s, conn, confirmed);
    case AskQuorum => RoundOnward(s, t, newId);
    case _ => SameDecisions(s, t);
  }

  lemma AppendingOnward(s: State, m: State, p: Addr, req: AppendEntry, conn: Conn, newId: nat, lookup: Option<Addr>)
    requires p in m.nodes && newId !in m.rounds && Onward(s, m)
    ensures Onward(s, Appending(m, p, req, conn, newId, lookup))
  {
    hide Onward, OnAppendEntry, Acting;
    var (after, action) := OnAppendEntry(m.nodes.Keys, m.nodes[p], req);
    SameDecisions(m, SetNode(m, p, after));
    ActingOnward(SetNode(m, p, after), p, req, action, conn, newId, lookup);
    OnwardOn(m, SetNode(m, p, after), Appending(m, p, req, conn, newId, lookup));
    OnwardOn(s, m, Appending(m, p, req, conn, newId, lookup));
  }

  lemma AppendStepOnward(s: State, step: Step)
    requires Enabled(s, step) && AppendStep(step)
    ensures Onward(s, Apply(s, step))
  {
    hide Onward, Appending;
    match step
    case HandleHeartbeat(beat, p, newId, lookup) =>
      SameDecisions(s, s);
      AppendingOnward(s, s, p, AppendEntry(beat.term, beat.leader, beat.logIndex, EMPTY_CMD), NoConn, newId, lookup);
    case HandleRoundAppend(rid, p, newId, lookup) =>
      var r := s.rounds[rid];
      RoundOnward(s, SetCall(s, rid, p, Working), rid);
      AppendingOnward(s, SetCall(s, rid, p, Working), p, AppendEntry(r.term, r.leader, r.logIndex, r.cmd),
                      RoundConn(rid, p), newId, lookup);
    case HandleWrite(w, newId, lookup) =>
      var wr := s.writes[w];
      var working := s.(writes := s.writes[w := wr.(status := WriteWorking)]);
      WriteOnward(s, working, w);
      AppendingOnward(s, working, wr.target, AppendEntry(wr.term, wr.target, wr.logIndex, wr.cmd), WriteConn(w), newId, lookup);
  }

  lemma CommitOnward(s: State, rid: nat)
    requires Enabled(s, CommitRound(rid))
    ensures Onward(s, Apply(s, CommitRound(rid)))
  {
    hide Onward, AddCommit;
    var r := s.rounds[rid];
    var closed := SetNode(s, r.leader, AddCommit(s.nodes[r.leader], r.cmd)).(rounds := s.rounds[rid := r.(status := Committed)]);
    RoundOnward(s, closed, rid);
    ConfirmOnward(closed, r.origin, true);
    OnwardOn(s, closed, Apply(s, CommitRound(rid)));
  }

  lemma FinishOnward(s: State, k: nat)
    requires Enabled(s, FinishSession(k))
    ensures Onward(s, Apply(s, FinishSession(k)))
  {
    hide Onward;
    SameDecisions(s, s.(sessions := s.sessions - {k}));
    ConfirmOnward(s.(sessions := s.sessions - {k}), s.sessions[k].conn, true);
    OnwardOn(s, s.(sessions := s.sessions - {k}), Apply(s, FinishSession(k)));
  }

  lemma SubmitOnward(s: State, v: Addr, x: KubeCmd, newId: nat, lookup: Option<Addr>)
    requires Enabled(s, SubmitCommit(v, x, newId, lookup))
    ensures Onward(s, Apply(s, SubmitCommit(v, x, newId, lookup)))
  {
    hide Onward, LogLength;
    var t := Submitting(s, v, x, newId, lookup);
    if s.nodes[v].role == LEADER { RoundOnward(s, t, newId); }
    else if s.nodes[v].role == MEMBER && lookup.Some? { WriteOnward(s, t, newId); }
    else { SameDecisions(s, t); }
  }

  /** Steps that decide nothing. */
  predicate Undecided(step: Step) {
    && !AppendStep(step) && !step.CommitRound? && !step.FinishSession? && !step.SubmitCommit?
    && !step.CountConfirm? && !step.RoundTimeout? && !step.TakeWriteReply? && !step.WriteTimeout?
  }

  lemma UndecidedStays(s: State, step: Step)
    requires Enabled(s, step) && Undecided(step)
    ensures Apply(s, step).rounds == s.rounds && Apply(s, step).writes == s.writes
  {
    hide LogLength, OnRequestVote, OnFetch, Apply;
    if ElectionStep(step) { ElectionUndecided(s, step); } else { RestUndecided(s, step); }
  }

  lemma ElectionUndecided(s: State, step: Step)
    requires Enabled(s, step) && ElectionStep(step)
    ensures Apply(s, step).rounds == s.rounds && Apply(s, step).writes == s.writes
  {
    hide LogLength, OnRequestVote, QuorumOf, BeginCampaign, ConcludeElection, YieldToCandidate, YieldToTerm;
  }

  lemma RestUndecided(s: State, step: Step)
    requires Enabled(s, step) && Undecided(step) && !ElectionStep(step)
    ensures Apply(s, step).rounds == s.rounds && Apply(s, step).writes == s.writes
  {
    hide LogLength, OnFetch, AddCommit, HandedToCluster;
  }

  lemma TallyOnward(s: State, step: Step)
    requires Enabled(s, step) && (step.CountConfirm? || step.RoundTimeout? || step.TakeWriteReply? || step.WriteTimeout?)
    ensures Onward(s, Apply(s, step))
  {
    hide Onward, QuorumOf, AddCommit;
    if step.CountConfirm? || step.RoundTimeout? {
      RoundOnward(s, Apply(s, step), step.round);
    } else {
      WriteOnward(s, Apply(s, step), step.write);
    }
  }

  lemma OtherOnward(s: State, step: Step)
    requires Enabled(s, step) && !AppendStep(step)
    ensures Onward(s, Apply(s, step))
  {
    hide Onward, Apply, Submitting;
    if Undecided(step) {
      UndecidedStays(s, step);
      SameDecisions(s, Apply(s, step));
    } else if step.CommitRound? {
      CommitOnward(s, step.round);
    } else if step.FinishSession? {
      FinishOnward(s, step.session);
    } else if step.SubmitCommit? {
      SubmitOnward(s, step.v, step.cmd, step.newId, step.lookup);
    } else {
      TallyOnward(s, step);
    }
  }

  lemma StepOnward(s: State, step: Step)
    requires Enabled(s, step)
    ensures Onward(s, Apply(s, step))
  {
    hide Apply, Enabled, Onward;
    if AppendStep(step) { AppendStepOnward(s, step); } else { OtherOnward(s, step); }
  }

  lemma {:induction false} RunOnward(trace: seq<State>, steps: seq<Step>, i: nat, j: nat)
    requires Execution(trace, steps) && i <= j < |trace|
    ensures Onward(trace[i], trace[j])
    decreases j
  {
    hide Apply, Enabled;
    if i == j {
    } else {
      RunOnward(trace, steps, i, j - 1);
      StepAt(trace, steps, j - 1);
      StepOnward(trace[j - 1], steps[j - 1]);
      OnwardOn(trace[i], trace[j - 1], trace[j]);
    }
  }

  // ----- what is decided once

  /** The step that ends a quorum request, by storing or by giving up. */
  predicate EndsRound(step: Step, rid: nat) {
    step == CommitRound(rid) || step == RoundTimeout(rid)
  }

  /** The step that ends a member's write, by taking the answer or by giving up. */
  predicate EndsWrite(step: Step, w: nat) {
    step == TakeWriteReply(w) || step == WriteTimeout(w)
  }

  lemma RoundEnds(s: State, step: Step, rid: nat)
    requires Enabled(s, step) && EndsRound(step, rid)
    ensures rid in s.rounds && RoundRank(s.rounds[rid].status) < 2
    ensures rid in Apply(s, step).rounds && RoundRank(Apply(s, step).rounds[rid].status) == 2
  {
    if step.CommitRound? {
      var r := s.rounds[rid];
      var closed := SetNode(s, r.leader, AddCommit(s.nodes[r.leader], r.cmd)).(rounds := s.rounds[rid := r.(status := Committed)]);
      ConfirmOnward(closed, r.origin, true);
      hide Confirm, AddCommit;
      assert RoundRank(closed.rounds[rid].status) == 2;
    }
  }

  /** A quorum request ends at most once: its leader stores once on it, and never after giving up. */
  lemma RoundEndsOnce(trace: seq<State>, steps: seq<Step>, i: nat, j: nat, rid: nat)
    requires Execution(trace, steps) && i < |steps| && j < |steps|
    requires EndsRound(steps[i], rid) && EndsRound(steps[j], rid)
    ensures i == j
  {
    StepAt(trace, steps, i);
    StepAt(trace, steps, j);
    RoundEnds(trace[i], steps[i], rid);
    RoundEnds(trace[j], steps[j], rid);
    hide Apply, Enabled, Execution;
    if i < j { RunOnward(trace, steps, i + 1, j); }
    if j < i { RunOnward(trace, steps, j + 1, i); }
  }

  lemma WriteEnds(s: State, step: Step, w: nat)
    requires Enabled(s, step) && EndsWrite(step, w)
    ensures w in s.writes && WriteRank(s.writes[w].status) < 3
    ensures w in Apply(s, step).writes && WriteRank(Apply(s, step).writes[w].status) == 3
  {
    hide LogLength;
  }

  /** A member stores at most once on a write, and never after giving up. */
  lemma WriteEndsOnce(trace: seq<State>, steps: seq<Step>, i: nat, j: nat, w: nat)
    requires Execution(trace, steps) && i < |steps| && j < |steps|
    requires EndsWrite(steps[i], w) && EndsWrite(steps[j], w)
    ensures i == j
  {
    StepAt(trace, steps, i);
    StepAt(trace, steps, j);
    WriteEnds(trace[i], steps[i], w);
    WriteEnds(trace[j], steps[j], w);
    hide Apply, Enabled, Execution;
    if i < j { RunOnward(trace, steps, i + 1, j); }
    if j < i { RunOnward(trace, steps, j + 1, i); }
  }
}
