/** What every run keeps about quorum requests, confirmations and catch-up handlers. */
module Commits {
  import opened Basics
  import opened NodeSteps
  import opened Protocol
  import opened Elections
  import Q = Quorum

  ghost function Confirmers(r: Round): (c: set<Addr>) {
    set p | p in r.calls && r.calls[p] == Counted(true)
  }

  /** p has sent a confirmation for this round. */
  ghost predicate SaidYes(s: State, rid: nat, p: Addr) {
    rid in s.rounds && p in s.rounds[rid].calls && s.rounds[rid].calls[p] in {Answered(true), Counted(true)}
  }

  /** A confirmation by v on this connection would be true: v's log already reaches what was asked. */
  ghost predicate MayConfirm(s: State, conn: Conn, v: Addr) {
    conn.RoundConn? ==>
      && conn.peer == v && v in s.nodes && conn.round in s.rounds
      && s.rounds[conn.round].logIndex <= LogLength(s.nodes[v])
  }

  ghost predicate RoundOk(s: State, rid: nat)
    requires rid in s.rounds && s.nodes != map[]
  {
    var r := s.rounds[rid];
    && r.leader in s.nodes
    && r.calls.Keys == Peers(s, r.leader)
    && r.logIndex <= LogLength(s.nodes[r.leader])
    && r.tally == |Confirmers(r)|
    && (r.status in {Accepted, Committed} ==> r.tally >= QuorumOf(s))
    && MayConfirm(s, r.origin, r.leader)
  }

  ghost predicate YesOk(s: State, rid: nat, p: Addr)
    requires rid in s.rounds
  {
    p in s.nodes && s.rounds[rid].logIndex <= LogLength(s.nodes[p])
  }

  ghost predicate SessionOk(s: State, k: nat)
    requires k in s.sessions
  {
    var ses := s.sessions[k];
    && ses.member in s.nodes
    && ses.logIndex <= LogLength(s.nodes[ses.member]) + ses.missing
    && (ses.conn.RoundConn? ==>
      && ses.conn.peer == ses.member && ses.conn.round in s.rounds
      && s.rounds[ses.conn.round].logIndex == ses.logIndex)
  }

  ghost predicate RoundsOk(s: State) {
    s.nodes != map[] && forall rid :: rid in s.rounds ==> RoundOk(s, rid)
  }

  ghost predicate YesesOk(s: State) {
    forall rid, p :: SaidYes(s, rid, p) ==> YesOk(s, rid, p)
  }

  ghost predicate SessionsOk(s: State) {
    forall k :: k in s.sessions ==> SessionOk(s, k)
  }

  ghost predicate CommitInv(s: State) {
    RoundsOk(s) && YesesOk(s) && SessionsOk(s)
  }

  // ----- the changes steps are made of, each keeping the invariant

  lemma OtherPartsKeep(s: State, t: State)
    requires CommitInv(s) && t.nodes == s.nodes && t.rounds == s.rounds && t.sessions == s.sessions
    ensures CommitInv(t)
  {
    forall rid | rid in t.rounds ensures RoundOk(t, rid) { assert RoundOk(s, rid); }
    forall rid, p | SaidYes(t, rid, p) ensures YesOk(t, rid, p) { assert SaidYes(s, rid, p) && YesOk(s, rid, p); }
    forall k | k in t.sessions ensures SessionOk(t, k) { assert SessionOk(s, k); }
  }

  lemma GrowthKeeps(s: State, t: State)
    requires CommitInv(s) && Grown(s, t) && t.rounds == s.rounds && t.sessions == s.sessions
    ensures CommitInv(t)
  {
    SameQuorum(s, t);
    hide LogLength;
    forall rid | rid in t.rounds ensures RoundOk(t, rid) { assert RoundOk(s, rid); }
    forall rid, p | SaidYes(t, rid, p) ensures YesOk(t, rid, p) { assert SaidYes(s, rid, p) && YesOk(s, rid, p); }
    forall k | k in t.sessions ensures SessionOk(t, k) { assert SessionOk(s, k); }
  }

  /** One round added, or changed without changing the index it asks about. */
  lemma RoundChangeKeeps(s: State, t: State, rid: nat)
    requires CommitInv(s) && t.nodes == s.nodes && t.sessions == s.sessions && rid in t.rounds
    requires t.rounds == s.rounds[rid := t.rounds[rid]]
    requires rid in s.rounds ==> t.rounds[rid].logIndex == s.rounds[rid].logIndex
    requires RoundOk(t, rid)
    requires forall p :: SaidYes(t, rid, p) ==> YesOk(t, rid, p)
    ensures CommitInv(t)
  {
    hide LogLength;
    forall id | id in t.rounds ensures RoundOk(t, id) {
      if id != rid { assert RoundOk(s, id); }
    }
    forall id, p | SaidYes(t, id, p) ensures YesOk(t, id, p) {
      if id != rid { assert SaidYes(s, id, p) && YesOk(s, id, p); }
    }
    forall k | k in t.sessions ensures SessionOk(t, k) { assert SessionOk(s, k); }
  }

  lemma StatusChangeKeeps(s: State, rid: nat, status: RoundStatus)
    requires CommitInv(s) && rid in s.rounds
    requires status == Committed ==> s.rounds[rid].status == Accepted
    requires status != Accepted
    ensures CommitInv(s.(rounds := s.rounds[rid := s.rounds[rid].(status := status)]))
  {
    var t := s.(rounds := s.rounds[rid := s.rounds[rid].(status := status)]);
    assert RoundOk(s, rid);
    assert Confirmers(t.rounds[rid]) == Confirmers(s.rounds[rid]);
    hide LogLength;
    forall p | SaidYes(t, rid, p) ensures YesOk(t, rid, p) { assert SaidYes(s, rid, p) && YesOk(s, rid, p); }
    RoundChangeKeeps(s, t, rid);
  }

  lemma CallChangeKeeps(s: State, rid: nat, p: Addr, call: AppendCall)
    requires CommitInv(s) && rid in s.rounds && p in s.rounds[rid].calls
    requires !s.rounds[rid].calls[p].Counted? && !call.Counted?
    requires call == Answered(true) ==> YesOk(s, rid, p)
    ensures CommitInv(SetCall(s, rid, p, call))
  {
    var t := SetCall(s, rid, p, call);
    assert RoundOk(s, rid);
    assert t.rounds[rid].calls.Keys == s.rounds[rid].calls.Keys;
    assert Confirmers(t.rounds[rid]) == Confirmers(s.rounds[rid]);
    hide LogLength;
    forall q | SaidYes(t, rid, q) ensures YesOk(t, rid, q) {
      if q != p { assert SaidYes(s, rid, q) && YesOk(s, rid, q); }
    }
    RoundChangeKeeps(s, t, rid);
  }

  lemma ConfirmKeeps(s: State, conn: Conn, confirmed: bool, v: Addr)
    requires CommitInv(s) && (confirmed ==> MayConfirm(s, conn, v))
    ensures CommitInv(Confirm(s, conn, confirmed))
  {
    hide CommitInv, LogLength;
    match conn
    case NoConn =>
    case RoundConn(rid, p) =>
      if rid in s.rounds && p in s.rounds[rid].calls && s.rounds[rid].calls[p] == Working {
        CallChangeKeeps(s, rid, p, Answered(confirmed));
      }
    case WriteConn(w) =>
      OtherPartsKeep(s, Confirm(s, conn, confirmed));
  }

  lemma NewRoundKeeps(s: State, v: Addr, x: KubeCmd, origin: Conn, newId: nat)
    requires CommitInv(s) && v in s.nodes && newId !in s.rounds && MayConfirm(s, origin, v)
    ensures CommitInv(s.(rounds := s.rounds[newId := NewRound(s, v, x, origin)]))
  {
    var t := s.(rounds := s.rounds[newId := NewRound(s, v, x, origin)]);
    assert Confirmers(t.rounds[newId]) == {};
    hide LogLength;
    RoundChangeKeeps(s, t, newId);
  }

  lemma SessionChangeKeeps(s: State, t: State, k: nat)
    requires CommitInv(s) && t.nodes == s.nodes && t.rounds == s.rounds
    requires t.sessions.Keys <= s.sessions.Keys + {k} && (k in t.sessions ==> SessionOk(t, k))
    requires forall o :: o in t.sessions && o != k ==> o in s.sessions && t.sessions[o] == s.sessions[o]
    ensures CommitInv(t)
  {
    hide LogLength;
    forall rid | rid in t.rounds ensures RoundOk(t, rid) { assert RoundOk(s, rid); }
    forall rid, p | SaidYes(t, rid, p) ensures YesOk(t, rid, p) { assert SaidYes(s, rid, p) && YesOk(s, rid, p); }
    forall o | o in t.sessions ensures SessionOk(t, o) { if o != k { assert SessionOk(s, o); } }
  }

  lemma CountKeeps(s: State, rid: nat, p: Addr)
    requires CommitInv(s) && Enabled(s, CountConfirm(rid, p))
    ensures CommitInv(ConfirmCounted(s, rid, p))
  {
    var t := ConfirmCounted(s, rid, p);
    var r, u := s.rounds[rid], t.rounds[rid];
    hide LogLength;
    assert RoundOk(s, rid);
    CountedCall(r, u, p);
    forall q | SaidYes(t, rid, q) ensures YesOk(t, rid, q) { assert SaidYes(s, rid, q) && YesOk(s, rid, q); }
    RoundChangeKeeps(s, t, rid);
  }

  lemma CountedCall(r: Round, u: Round, p: Addr)
    requires p in r.calls && r.calls[p].Answered? && u.calls == r.calls[p := Counted(r.calls[p].confirmed)]
    ensures u.calls.Keys == r.calls.Keys
    ensures |Confirmers(u)| == |Confirmers(r)| + (if r.calls[p].confirmed then 1 else 0)
  {
    if r.calls[p].confirmed {
      assert Confirmers(u) == Confirmers(r) + {p};
    } else {
      assert Confirmers(u) == Confirmers(r);
    }
  }

  // ----- the steps

  /** A request received on `conn` for which v has not yet acted. */
  ghost predicate AskedOn(s: State, conn: Conn, v: Addr, logIndex: nat) {
    conn.RoundConn? ==> conn.peer == v && conn.round in s.rounds && s.rounds[conn.round].logIndex == logIndex
  }

  lemma AppendingKeeps(s: State, p: Addr, req: AppendEntry, conn: Conn, newId: nat, lookup: Option<Addr>)
    requires CommitInv(s) && p in s.nodes && AskedOn(s, conn, p, req.logIndex)
    requires newId !in s.rounds && newId !in s.sessions
    ensures CommitInv(Appending(s, p, req, conn, newId, lookup))
  {
    var (after, action) := OnAppendEntry(s.nodes.Keys, s.nodes[p], req);
    var moved := SetNode(s, p, after);
    MovedKeeps(s, p, req);
    AskedMayConfirm(s, p, req, conn);
    if action.CatchUp? { CatchUpFits(s, p, req, conn, newId, lookup); }
    hide LogLength, OnAppendEntry, CommitInv, MayConfirm, SessionOk, Acting;
    ActingKeeps(moved, p, req, action, conn, newId, lookup);
  }

  lemma ActingKeeps(s: State, p: Addr, req: AppendEntry, action: AppendAction, conn: Conn, newId: nat, lookup: Option<Addr>)
    requires CommitInv(s) && p in s.nodes && newId !in s.rounds && newId !in s.sessions
    requires action == NodeSteps.Answer(true) || action.AskQuorum? ==> MayConfirm(s, conn, p)
    requires action.CatchUp? ==>
      var t := Acting(s, p, req, action, conn, newId, lookup); newId in t.sessions && SessionOk(t, newId)
    ensures CommitInv(Acting(s, p, req, action, conn, newId, lookup))
  {
    hide LogLength, CommitInv, MayConfirm, SessionOk;
    match action
    case Silent =>
    case Answer(confirmed) => ConfirmKeeps(s, conn, confirmed, p);
    case AskQuorum => NewRoundKeeps(s, p, req.newObject, conn, newId);
    case CatchUp(missing) => SessionChangeKeeps(s, Acting(s, p, req, action, conn, newId, lookup), newId);
  }

  lemma MovedKeeps(s: State, p: Addr, req: AppendEntry)
    requires CommitInv(s) && p in s.nodes
    ensures var after := OnAppendEntry(s.nodes.Keys, s.nodes[p], req).0;
            after.log == s.nodes[p].log && CommitInv(SetNode(s, p, after))
  {
    var after := OnAppendEntry(s.nodes.Keys, s.nodes[p], req).0;
    ConfirmMeaning(s.nodes.Keys, s.nodes[p], req);
    NodeMoves(s, SetNode(s, p, after), p, after);
    ProgressGrows(s, SetNode(s, p, after));
    hide LogLength, OnAppendEntry, CommitInv, Grown, NodesProgress;
    GrowthKeeps(s, SetNode(s, p, after));
  }

  /** A node that confirms at once, or asks its own quorum, is as long as it was asked to be. */
  lemma AskedMayConfirm(s: State, p: Addr, req: AppendEntry, conn: Conn)
    requires p in s.nodes && AskedOn(s, conn, p, req.logIndex)
    ensures var (after, action) := OnAppendEntry(s.nodes.Keys, s.nodes[p], req);
            action == NodeSteps.Answer(true) || action.AskQuorum? ==> MayConfirm(SetNode(s, p, after), conn, p)
  {
    ConfirmMeaning(s.nodes.Keys, s.nodes[p], req);
    hide OnAppendEntry;
  }

  lemma CatchUpFits(s: State, p: Addr, req: AppendEntry, conn: Conn, newId: nat, lookup: Option<Addr>)
    requires p in s.nodes && AskedOn(s, conn, p, req.logIndex)
    requires OnAppendEntry(s.nodes.Keys, s.nodes[p], req).1.CatchUp?
    ensures var t := Appending(s, p, req, conn, newId, lookup); newId in t.sessions && SessionOk(t, newId)
  {
    ConfirmMeaning(s.nodes.Keys, s.nodes[p], req);
    hide OnAppendEntry;
  }

  lemma AppendStepKeeps(s: State, step: Step)
    requires CommitInv(s) && Enabled(s, step) && AppendStep(step)
    ensures CommitInv(Apply(s, step))
  {
    match step
    case HandleHeartbeat(beat, p, newId, lookup) =>
      AppendingKeeps(s, p, AppendEntry(beat.term, beat.leader, beat.logIndex, EMPTY_CMD), NoConn, newId, lookup);
    case HandleRoundAppend(rid, p, newId, lookup) =>
      RoundAppendKeeps(s, rid, p, newId, lookup);
    case HandleWrite(w, newId, lookup) =>
      WriteKeeps(s, w, newId, lookup);
  }

  lemma RoundAppendKeeps(s: State, rid: nat, p: Addr, newId: nat, lookup: Option<Addr>)
    requires CommitInv(s) && Enabled(s, HandleRoundAppend(rid, p, newId, lookup))
    ensures CommitInv(Apply(s, HandleRoundAppend(rid, p, newId, lookup)))
  {
    var r := s.rounds[rid];
    CallChangeKeeps(s, rid, p, Working);
    hide CommitInv;
    AppendingKeeps(SetCall(s, rid, p, Working), p, AppendEntry(r.term, r.leader, r.logIndex, r.cmd),
                   RoundConn(rid, p), newId, lookup);
  }

  lemma WriteKeeps(s: State, w: nat, newId: nat, lookup: Option<Addr>)
    requires CommitInv(s) && Enabled(s, HandleWrite(w, newId, lookup))
    ensures CommitInv(Apply(s, HandleWrite(w, newId, lookup)))
  {
    var wr := s.writes[w];
    var working := s.(writes := s.writes[w := wr.(status := WriteWorking)]);
    OtherPartsKeep(s, working);
    hide CommitInv;
    AppendingKeeps(working, wr.target, AppendEntry(wr.term, wr.target, wr.logIndex, wr.cmd), WriteConn(w), newId, lookup);
  }

  lemma ElectionStepParts(s: State, step: Step)
    requires Enabled(s, step) && ElectionStep(step)
    ensures Apply(s, step).rounds == s.rounds && Apply(s, step).sessions == s.sessions
  {
  }

  lemma StoreKeeps(s: State, v: Addr, x: KubeCmd)
    requires CommitInv(s) && v in s.nodes
    ensures CommitInv(SetNode(s, v, AddCommit(s.nodes[v], x)))
    ensures LogLength(AddCommit(s.nodes[v], x)) == LogLength(s.nodes[v]) + (if x != EMPTY_CMD then 1 else 0)
  {
    var t := SetNode(s, v, AddCommit(s.nodes[v], x));
    NodeMoves(s, t, v, AddCommit(s.nodes[v], x));
    ProgressGrows(s, t);
    GrowthKeeps(s, t);
    CountedLengthAppend(s.nodes[v].log, x);
  }

  lemma CommitRoundKeeps(s: State, rid: nat)
    requires CommitInv(s) && Enabled(s, CommitRound(rid))
    ensures CommitInv(Apply(s, CommitRound(rid)))
  {
    var r := s.rounds[rid];
    hide LogLength, AddCommit;
    var stored := SetNode(s, r.leader, AddCommit(s.nodes[r.leader], r.cmd));
    StoreKeeps(s, r.leader, r.cmd);
    StatusChangeKeeps(stored, rid, Committed);
    var closed := stored.(rounds := s.rounds[rid := r.(status := Committed)]);
    assert RoundOk(closed, rid);
    hide CommitInv, RoundOk;
    ConfirmKeeps(closed, r.origin, true, r.leader);
  }

  lemma WriteReplyKeeps(s: State, w: nat)
    requires CommitInv(s) && Enabled(s, TakeWriteReply(w))
    ensures CommitInv(Apply(s, TakeWriteReply(w)))
  {
    hide CommitInv, LogLength;
    var wr := s.writes[w];
    var closed := s.(writes := s.writes[w := wr.(status := WriteClosed)]);
    OtherPartsKeep(s, closed);
    if wr.status.confirmed { StoreKeeps(closed, wr.member, wr.cmd); }
  }

  lemma FetchTakenKeeps(s: State, k: nat)
    requires CommitInv(s) && Enabled(s, TakeFetchReply(k))
    ensures CommitInv(FetchTaken(s, k))
  {
    hide LogLength, AddCommit;
    var ses := s.sessions[k];
    var t := FetchTaken(s, k);
    assert SessionOk(s, k);
    hide RoundsOk, YesesOk, SessionsOk, Enabled;
    if Accepts(ses.fetch.index, ses.fetch.entry) {
      var x := ses.fetch.entry.newObject;
      var stored := SetNode(s, ses.member, AddCommit(s.nodes[ses.member], x));
      StoreKeeps(s, ses.member, x);
      SessionChangeKeeps(stored, t, k);
    } else {
      SessionChangeKeeps(s, t, k);
    }
  }

  lemma FinishKeeps(s: State, k: nat)
    requires CommitInv(s) && Enabled(s, FinishSession(k))
    ensures CommitInv(Apply(s, FinishSession(k)))
  {
    hide LogLength;
    SessionMayConfirm(s, k);
    var ses := s.sessions[k];
    var removed := s.(sessions := s.sessions - {k});
    hide CommitInv, MayConfirm;
    SessionChangeKeeps(s, removed, k);
    ConfirmKeeps(removed, ses.conn, true, ses.member);
  }

  lemma SessionMayConfirm(s: State, k: nat)
    requires CommitInv(s) && k in s.sessions && s.sessions[k].missing == 0
    ensures MayConfirm(s.(sessions := s.sessions - {k}), s.sessions[k].conn, s.sessions[k].member)
  {
    assert SessionOk(s, k);
  }

  lemma SubmitKeeps(s: State, v: Addr, x: KubeCmd, newId: nat, lookup: Option<Addr>)
    requires CommitInv(s) && v in s.nodes && newId !in s.rounds
    ensures CommitInv(Submitting(s, v, x, newId, lookup))
  {
    if s.nodes[v].role == LEADER {
      NewRoundKeeps(s, v, x, NoConn, newId);
    } else {
      OtherPartsKeep(s, Submitting(s, v, x, newId, lookup));
    }
  }

  lemma FetchPhaseKeeps(s: State, k: nat, fetch: FetchStatus)
    requires CommitInv(s) && k in s.sessions
    ensures CommitInv(SetFetch(s, k, fetch))
  {
    assert SessionOk(s, k);
    SessionChangeKeeps(s, SetFetch(s, k, fetch), k);
  }

  predicate RoundStep(step: Step) {
    || step.CountConfirm? || step.RoundTimeout? || step.CommitRound? || step.SubmitCommit?
    || step.TakeWriteReply? || step.WriteTimeout?
  }

  predicate SessionStep(step: Step) {
    step.SendFetch? || step.HandleFetch? || step.TakeFetchReply? || step.AbortSession? || step.FinishSession?
  }

  lemma RoundStepKeeps(s: State, step: Step)
    requires CommitInv(s) && Enabled(s, step) && RoundStep(step)
    ensures CommitInv(Apply(s, step))
  {
    hide CommitInv;
    match step
    case CountConfirm(rid, p) => CountKeeps(s, rid, p);
    case RoundTimeout(rid) => StatusChangeKeeps(s, rid, Abandoned);
    case CommitRound(rid) => CommitRoundKeeps(s, rid);
    case SubmitCommit(v, x, newId, lookup) => SubmitKeeps(s, v, x, newId, lookup);
    case TakeWriteReply(w) => WriteReplyKeeps(s, w);
    case WriteTimeout(w) => OtherPartsKeep(s, Apply(s, step));
  }

  lemma SessionStepKeeps(s: State, step: Step)
    requires CommitInv(s) && Enabled(s, step) && SessionStep(step)
    ensures CommitInv(Apply(s, step))
  {
    hide CommitInv, OnFetch, LogLength;
    match step
    case SendFetch(k) => FetchPhaseKeeps(s, k, Asked(LogLength(s.nodes[s.sessions[k].member]) + 1));
    case HandleFetch(k) => FetchPhaseKeeps(s, k, Apply(s, step).sessions[k].fetch);
    case TakeFetchReply(k) => FetchTakenKeeps(s, k);
    case AbortSession(k) => SessionChangeKeeps(s, Apply(s, step), k);
    case FinishSession(k) => FinishKeeps(s, k);
  }

  lemma RemainingStepKeeps(s: State, step: Step)
    requires CommitInv(s) && Enabled(s, step)
    requires step.ExpireLeader? || step.SendHeartbeat? || step.ClusterReceive?
    ensures CommitInv(Apply(s, step))
  {
    RemainingStepParts(s, step);
    OtherStepProgress(s, step);
    hide CommitInv, Apply, Enabled, NodesProgress;
    ProgressGrows(s, Apply(s, step));
    GrowthKeeps(s, Apply(s, step));
  }

  lemma RemainingStepParts(s: State, step: Step)
    requires Enabled(s, step) && (step.ExpireLeader? || step.SendHeartbeat? || step.ClusterReceive?)
    ensures Apply(s, step).rounds == s.rounds && Apply(s, step).sessions == s.sessions
  {
  }

  lemma StepKeepsCommit(s: State, step: Step)
    requires CommitInv(s) && Enabled(s, step)
    ensures CommitInv(Apply(s, step))
  {
    hide Apply, Enabled, CommitInv;
    if ElectionStep(step) {
      ElectionStepParts(s, step);
      StepProgress(s, step);
      ProgressGrows(s, Apply(s, step));
      GrowthKeeps(s, Apply(s, step));
    } else if AppendStep(step) {
      AppendStepKeeps(s, step);
    } else if RoundStep(step) {
      RoundStepKeeps(s, step);
    } else if SessionStep(step) {
      SessionStepKeeps(s, step);
    } else {
      RemainingStepKeeps(s, step);
    }
  }

  lemma InitCommit(members: set<Addr>)
    requires members != {}
    ensures CommitInv(Init(members))
  {
    var v :| v in members;
    assert v in Init(members).nodes;
  }

  lemma {:induction false} CommitAlways(members: set<Addr>, trace: seq<State>, steps: seq<Step>, i: nat)
    requires Run(members, trace, steps) && i < |trace|
    ensures CommitInv(trace[i])
  {
    hide Apply, Enabled;
    if i == 0 {
      InitCommit(members);
    } else {
      CommitAlways(members, trace, steps, i - 1);
      StepKeepsCommit(trace[i - 1], steps[i - 1]);
    }
  }
}
