/**
 * What handling a request leads to, read off the protocol's states before and after: who votes, who takes
 * up a write, who denies or confirms, who fetches first and how much, and what a fetch is answered.
 */
module Answers {
  import opened Basics
  import opened NodeSteps
  import opened Protocol
  import opened Elections
  import opened Fields

  // ----- votes

  /** A vote is given exactly when it is due; it records how, and only then does the candidate hear of it. */
  lemma VoteIsGiven(s: State, id: CampaignId, p: Addr)
    requires Enabled(s, HandleVoteRequest(id, p))
    ensures var n, e, t := s.nodes[p], EventAt(s, HandleVoteRequest(id, p), p), Apply(s, HandleVoteRequest(id, p));
            && (HasGranted(t, id, p) <==> VoteDue(n, e))
            && (HasGranted(t, id, p) ==> GrantOf(t, id, p) == Grant(id.term > n.term, LogLength(n)))
            && id in t.campaigns && p in t.campaigns[id].calls && t.campaigns[id].calls[p].VoteHandled?
            && t.campaigns[id].calls[p].reply == (if VoteDue(n, e) then InFlight else Withheld)
  {
    hide LogLength;
  }

  // ----- what a node does with a request to append x after k entries, made in a term

  /** The leader asks its own quorum. */
  predicate TakesUp(n: Node, term: int, k: nat, x: KubeCmd) {
    n.role == LEADER && term <= n.term && LogLength(n) == k && x != EMPTY_CMD
  }

  predicate Denies(n: Node, term: int, k: nat, x: KubeCmd) {
    n.role == LEADER && term <= n.term && LogLength(n) != k && x != EMPTY_CMD
  }

  predicate ConfirmsAtOnce(n: Node, term: int, k: nat, x: KubeCmd) {
    n.role != LEADER && term <= n.term && LogLength(n) == k && x != EMPTY_CMD
  }

  /** Everyone else at another length, unless a candidate that stands aside for a longer log of its term. */
  predicate FetchesFirst(n: Node, term: int, k: nat, x: KubeCmd) {
    && (n.role != LEADER || x == EMPTY_CMD) && term <= n.term && LogLength(n) != k
    && !(n.role == CANDIDATE && term == n.term && k > LogLength(n))
  }

  function Missing(n: Node, k: nat): nat {
    if k > LogLength(n) then k - LogLength(n) else 0
  }

  lemma AppendAnswers(known: set<Addr>, n: Node, req: AppendEntry)
    ensures var action := OnAppendEntry(known, n, req).1;
            && (action == AskQuorum <==> TakesUp(n, req.term, req.logIndex, req.newObject))
            && (action == AppendAction.Answer(false) <==> Denies(n, req.term, req.logIndex, req.newObject))
            && (action == AppendAction.Answer(true) <==> ConfirmsAtOnce(n, req.term, req.logIndex, req.newObject))
            && (action.CatchUp? <==> FetchesFirst(n, req.term, req.logIndex, req.newObject))
            && (action.CatchUp? ==> action.missing == Missing(n, req.logIndex))
            && (action.AskQuorum? || action.CatchUp? ==> OnAppendEntry(known, n, req).0 == n)
  {
    hide LogLength;
  }

  /** The quorum request a leader makes: its own term and length, and one call per peer. */
  ghost function OwnRound(s: State, leader: Addr, x: KubeCmd, origin: Conn): Round
    requires leader in s.nodes
  {
    var n := s.nodes[leader];
    Round(leader, n.term, LogLength(n), x, map p | p in Peers(s, leader) :: AppendSent, 0, Asking, origin)
  }

  /** The handler that fetches first, for whoever asked on the connection. */
  ghost function CatchingUp(s: State, p: Addr, conn: Conn, k: nat, lookup: Option<Addr>): Session
    requires p in s.nodes
  {
    Session(p, conn, k, Missing(s.nodes[p], k), lookup, s.nodes[p].term, Idle)
  }

  /** What handling the request leads to; `t` is the state after it. */
  ghost predicate AppendLeadsTo(s: State, t: State, p: Addr, req: AppendEntry, conn: Conn, newId: nat, lookup: Option<Addr>)
    requires p in s.nodes
  {
    var n := s.nodes[p];
    if TakesUp(n, req.term, req.logIndex, req.newObject) then
      t == s.(rounds := s.rounds[newId := OwnRound(s, p, req.newObject, conn)])
    else if FetchesFirst(n, req.term, req.logIndex, req.newObject) then
      t == s.(sessions := s.sessions[newId := CatchingUp(s, p, conn, req.logIndex, lookup)])
    else if Denies(n, req.term, req.logIndex, req.newObject) then t == Confirm(s, conn, false)
    else if ConfirmsAtOnce(n, req.term, req.logIndex, req.newObject) then t == Confirm(s, conn, true)
    else p in t.nodes && t == SetNode(s, p, t.nodes[p])
  }

  lemma AppendingLeadsTo(s: State, p: Addr, req: AppendEntry, conn: Conn, newId: nat, lookup: Option<Addr>)
    requires p in s.nodes
    ensures AppendLeadsTo(s, Appending(s, p, req, conn, newId, lookup), p, req, conn, newId, lookup)
  {
    AppendAnswers(s.nodes.Keys, s.nodes[p], req);
    var (after, action) := OnAppendEntry(s.nodes.Keys, s.nodes[p], req);
    SameNode(s, p, req);
    NewRoundIsOwn(s, p, req.newObject, conn);
    hide OnAppendEntry, LogLength, TakesUp, FetchesFirst, Denies, ConfirmsAtOnce, Confirm, Missing, NewRound, OwnRound;
    match action
    case Silent =>
    case _ => hide SetNode;
  }

  lemma SameNode(s: State, p: Addr, req: AppendEntry)
    requires p in s.nodes
    ensures !OnAppendEntry(s.nodes.Keys, s.nodes[p], req).1.Silent? ==>
              SetNode(s, p, OnAppendEntry(s.nodes.Keys, s.nodes[p], req).0) == s
  {
    hide LogLength;
    assert s.nodes[p := s.nodes[p]] == s.nodes;
  }

  lemma NewRoundIsOwn(s: State, p: Addr, x: KubeCmd, conn: Conn)
    requires p in s.nodes
    ensures NewRound(s, p, x, conn) == OwnRound(s, p, x, conn)
  {
    hide LogLength;
    assert (map q | q in s.nodes && q != p :: AppendSent) == map q | q in Peers(s, p) :: AppendSent;
  }

  /** The writes of s, with w's status changed. */
  ghost function WithStatus(s: State, w: nat, status: WriteStatus): map<nat, Write>
    requires w in s.writes
  {
    s.writes[w := s.writes[w].(status := status)]
  }

  /**
   * A member's write. The target opens a quorum request of its own for it, owed to the write, exactly if it
   * leads, is not behind the member's term, and has the member's length; a leader of another length denies
   * it; anyone else confirms at equal length and fetches first at another.
   */
  lemma WriteIsHandled(s: State, w: nat, newId: nat, lookup: Option<Addr>)
    requires Enabled(s, HandleWrite(w, newId, lookup))
    ensures w in Apply(s, HandleWrite(w, newId, lookup)).writes
    ensures var wr, t := s.writes[w], Apply(s, HandleWrite(w, newId, lookup)); var n := s.nodes[wr.target];
            && (newId in t.rounds <==> TakesUp(n, wr.term, wr.logIndex, wr.cmd))
            && (newId in t.rounds ==>
                  t == s.(writes := WithStatus(s, w, WriteWorking),
                          rounds := s.rounds[newId := OwnRound(s, wr.target, wr.cmd, WriteConn(w))]))
            && (t.writes[w].status == WriteAnswered(false) <==> Denies(n, wr.term, wr.logIndex, wr.cmd))
            && (t.writes[w].status == WriteAnswered(true) <==> ConfirmsAtOnce(n, wr.term, wr.logIndex, wr.cmd))
            && (t.writes[w].status.WriteAnswered? ==> t == s.(writes := WithStatus(s, w, t.writes[w].status)))
            && (newId in t.sessions <==> FetchesFirst(n, wr.term, wr.logIndex, wr.cmd))
            && (newId in t.sessions ==>
                  t == s.(writes := WithStatus(s, w, WriteWorking),
                          sessions := s.sessions[newId := CatchingUp(s, wr.target, WriteConn(w), wr.logIndex, lookup)]))
  {
    var wr := s.writes[w];
    var working := s.(writes := WithStatus(s, w, WriteWorking));
    AppendingLeadsTo(working, wr.target, AppendEntry(wr.term, wr.target, wr.logIndex, wr.cmd), WriteConn(w), newId, lookup);
    hide Appending, LogLength, Missing;
    assert WithStatus(s, w, WriteWorking)[w := wr.(status := WriteAnswered(true))] == WithStatus(s, w, WriteAnswered(true));
    assert WithStatus(s, w, WriteWorking)[w := wr.(status := WriteAnswered(false))] == WithStatus(s, w, WriteAnswered(false));
  }

  /** A leader's quorum request: the same answers on the call of the node that handles it. */
  lemma RoundIsHandled(s: State, rid: nat, p: Addr, newId: nat, lookup: Option<Addr>)
    requires Enabled(s, HandleRoundAppend(rid, p, newId, lookup))
    ensures AppendCallIs(Apply(s, HandleRoundAppend(rid, p, newId, lookup)), rid, p)
    ensures var r, n, t := s.rounds[rid], s.nodes[p], Apply(s, HandleRoundAppend(rid, p, newId, lookup));
            && (newId in t.rounds <==> TakesUp(n, r.term, r.logIndex, r.cmd))
            && (t.rounds[rid].calls[p] == Answered(false) <==> Denies(n, r.term, r.logIndex, r.cmd))
            && (t.rounds[rid].calls[p] == Answered(true) <==> ConfirmsAtOnce(n, r.term, r.logIndex, r.cmd))
            && (t.rounds[rid].calls[p].Answered? ==> t == SetCall(s, rid, p, t.rounds[rid].calls[p]))
            && (newId in t.sessions <==> FetchesFirst(n, r.term, r.logIndex, r.cmd))
            && (newId in t.sessions ==>
                  t == SetCall(s, rid, p, Working).(sessions := s.sessions[newId := CatchingUp(s, p, RoundConn(rid, p), r.logIndex, lookup)]))
  {
    var r := s.rounds[rid];
    AppendingLeadsTo(SetCall(s, rid, p, Working), p, AppendEntry(r.term, r.leader, r.logIndex, r.cmd), RoundConn(rid, p), newId, lookup);
    hide Appending, LogLength, Missing;
    WorkingThenAnswered(s, rid, p, true);
    WorkingThenAnswered(s, rid, p, false);
  }

  lemma WorkingThenAnswered(s: State, rid: nat, p: Addr, confirmed: bool)
    requires rid in s.rounds && p in s.rounds[rid].calls
    ensures SetCall(SetCall(s, rid, p, Working), rid, p, Answered(confirmed)) == SetCall(s, rid, p, Answered(confirmed))
  {
    assert s.rounds[rid].calls[p := Working][p := Answered(confirmed)] == s.rounds[rid].calls[p := Answered(confirmed)];
  }

  /** A heartbeat is never answered; a node of another length starts to fetch, unless it has to step aside. */
  lemma HeartbeatIsHandled(s: State, beat: Heartbeat, p: Addr, newId: nat, lookup: Option<Addr>)
    requires Enabled(s, HandleHeartbeat(beat, p, newId, lookup))
    ensures var n, t := s.nodes[p], Apply(s, HandleHeartbeat(beat, p, newId, lookup));
            && t.rounds == s.rounds && t.writes == s.writes
            && (newId in t.sessions <==> FetchesFirst(n, beat.term, beat.logIndex, EMPTY_CMD))
            && (newId in t.sessions ==>
                  t == s.(sessions := s.sessions[newId := CatchingUp(s, p, NoConn, beat.logIndex, lookup)]))
  {
    AppendingLeadsTo(s, p, AppendEntry(beat.term, beat.leader, beat.logIndex, EMPTY_CMD), NoConn, newId, lookup);
    hide Appending, LogLength, Missing;
  }

  // ----- fetches

  /**
   * A fetch is answered exactly by a leader that is not behind the asker's term and has the index, with
   * the entry at that index (the empty command at index 0); nothing else changes.
   */
  lemma FetchIsAnswered(s: State, k: nat)
    requires k in s.sessions && s.sessions[k].fetch.Asked?
    ensures var ses := s.sessions[k];
            Enabled(s, HandleFetch(k)) <==>
              && ses.leader.Some? && ses.leader.value != ses.member && ses.leader.value in s.nodes
              && var n := s.nodes[ses.leader.value];
                 n.role == LEADER && ses.term <= n.term && ses.fetch.index <= LogLength(n)
    ensures Enabled(s, HandleFetch(k)) ==>
              var ses := s.sessions[k]; var i, log := ses.fetch.index, s.nodes[ses.leader.value].log;
              i <= |log|
              && Apply(s, HandleFetch(k)) == SetFetch(s, k, Arrived(i, FetchedEntry(i, if i == 0 then EMPTY_CMD else log[i - 1])))
  {
  }

  // ----- submissions

  /** A leader asks its own quorum; a member that knows a leader asks it, with its own term and length; nobody else acts. */
  lemma SubmissionLeadsTo(s: State, v: Addr, x: KubeCmd, newId: nat, lookup: Option<Addr>)
    requires Enabled(s, SubmitCommit(v, x, newId, lookup))
    ensures var n, t := s.nodes[v], Apply(s, SubmitCommit(v, x, newId, lookup));
            && (newId in t.rounds <==> n.role == LEADER)
            && (newId in t.rounds ==> t == s.(rounds := s.rounds[newId := OwnRound(s, v, x, NoConn)]))
            && (newId in t.writes <==> n.role == MEMBER && n.leaders != {})
            && (newId in t.writes ==>
                  lookup.Some? && lookup.value in n.leaders
                  && t == s.(writes := s.writes[newId := Write(v, lookup.value, n.term, LogLength(n), x, WriteSent)]))
            && (newId !in t.rounds && newId !in t.writes ==> t == s)
  {
    hide LogLength;
    NewRoundIsOwn(s, v, x, NoConn);
    hide NewRound, OwnRound;
  }
}
