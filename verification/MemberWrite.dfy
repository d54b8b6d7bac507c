/** A member's write from its submission to both logs, in a run of any two or more clusters. */
module MemberWrite {
  import opened Basics
  import opened NodeSteps
  import opened Protocol
  import opened Answers
  import opened SingleLeader
  import opened Runs
  import opened Limits

  /** a leads term 1 with an empty log, and every follower has voted for it. */
  ghost predicate Led(s: State, a: Addr, followers: set<Addr>) {
    && a in s.nodes && s.nodes[a].role == LEADER && s.nodes[a].term == 1 && s.nodes[a].log == []
    && followers <= Peers(s, a) && |followers| == QuorumOf(s) > 0
    && forall u :: u in followers ==> s.nodes[u] == Follows(FRESH_NODE, a, 1)
  }

  lemma ElectedIsLed(members: set<Addr>, a: Addr, b: Addr, followers: set<Addr>, s: State)
    requires |members| >= 2 && Cast(members, a, b, followers) && OnlyElected(Init(members), s, a, followers)
    ensures Led(s, a, followers) && s.writes == map[] && s.nodes.Keys == members
  {
    assert s.nodes.Keys == members;
    MembersQuorum(s, members);
    hide LogLength, QuorumOf;
  }

  /** The member's request as it travels. */
  function Request(c: Addr, a: Addr, x: KubeCmd, status: WriteStatus): Write {
    Write(c, a, 1, 0, x, status)
  }

  lemma MemberAsks(s: State, a: Addr, followers: set<Addr>, c: Addr, x: KubeCmd, w: nat)
    requires Led(s, a, followers) && c in followers && x != EMPTY_CMD && w !in s.rounds && w !in s.writes
    ensures var step := SubmitCommit(c, x, w, Some(a));
            && Enabled(s, step) && Disciplined(s, step, a)
            && Apply(s, step) == s.(writes := s.writes[w := Request(c, a, x, WriteSent)])
  {
    Lengths(s.nodes[c]);
    hide LogLength, QuorumOf;
  }

  lemma LeaderTakesUp(s: State, a: Addr, followers: set<Addr>, c: Addr, x: KubeCmd, w: nat, rid: nat, lookup: Option<Addr>)
    requires Led(s, a, followers) && c in followers && x != EMPTY_CMD
    requires w in s.writes && s.writes[w] == Request(c, a, x, WriteSent)
    requires rid !in s.rounds && rid !in s.sessions && LeaderLookup(s.nodes[a], a, lookup)
    ensures var step := HandleWrite(w, rid, lookup);
            && Enabled(s, step) && Disciplined(s, step, a)
            && Apply(s, step) == WithRound(s.(writes := s.writes[w := Request(c, a, x, WriteWorking)]), rid, OwnRound(s, a, x, WriteConn(w)))
  {
    Lengths(s.nodes[a]);
    WriteIsHandled(s, w, rid, lookup);
    hide LogLength, QuorumOf, Apply, OwnRound;
  }

  /** The round a asks its followers about, owed to the write. */
  lemma FollowersMayConfirm(s: State, a: Addr, followers: set<Addr>, x: KubeCmd, w: nat, rid: nat)
    requires Led(s, a, followers) && x != EMPTY_CMD
    ensures MayConfirmAll(WithRound(s, rid, OwnRound(s, a, x, WriteConn(w))), rid, followers)
  {
    Lengths(s.nodes[a]);
    forall u | u in followers ensures LogLength(s.nodes[u]) == 0 { Lengths(s.nodes[u]); }
    hide LogLength, QuorumOf;
  }

  /** The round has its quorum; nothing else has changed since s. */
  ghost predicate Accepting(s: State, t: State, a: Addr, x: KubeCmd, w: nat, rid: nat) {
    && a in s.nodes && rid in t.rounds
    && var r := t.rounds[rid];
       && t == WithRound(s, rid, r) && r.status == Accepted && r.origin == WriteConn(w)
       && r.leader == a && r.cmd == x && r.logIndex == LogLength(s.nodes[a])
  }

  lemma QuorumAccepts(s: State, a: Addr, followers: set<Addr>, x: KubeCmd, w: nat, rid: nat)
    requires Led(s, a, followers) && MayConfirmAll(WithRound(s, rid, OwnRound(s, a, x, WriteConn(w))), rid, followers)
    ensures var confirmed := AllConfirmed(WithRound(s, rid, OwnRound(s, a, x, WriteConn(w))), rid, followers);
            && MayAccept(confirmed, rid, followers)
            && Accepting(s, AllAccepted(confirmed, rid, followers), a, x, w, rid)
  {
    hide LogLength;
    var confirmed := AllConfirmed(WithRound(s, rid, OwnRound(s, a, x, WriteConn(w))), rid, followers);
    assert confirmed.nodes == s.nodes && QuorumOf(confirmed) == QuorumOf(s);
    assert MayAccept(confirmed, rid, followers);
    assert AllAccepted(confirmed, rid, followers).rounds == s.rounds[rid := AllAccepted(confirmed, rid, followers).rounds[rid]];
  }

  lemma LeaderStoresAndAnswers(s: State, t: State, a: Addr, c: Addr, x: KubeCmd, w: nat, rid: nat)
    requires Accepting(s, t, a, x, w, rid) && s.nodes[a].log == [] && a != c && c in s.nodes && s.nodes[c].log == []
    requires w in s.writes && s.writes[w] == Request(c, a, x, WriteWorking)
    ensures Enabled(t, CommitRound(rid)) && Disciplined(t, CommitRound(rid), a)
    ensures Told(Apply(t, CommitRound(rid)), a, c, x, w)
  {
    Lengths(s.nodes[a]);
    hide LogLength;
  }

  /** The leader has stored the object, and the member has been told so. */
  ghost predicate Told(s: State, a: Addr, c: Addr, x: KubeCmd, w: nat) {
    && a in s.nodes && c in s.nodes && a != c && s.nodes[a].log == [x] && s.nodes[c].log == []
    && w in s.writes && s.writes[w] == Request(c, a, x, WriteAnswered(true))
  }

  lemma MemberStores(s: State, a: Addr, c: Addr, x: KubeCmd, w: nat)
    requires Told(s, a, c, x, w)
    ensures Enabled(s, TakeWriteReply(w)) && Disciplined(s, TakeWriteReply(w), a)
    ensures var t := Apply(s, TakeWriteReply(w));
            a in t.nodes && c in t.nodes && t.nodes[a].log == [x] && t.nodes[c].log == [x]
  {
  }

  lemma Ask(members: set<Addr>, p: Play, a: Addr, followers: set<Addr>, c: Addr, x: KubeCmd) returns (q: Play, w: nat)
    requires Legal(members, p) && Led(Last(p), a, followers) && c in followers && x != EMPTY_CMD
    ensures Continues(members, p, q, a, true) && |q.trace| > 0 && Led(Last(q), a, followers)
    ensures |q.steps| == |p.steps| + 1 && q.steps[|p.steps|] == SubmitCommit(c, x, w, Some(a))
    ensures w in Last(q).writes && Last(q).writes[w] == Request(c, a, x, WriteSent)
  {
    w := UnusedId(Last(p).rounds.Keys + Last(p).writes.Keys);
    MemberAsks(Last(p), a, followers, c, x, w);
    hide Continues, Enabled, Apply, Disciplined, Calm, Led;
    q := Go(members, p, SubmitCommit(c, x, w, Some(a)), a);
    ContinuesLegal(members, p, q, a, Disciplined(Last(p), SubmitCommit(c, x, w, Some(a)), a));
    SameNodesLed(Last(p), Last(q), a, followers);
  }

  /** The leader takes the object up, and a quorum of followers accepts. */
  lemma Accept(members: set<Addr>, p: Play, a: Addr, followers: set<Addr>, c: Addr, x: KubeCmd, w: nat)
    returns (s: State, q: Play, rid: nat)
    requires Legal(members, p) && Led(Last(p), a, followers) && c in followers && x != EMPTY_CMD
    requires w in Last(p).writes && Last(p).writes[w] == Request(c, a, x, WriteSent)
    ensures Continues(members, p, q, a, true) && |q.trace| > 0
    ensures Led(s, a, followers) && w in s.writes && s.writes[w] == Request(c, a, x, WriteWorking)
    ensures Accepting(s, Last(q), a, x, w, rid)
  {
    rid := UnusedId(Last(p).rounds.Keys + Last(p).sessions.Keys);
    var lookup := SomeLookup(Last(p).nodes[a], a);
    LeaderTakesUp(Last(p), a, followers, c, x, w, rid, lookup);
    hide Continues, Enabled, Apply, Disciplined, Calm, Accepting, Led, OwnRound;
    var taken := Go(members, p, HandleWrite(w, rid, lookup), a);
    ContinuesLegal(members, p, taken, a, Disciplined(Last(p), HandleWrite(w, rid, lookup), a));
    s := Last(p).(writes := Last(p).writes[w := Request(c, a, x, WriteWorking)]);
    SameNodesLed(Last(p), s, a, followers);
    q := AcceptTaken(members, taken, s, a, followers, x, w, rid);
    ContinuesOn(members, p, taken, q, a, Disciplined(Last(p), HandleWrite(w, rid, lookup), a), true);
  }

  lemma SameNodesLed(s: State, t: State, a: Addr, followers: set<Addr>)
    requires Led(s, a, followers) && t.nodes == s.nodes
    ensures Led(t, a, followers)
  {
  }

  lemma AcceptTaken(members: set<Addr>, p: Play, s: State, a: Addr, followers: set<Addr>, x: KubeCmd, w: nat, rid: nat)
    returns (q: Play)
    requires Legal(members, p) && Led(s, a, followers) && x != EMPTY_CMD
    requires Last(p) == WithRound(s, rid, OwnRound(s, a, x, WriteConn(w)))
    ensures Continues(members, p, q, a, true) && |q.trace| > 0 && Accepting(s, Last(q), a, x, w, rid)
  {
    FollowersMayConfirm(s, a, followers, x, w, rid);
    hide Continues, MayConfirmAll, AllConfirmed, AllAccepted, MayAccept, Accepting, Led, OwnRound, WithRound;
    var confirmed := ConfirmAll(members, p, rid, followers, a);
    ContinuesLegal(members, p, confirmed, a, true);
    QuorumAccepts(s, a, followers, x, w, rid);
    q := AcceptAll(members, confirmed, rid, followers, a);
    ContinuesLegal(members, confirmed, q, a, true);
    ContinuesOn(members, p, confirmed, q, a, true, true);
  }

  /** The leader stores, and the member hears of it and stores as well. */
  lemma Finish(members: set<Addr>, p: Play, s: State, a: Addr, followers: set<Addr>, c: Addr, x: KubeCmd, w: nat, rid: nat)
    returns (q: Play)
    requires Legal(members, p) && Accepting(s, Last(p), a, x, w, rid) && Led(s, a, followers) && c in followers
    requires w in s.writes && s.writes[w] == Request(c, a, x, WriteWorking)
    ensures Continues(members, p, q, a, true) && Legal(members, q) && |q.steps| > |p.steps|
    ensures q.steps[|q.steps| - 1] == TakeWriteReply(w)
    ensures a in Last(q).nodes && c in Last(q).nodes && Last(q).nodes[a].log == Last(q).nodes[c].log == [x]
  {
    LeaderStoresAndAnswers(s, Last(p), a, c, x, w, rid);
    hide Continues, Enabled, Apply, Disciplined, Calm, Accepting, Led, Told;
    var stored := Go(members, p, CommitRound(rid), a);
    ContinuesLegal(members, p, stored, a, Disciplined(Last(p), CommitRound(rid), a));
    MemberStores(Last(stored), a, c, x, w);
    q := Go(members, stored, TakeWriteReply(w), a);
    ContinuesLegal(members, stored, q, a, Disciplined(Last(stored), TakeWriteReply(w), a));
    ContinuesOn(members, p, stored, q, a, Disciplined(Last(p), CommitRound(rid), a), Disciplined(Last(stored), TakeWriteReply(w), a));
  }

  /**
   * For any two or more clusters and any object: a run in which a member submits the object, its leader
   * takes it up and commits it, and the member is told and stores it, at the same index of both logs. Every
   * step keeps to the conditions of agreement.
   */
  lemma WriteReachesBothLogs(members: set<Addr>, x: KubeCmd)
    returns (trace: seq<State>, steps: seq<Step>, i: nat, lead: Addr, c: Addr, w: nat)
    requires |members| >= 2 && x != EMPTY_CMD
    ensures Run(members, trace, steps) && DisciplinedRun(trace, steps, lead) && i + 1 < |steps|
    ensures c != lead && steps[i] == SubmitCommit(c, x, w, Some(lead)) && steps[|steps| - 1] == TakeWriteReply(w)
    ensures lead in trace[i].nodes && c in trace[i].nodes && trace[i].nodes[lead].log == trace[i].nodes[c].log == []
    ensures lead in trace[|steps|].nodes && c in trace[|steps|].nodes
    ensures trace[|steps|].nodes[lead].log == trace[|steps|].nodes[c].log == [x]
  {
    var followers: set<Addr>;
    lead, c, followers := ChooseCast(members);
    var elected := FirstElection(members, lead, c, followers);
    ElectedIsLed(members, lead, c, followers, Last(elected));
    hide OnlyElected, Led, Accepting, Cast, Enabled, Apply, Calm, Continues, DisciplinedRun;
    var asked: Play, s: State, accepted: Play, rid: nat, end: Play;
    asked, w := Ask(members, elected, lead, followers, c, x);
    ContinuesLegal(members, elected, asked, lead, true);
    LedLogs(Last(elected), lead, followers, c);
    s, accepted, rid := Accept(members, asked, lead, followers, c, x, w);
    ContinuesLegal(members, asked, accepted, lead, true);
    end := Finish(members, accepted, s, lead, followers, c, x, w, rid);
    ContinuesOn(members, asked, accepted, end, lead, true, true);
    ContinuesOn(members, elected, asked, end, lead, true, true);
    PlayIndices(members, elected, asked, end, lead, true);
    trace, steps, i := end.trace, end.steps, |elected.steps|;
    CalmContinues(members, elected, end, lead);
    hide Run;
  }

  lemma LedLogs(s: State, a: Addr, followers: set<Addr>, c: Addr)
    requires Led(s, a, followers) && c in followers
    ensures a in s.nodes && c in s.nodes && c != a && s.nodes[a].log == s.nodes[c].log == []
  {
  }

  lemma CalmContinues(members: set<Addr>, p: Play, q: Play, lead: Addr)
    requires Calm(p, lead) && Continues(members, p, q, lead, true)
    ensures DisciplinedRun(q.trace, q.steps, lead)
  {
  }
}
