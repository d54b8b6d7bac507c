/**
 * Why agreement under one leader needs its conditions on confirmations and on stores: in each of two runs
 * from the initial state at most one node is ever promoted, one of the two conditions is met by every step,
 * and the logs part.
 */
module Disagreement {
  import opened Basics
  import opened NodeSteps
  import opened Protocol
  import opened Elections
  import opened Durability
  import opened Shape
  import opened SingleLeader
  import opened Runs
  import opened Limits

  /** Nobody else is promoted, every store is in order, and every submitted object is real. */
  ghost predicate OrderlyStep(s: State, step: Step, lead: Addr) {
    Enabled(s, step) && OneLeader(s, step, lead) && StoresInOrder(s, step, lead) && RealSubmission(step)
  }

  /** Nobody else is promoted, every confirmation is true, and every submitted object is real. */
  ghost predicate TruthfulStep(s: State, step: Step, lead: Addr) {
    Enabled(s, step) && OneLeader(s, step, lead) && ConfirmsTruly(s, step, lead) && RealSubmission(step)
  }

  ghost predicate Orderly(p: Play, lead: Addr) {
    |p.trace| > |p.steps| && forall k :: 0 <= k < |p.steps| ==> OrderlyStep(p.trace[k], p.steps[k], lead)
  }

  ghost predicate Truthful(p: Play, lead: Addr) {
    |p.trace| > |p.steps| && forall k :: 0 <= k < |p.steps| ==> TruthfulStep(p.trace[k], p.steps[k], lead)
  }

  lemma CalmIsBoth(members: set<Addr>, p: Play, lead: Addr)
    requires Legal(members, p) && Calm(p, lead)
    ensures Orderly(p, lead) && Truthful(p, lead)
  {
    forall k | 0 <= k < |p.steps|
      ensures OrderlyStep(p.trace[k], p.steps[k], lead) && TruthfulStep(p.trace[k], p.steps[k], lead)
    {
      StepAt(p.trace, p.steps, k);
      assert Disciplined(p.trace[k], p.steps[k], lead);
    }
  }

  lemma OneMore(members: set<Addr>, p: Play, q: Play, step: Step, lead: Addr, calm: bool)
    requires Continues(members, p, q, lead, calm) && |q.steps| == |p.steps| + 1 && q.steps[|p.steps|] == step
    ensures Orderly(p, lead) && OrderlyStep(Last(p), step, lead) ==> Orderly(q, lead)
    ensures Truthful(p, lead) && TruthfulStep(Last(p), step, lead) ==> Truthful(q, lead)
  {
    hide OrderlyStep, TruthfulStep, Calm, Enabled, Apply;
    assert q.trace[|p.steps|] == Last(p);
  }

  // ----- candidates confirm writes that no leader has seen

  lemma OrderlyGo(members: set<Addr>, p: Play, step: Step, lead: Addr) returns (q: Play)
    requires Legal(members, p) && Orderly(p, lead) && OrderlyStep(Last(p), step, lead)
    ensures Legal(members, q) && Orderly(q, lead) && Enabled(Last(p), step) && Last(q) == Apply(Last(p), step)
  {
    hide Apply, Disciplined, Orderly, Continues, OneLeader, StoresInOrder;
    q := Go(members, p, step, lead);
    OneMore(members, p, q, step, lead, Disciplined(Last(p), step, lead));
    ContinuesLegal(members, p, q, lead, Disciplined(Last(p), step, lead));
  }

  /** b may campaign, and c, no later in term, will believe it; both logs are empty. */
  ghost predicate Gullible(s: State, b: Addr, c: Addr) {
    && b in s.nodes && c in s.nodes && b != c
    && s.nodes[b].role == MEMBER && s.nodes[b].electing == None && s.nodes[b].log == []
    && s.nodes[c].term <= s.nodes[b].term && s.nodes[c].log == [] && c !in s.nodes[c].leaders
  }

  /** b as a candidate of the next term. */
  function Asking(n: Node): Node {
    BeginCampaign(n.(role := CANDIDATE))
  }

  /** c has voted for b, its object w is wherever `writes` says, and the rest of the nodes is as before. */
  ghost predicate Believes(s: State, t: State, b: Addr, c: Addr) {
    && b in s.nodes && c in s.nodes
    && t.nodes == s.nodes[b := Asking(s.nodes[b])][c := Follows(s.nodes[c], b, s.nodes[b].term + 1)]
  }

  lemma BecomesVoter(s: State, b: Addr, c: Addr)
    requires Gullible(s, b, c)
    ensures var m, id := Standing(s, b), CampaignOf(s, b);
            && Enabled(m, HandleVoteRequest(id, c))
            && var t := Apply(m, HandleVoteRequest(id, c));
               Believes(s, t, b, c) && t.writes == s.writes
  {
    StandingCampaign(s, b);
    Lengths(s.nodes[b]);
    Lengths(s.nodes[c]);
    var m, id := Standing(s, b), CampaignOf(s, b);
    assert m.writes == s.writes && m.nodes[c] == s.nodes[c];
    hide Standing, LogLength;
    assert MayVote(m, id, {c});
    VoterFollows(m, id, c);
    OnlyOneVotes(m, id, c);
    hide Voting;
  }

  /** What c asks b to commit. */
  ghost function Request(s: State, b: Addr, c: Addr, y: KubeCmd, status: WriteStatus): Write
    requires b in s.nodes
  {
    Write(c, b, s.nodes[b].term + 1, 0, y, status)
  }

  lemma VoterWrites(s: State, t: State, b: Addr, c: Addr, y: KubeCmd, w: nat, lead: Addr)
    requires Gullible(s, b, c) && Believes(s, t, b, c) && w !in t.rounds && w !in t.writes && y != EMPTY_CMD
    ensures var step := SubmitCommit(c, y, w, Some(b));
            && OrderlyStep(t, step, lead)
            && Apply(t, step) == t.(writes := t.writes[w := Request(s, b, c, y, WriteSent)])
  {
    Lengths(t.nodes[c]);
    hide LogLength;
  }

  lemma CandidateAnswers(s: State, t: State, b: Addr, c: Addr, y: KubeCmd, w: nat, newId: nat, lookup: Option<Addr>, lead: Addr)
    requires Gullible(s, b, c) && Believes(s, t, b, c) && y != EMPTY_CMD
    requires w in t.writes && t.writes[w] == Request(s, b, c, y, WriteSent)
    requires newId !in t.sessions && newId !in t.rounds && LeaderLookup(t.nodes[b], b, lookup)
    ensures OrderlyStep(t, HandleWrite(w, newId, lookup), lead)
    ensures Apply(t, HandleWrite(w, newId, lookup)) == t.(writes := t.writes[w := Request(s, b, c, y, WriteAnswered(true))])
  {
    Lengths(t.nodes[b]);
    hide LogLength;
    assert OnAppendEntry(t.nodes.Keys, t.nodes[b], AppendEntry(s.nodes[b].term + 1, b, 0, y)) == (t.nodes[b], Answer(true));
    assert t.nodes[b := t.nodes[b]] == t.nodes;
    assert t.writes[w := Request(s, b, c, y, WriteWorking)][w := Request(s, b, c, y, WriteAnswered(true))]
        == t.writes[w := Request(s, b, c, y, WriteAnswered(true))];
  }

  /** b becomes candidate; c votes for it and so marks it as leader; c sends it a write; b confirms. */
  lemma Mislead(members: set<Addr>, p: Play, b: Addr, c: Addr, y: KubeCmd, lead: Addr) returns (q: Play, w: nat)
    requires Legal(members, p) && Orderly(p, lead) && Gullible(Last(p), b, c) && y != EMPTY_CMD
    ensures Legal(members, q) && Orderly(q, lead) && Believes(Last(p), Last(q), b, c) && w !in Last(p).writes
    ensures Last(q).writes == Last(p).writes[w := Request(Last(p), b, c, y, WriteAnswered(true))]
  {
    hide Gullible, Orderly, Apply, Enabled, Believes;
    var voted := Vote(members, p, b, c, lead);
    var sent;
    sent, w := Sends(members, voted, Last(p), b, c, y, lead);
    q := Confirmed(members, sent, Last(p), b, c, y, w, lead);
    SameBelief(Last(p), Last(sent), Last(q), b, c);
  }

  lemma Sends(members: set<Addr>, p: Play, s: State, b: Addr, c: Addr, y: KubeCmd, lead: Addr) returns (q: Play, w: nat)
    requires Legal(members, p) && Orderly(p, lead) && Gullible(s, b, c) && Believes(s, Last(p), b, c) && y != EMPTY_CMD
    ensures Legal(members, q) && Orderly(q, lead) && Believes(s, Last(q), b, c) && w !in Last(p).writes
    ensures Last(q).writes == Last(p).writes[w := Request(s, b, c, y, WriteSent)]
  {
    w := UnusedId(Last(p).rounds.Keys + Last(p).writes.Keys);
    VoterWrites(s, Last(p), b, c, y, w, lead);
    hide Apply, Gullible, Orderly, OrderlyStep, Run, Enabled, Believes;
    q := OrderlyGo(members, p, SubmitCommit(c, y, w, Some(b)), lead);
    SameBelief(s, Last(p), Last(q), b, c);
  }

  lemma SameBelief(s: State, t: State, u: State, b: Addr, c: Addr)
    requires Believes(s, t, b, c) && u.nodes == t.nodes
    ensures Believes(s, u, b, c)
  {
  }

  lemma Confirmed(members: set<Addr>, p: Play, s: State, b: Addr, c: Addr, y: KubeCmd, w: nat, lead: Addr) returns (q: Play)
    requires Legal(members, p) && Orderly(p, lead) && Gullible(s, b, c) && Believes(s, Last(p), b, c) && y != EMPTY_CMD
    requires w in Last(p).writes && Last(p).writes[w] == Request(s, b, c, y, WriteSent)
    ensures Legal(members, q) && Orderly(q, lead)
    ensures Last(q) == Last(p).(writes := Last(p).writes[w := Request(s, b, c, y, WriteAnswered(true))])
  {
    var newId := UnusedId(Last(p).sessions.Keys + Last(p).rounds.Keys);
    var lookup := SomeLookup(Last(p).nodes[b], b);
    CandidateAnswers(s, Last(p), b, c, y, w, newId, lookup, lead);
    hide Apply, Gullible, Orderly, OrderlyStep, Run, Enabled, Believes;
    q := OrderlyGo(members, p, HandleWrite(w, newId, lookup), lead);
  }

  lemma Vote(members: set<Addr>, p: Play, b: Addr, c: Addr, lead: Addr) returns (q: Play)
    requires Legal(members, p) && Orderly(p, lead) && Gullible(Last(p), b, c)
    ensures Legal(members, q) && Orderly(q, lead) && Believes(Last(p), Last(q), b, c) && Last(q).writes == Last(p).writes
  {
    BecomesVoter(Last(p), b, c);
    StandsInTwo(Last(p), b, lead);
    assert OrderlyStep(Standing(Last(p), b), HandleVoteRequest(CampaignOf(Last(p), b), c), lead);
    hide Orderly, Run, Standing, Believes, Apply, Enabled, OrderlyStep, Gullible;
    var candidate := OrderlyGo(members, p, BecomeCandidate(b), lead);
    var asking := OrderlyGo(members, candidate, StartCampaign(b), lead);
    q := OrderlyGo(members, asking, HandleVoteRequest(CampaignOf(Last(p), b), c), lead);
  }

  lemma StandsInTwo(s: State, b: Addr, lead: Addr)
    requires Enabled(s, BecomeCandidate(b))
    ensures OrderlyStep(s, BecomeCandidate(b), lead) && OrderlyStep(Apply(s, BecomeCandidate(b)), StartCampaign(b), lead)
    ensures Apply(Apply(s, BecomeCandidate(b)), StartCampaign(b)) == Standing(s, b)
  {
    hide LogLength;
  }

  /** Two members were told their writes are confirmed, and neither has stored anything yet. */
  ghost predicate BothTold(s: State, b: Addr, c: Addr, w: nat, z: nat) {
    && b in s.nodes && c in s.nodes && b != c && s.nodes[b].log == [] && s.nodes[c].log == []
    && w in s.writes && z in s.writes && w != z
    && s.writes[w].member == b && s.writes[w].cmd == X && s.writes[w].logIndex == 0 && s.writes[w].status == WriteAnswered(true)
    && s.writes[z].member == c && s.writes[z].cmd == Y && s.writes[z].logIndex == 0 && s.writes[z].status == WriteAnswered(true)
  }

  lemma BothTake(s: State, b: Addr, c: Addr, w: nat, z: nat, lead: Addr)
    requires BothTold(s, b, c, w, z)
    ensures OrderlyStep(s, TakeWriteReply(w), lead)
    ensures var m := Apply(s, TakeWriteReply(w));
            && OrderlyStep(m, TakeWriteReply(z), lead)
            && var t := Apply(m, TakeWriteReply(z));
               b in t.nodes && c in t.nodes && t.nodes[b].log == [X] && t.nodes[c].log == [Y]
  {
    hide LogLength;
  }

  lemma TwiceMisled(s: State, m: State, t: State, b: Addr, c: Addr, w: nat, z: nat)
    requires b in s.nodes && c in s.nodes && b != c && s.nodes[b] == s.nodes[c] == FRESH_NODE
    requires Believes(s, m, c, b) && m.writes == s.writes[w := Request(s, c, b, X, WriteAnswered(true))]
    ensures Gullible(m, b, c)
    ensures Believes(m, t, b, c) && z !in m.writes && t.writes == m.writes[z := Request(m, b, c, Y, WriteAnswered(true))]
            ==> BothTold(t, b, c, w, z)
  {
  }

  /**
   * With two or more clusters: a run in which nobody is promoted and every entry is stored at the index
   * asked for, but two candidates confirm a write each, and two logs disagree at their first entry.
   */
  lemma ConfirmationsMatter(members: set<Addr>) returns (p: Play, lead: Addr, v: Addr)
    requires |members| >= 2
    ensures Legal(members, p) && lead in members && Orderly(p, lead)
    ensures lead in Last(p).nodes && v in Last(p).nodes && !Comparable(Last(p).nodes[lead].log, Last(p).nodes[v].log)
  {
    var b, c, followers := ChooseCast(members);
    var start := Beginning(members, b);
    CalmIsBoth(members, start, b);
    assert Gullible(Init(members), c, b);
    hide Run, Orderly, Apply, Calm, Enabled, OrderlyStep, Believes, Gullible;
    var once, w := Mislead(members, start, c, b, X, b);
    TwiceMisled(Init(members), Last(once), Last(once), b, c, w, 0);
    var twice, z := Mislead(members, once, b, c, Y, b);
    TwiceMisled(Init(members), Last(once), Last(twice), b, c, w, z);
    BothTake(Last(twice), b, c, w, z, b);
    var first := OrderlyGo(members, twice, TakeWriteReply(w), b);
    p := OrderlyGo(members, first, TakeWriteReply(z), b);
    lead, v := b, c;
    assert [X][0] != [Y][0];
  }

  // ----- two handlers of one member fetch the same entry

  /** b lacks the leader's one entry, and a heartbeat announces it. */
  ghost predicate Behind(s: State, a: Addr, b: Addr) {
    && a in s.nodes && b in s.nodes && a != b
    && s.nodes[a].term == 1 && s.nodes[a].role == LEADER && s.nodes[a].log == [X]
    && s.nodes[b].term == 1 && s.nodes[b].role == MEMBER && s.nodes[b].log == [] && s.nodes[b].leaders == {a}
    && Heartbeat(a, 1, 1) in s.heartbeats
  }

  /** A handler of b that has been sent the entry and has not stored it. */
  function Loaded(a: Addr, b: Addr, fetch: FetchStatus): Session {
    Session(b, NoConn, 1, 1, Some(a), 1, fetch)
  }

  ghost function WithSession(s: State, k: nat, ses: Session): State {
    s.(sessions := s.sessions[k := ses])
  }

  lemma BeatIsSent(s: State, members: set<Addr>, a: Addr, b: Addr, followers: set<Addr>)
    requires AfterCommit(s, members, a, followers) && Cast(members, a, b, followers)
    ensures Enabled(s, SendHeartbeat(a)) && Behind(Apply(s, SendHeartbeat(a)), a, b)
  {
    Lengths(s.nodes[a]);
    assert s.nodes[b] == Follows(FRESH_NODE, a, 1);
    hide LogLength;
  }

  lemma HandlerOpens(s: State, a: Addr, b: Addr, k: nat)
    requires Behind(s, a, b) && k !in s.sessions && k !in s.rounds
    ensures var step := HandleHeartbeat(Heartbeat(a, 1, 1), b, k, Some(a));
            Enabled(s, step) && Apply(s, step) == WithSession(s, k, Loaded(a, b, Idle))
  {
    Lengths(s.nodes[b]);
    hide LogLength;
    assert OnAppendEntry(s.nodes.Keys, s.nodes[b], AppendEntry(1, a, 1, EMPTY_CMD)) == (s.nodes[b], CatchUp(1));
    assert s.nodes[b := s.nodes[b]] == s.nodes;
  }

  lemma HandlerFetches(s: State, a: Addr, b: Addr, k: nat)
    requires Behind(s, a, b) && k in s.sessions && s.sessions[k] == Loaded(a, b, Idle)
    ensures Enabled(s, SendFetch(k))
    ensures var asked := Apply(s, SendFetch(k));
            && Enabled(asked, HandleFetch(k))
            && Apply(asked, HandleFetch(k)) == WithSession(s, k, Loaded(a, b, Arrived(1, FetchedEntry(1, X))))
  {
    Lengths(s.nodes[a]);
    Lengths(s.nodes[b]);
    hide LogLength;
    assert LogItem([X], 1) == X;
  }

  lemma Fetch(members: set<Addr>, p: Play, a: Addr, b: Addr) returns (q: Play, k: nat)
    requires Legal(members, p) && Behind(Last(p), a, b)
    ensures Continues(members, p, q, a, true) && k !in Last(p).sessions
    ensures Last(q) == WithSession(Last(p), k, Loaded(a, b, Arrived(1, FetchedEntry(1, X))))
  {
    k := UnusedId(Last(p).sessions.Keys + Last(p).rounds.Keys);
    HandlerOpens(Last(p), a, b, k);
    hide Enabled, Apply, Continues, Calm;
    var begun := GoOn(members, p, HandleHeartbeat(Heartbeat(a, 1, 1), b, k, Some(a)), a);
    ContinuesLegal(members, p, begun, a, true);
    HandlerFetches(Last(begun), a, b, k);
    var asked := GoOn(members, begun, SendFetch(k), a);
    ContinuesLegal(members, begun, asked, a, true);
    q := GoOn(members, asked, HandleFetch(k), a);
    ContinuesOn(members, p, begun, asked, a, true, true);
    ContinuesOn(members, p, asked, q, a, true, true);
  }

  lemma FirstStore(s: State, a: Addr, b: Addr, k: nat, other: nat)
    requires Behind(s, a, b) && k in s.sessions && other in s.sessions && k != other
    requires s.sessions[k] == s.sessions[other] == Loaded(a, b, Arrived(1, FetchedEntry(1, X)))
    ensures Enabled(s, TakeFetchReply(k)) && Disciplined(s, TakeFetchReply(k), a)
    ensures var t := Apply(s, TakeFetchReply(k));
            && a in t.nodes && t.nodes[a].log == [X] && b in t.nodes && t.nodes[b].log == [X]
            && other in t.sessions && t.sessions[other] == s.sessions[other]
  {
    hide LogLength;
  }

  lemma SecondStore(s: State, a: Addr, b: Addr, k: nat)
    requires a in s.nodes && s.nodes[a].log == [X] && b in s.nodes && s.nodes[b].log == [X] && a != b
    requires k in s.sessions && s.sessions[k] == Loaded(a, b, Arrived(1, FetchedEntry(1, X)))
    ensures TruthfulStep(s, TakeFetchReply(k), a)
    ensures var t := Apply(s, TakeFetchReply(k));
            a in t.nodes && t.nodes[a].log == [X] && b in t.nodes && t.nodes[b].log == [X, X]
  {
    hide LogLength;
  }

  /**
   * With two or more clusters: a run in which only `lead` is promoted and nobody confirms an untrue thing,
   * but two handlers of one member store the same entry, and its log outgrows the leader's.
   */
  lemma StoresMatter(members: set<Addr>) returns (p: Play, lead: Addr, v: Addr)
    requires |members| >= 2
    ensures Legal(members, p) && lead in members && Truthful(p, lead)
    ensures lead in Last(p).nodes && v in Last(p).nodes && Last(p).nodes[lead].log < Last(p).nodes[v].log
  {
    var a, b, start, q, k, other := ReachTwoFetches(members);
    FirstStore(Last(q), a, b, k, other);
    hide Enabled, Apply, Continues, Calm, Disciplined, Behind, TruthfulStep, Truthful;
    var r := Go(members, q, TakeFetchReply(k), a);
    ContinuesLegal(members, q, r, a, Disciplined(Last(q), TakeFetchReply(k), a));
    ContinuesOn(members, start, q, r, a, true, true);
    CalmOn(members, start, r, a);
    SecondStore(Last(r), a, b, other);
    TruthfulIsEnabled(Last(r), TakeFetchReply(other), a);
    p := Go(members, r, TakeFetchReply(other), a);
    OneMore(members, r, p, TakeFetchReply(other), a, Disciplined(Last(r), TakeFetchReply(other), a));
    ContinuesLegal(members, r, p, a, Disciplined(Last(r), TakeFetchReply(other), a));
    lead, v := a, b;
  }

  lemma TruthfulIsEnabled(s: State, step: Step, lead: Addr)
    requires TruthfulStep(s, step, lead)
    ensures Enabled(s, step)
  {
  }

  lemma CalmOn(members: set<Addr>, p: Play, q: Play, lead: Addr)
    requires Continues(members, p, q, lead, true) && Calm(p, lead)
    ensures Orderly(q, lead) && Truthful(q, lead)
  {
    CalmIsBoth(members, q, lead);
  }

  lemma ReachTwoFetches(members: set<Addr>) returns (a: Addr, b: Addr, start: Play, q: Play, k: nat, other: nat)
    requires |members| >= 2
    ensures Legal(members, q) && a in members && Calm(start, a) && Continues(members, start, q, a, true)
    ensures Behind(Last(q), a, b) && k in Last(q).sessions && other in Last(q).sessions && k != other
    ensures Last(q).sessions[k] == Last(q).sessions[other] == Loaded(a, b, Arrived(1, FetchedEntry(1, X)))
  {
    var followers, stored, rid;
    a, b, followers := ChooseCast(members);
    start, stored, rid := FirstCommit(members, a, b, followers);
    ContinuesLegal(members, start, stored, a, true);
    BeatIsSent(Last(stored), members, a, b, followers);
    hide Enabled, Apply, Continues, Calm, AfterCommit;
    var beat := GoOn(members, stored, SendHeartbeat(a), a);
    ContinuesLegal(members, stored, beat, a, true);
    var one: Play;
    one, k := Fetch(members, beat, a, b);
    ContinuesLegal(members, beat, one, a, true);
    q, other := Fetch(members, one, a, b);
    ContinuesLegal(members, one, q, a, true);
    ContinuesOn(members, start, stored, beat, a, true, true);
    ContinuesOn(members, start, beat, one, a, true, true);
    ContinuesOn(members, start, one, q, a, true, true);
  }
}
