/** Building runs: one step at a time, one step by each of a set of nodes, and whole elections and commits. */
module Runs {
  import opened Basics
  import opened NodeSteps
  import opened Protocol
  import opened Elections
  import opened Shape
  import opened SingleLeader
  import Q = Quorum

  datatype Play = Play(trace: seq<State>, steps: seq<Step>)

  ghost predicate Legal(members: set<Addr>, p: Play) {
    Run(members, p.trace, p.steps)
  }

  ghost function Last(p: Play): State
    requires |p.trace| > 0
  {
    p.trace[|p.trace| - 1]
  }

  /** Every step so far meets the conditions under which logs agree. */
  ghost predicate Calm(p: Play, lead: Addr) {
    DisciplinedRun(p.trace, p.steps, lead)
  }

  /** q goes on where p ends, and is calm if p was and `calm` holds. */
  ghost predicate Continues(members: set<Addr>, p: Play, q: Play, lead: Addr, calm: bool) {
    && Legal(members, p) && Legal(members, q)
    && p.trace <= q.trace && p.steps <= q.steps
    && (calm && Calm(p, lead) ==> Calm(q, lead))
  }

  lemma ContinuesOn(members: set<Addr>, p: Play, q: Play, r: Play, lead: Addr, calm: bool, calmer: bool)
    requires Continues(members, p, q, lead, calm) && Continues(members, q, r, lead, calmer)
    ensures Continues(members, p, r, lead, calm && calmer)
  {
    hide Legal, Calm;
  }

  lemma Beginning(members: set<Addr>, lead: Addr) returns (p: Play)
    requires members != {}
    ensures Legal(members, p) && Last(p) == Init(members) && Calm(p, lead)
  {
    p := Play([Init(members)], []);
  }

  ghost function Then(p: Play, step: Step): Play
    requires |p.trace| > 0 && Enabled(Last(p), step)
  {
    Play(p.trace + [Apply(Last(p), step)], p.steps + [step])
  }

  lemma Go(members: set<Addr>, p: Play, step: Step, lead: Addr) returns (q: Play)
    requires Legal(members, p) && Enabled(Last(p), step)
    ensures Continues(members, p, q, lead, Disciplined(Last(p), step, lead)) && Last(q) == Apply(Last(p), step)
    ensures |q.steps| == |p.steps| + 1 && q.steps[|p.steps|] == step
  {
    hide Apply, Enabled, Disciplined;
    q := Then(p, step);
    assert Execution(q.trace, q.steps) by {
      forall i | 0 <= i < |q.steps|
        ensures Enabled(q.trace[i], q.steps[i]) && q.trace[i + 1] == Apply(q.trace[i], q.steps[i])
      {
        if i < |p.steps| { StepAt(p.trace, p.steps, i); }
      }
    }
  }

  /** Steps on which agreement puts no condition. */
  predicate Unconditional(step: Step) {
    && !step.TakeElectionResult? && !step.TakeFetchReply? && !step.TakeWriteReply?
    && !step.HandleWrite? && !step.CommitRound? && !step.SubmitCommit?
  }

  lemma GoOn(members: set<Addr>, p: Play, step: Step, lead: Addr) returns (q: Play)
    requires Legal(members, p) && Enabled(Last(p), step) && Unconditional(step)
    ensures Continues(members, p, q, lead, true) && Last(q) == Apply(Last(p), step)
  {
    assert Disciplined(Last(p), step, lead);
    hide Apply, Enabled, Disciplined;
    q := Go(members, p, step, lead);
  }

  // ----- every node of a set votes

  ghost predicate MayVote(s: State, id: CampaignId, voters: set<Addr>) {
    id in s.campaigns && forall v :: v in voters ==> VoteCallIs(s, id, v) && s.campaigns[id].calls[v] == VoteSent
  }

  ghost function AllVoted(s: State, id: CampaignId, voters: set<Addr>): State
    requires MayVote(s, id, voters)
  {
    var c := s.campaigns[id];
    s.(nodes := map v | v in s.nodes :: if v in voters then Voting(s, id, v).nodes[v] else s.nodes[v],
       campaigns := s.campaigns[id := c.(calls := map v | v in c.calls ::
         if v in voters then Voting(s, id, v).campaigns[id].calls[v] else c.calls[v])])
  }

  lemma OneMoreVoted(s: State, id: CampaignId, voters: set<Addr>, v: Addr)
    requires MayVote(s, id, voters + {v}) && v !in voters
    ensures MayVote(AllVoted(s, id, voters), id, {v})
    ensures Voting(AllVoted(s, id, voters), id, v) == AllVoted(s, id, voters + {v})
  {
    hide LogLength, OnRequestVote;
    var m := AllVoted(s, id, voters);
    assert m.nodes.Keys == s.nodes.Keys;
    assert v in m.nodes && v in m.campaigns[id].calls;
    OnlyOneVotes(s, id, v);
    OnlyOneVotes(m, id, v);
    SameVote(s, m, id, v);
    hide Voting;
    var t, u := Voting(m, id, v), AllVoted(s, id, voters + {v});
    assert t.nodes == u.nodes;
    assert t.campaigns[id].calls == u.campaigns[id].calls;
  }

  lemma OnlyOneVotes(s: State, id: CampaignId, v: Addr)
    requires VoteCallIs(s, id, v)
    ensures var t := Voting(s, id, v); var c := s.campaigns[id];
            t == s.(nodes := s.nodes[v := t.nodes[v]],
                    campaigns := s.campaigns[id := c.(calls := c.calls[v := t.campaigns[id].calls[v]])])
  {
    hide LogLength, OnRequestVote;
  }

  lemma SameVote(s: State, t: State, id: CampaignId, v: Addr)
    requires VoteCallIs(s, id, v) && VoteCallIs(t, id, v) && t.nodes.Keys == s.nodes.Keys && t.nodes[v] == s.nodes[v]
    requires t.campaigns[id].logIndex == s.campaigns[id].logIndex
    ensures Voting(t, id, v).nodes[v] == Voting(s, id, v).nodes[v]
    ensures Voting(t, id, v).campaigns[id].calls[v] == Voting(s, id, v).campaigns[id].calls[v]
  {
    hide LogLength, OnRequestVote;
  }

  lemma NoneVoted(s: State, id: CampaignId)
    requires id in s.campaigns
    ensures AllVoted(s, id, {}) == s
  {
    assert AllVoted(s, id, {}).nodes == s.nodes;
    assert AllVoted(s, id, {}).campaigns[id].calls == s.campaigns[id].calls;
  }

  lemma {:induction false} VoteAll(members: set<Addr>, p: Play, id: CampaignId, voters: set<Addr>, lead: Addr) returns (q: Play)
    requires Legal(members, p) && MayVote(Last(p), id, voters)
    ensures Continues(members, p, q, lead, true) && Last(q) == AllVoted(Last(p), id, voters)
    decreases |voters|
  {
    hide Continues, Voting, AllVoted;
    if voters == {} {
      NoneVoted(Last(p), id);
      q := p;
      assert Continues(members, p, q, lead, true) by { ContinuesSame(members, p, lead); }
    } else {
      var v :| v in voters;
      var rest := voters - {v};
      assert rest + {v} == voters;
      var r := VoteAll(members, p, id, rest, lead);
      ContinuesLegal(members, p, r, lead, true);
      OneMoreVoted(Last(p), id, rest, v);
      q := GoOn(members, r, HandleVoteRequest(id, v), lead);
      ContinuesOn(members, p, r, q, lead, true, true);
    }
  }

  lemma ContinuesSame(members: set<Addr>, p: Play, lead: Addr)
    requires Legal(members, p)
    ensures Continues(members, p, p, lead, true)
  {
  }

  lemma ContinuesLegal(members: set<Addr>, p: Play, q: Play, lead: Addr, calm: bool)
    requires Continues(members, p, q, lead, calm)
    ensures Legal(members, q)
  {
  }

  // ----- every reply of a set of voters is heard

  ghost predicate MayHear(s: State, id: CampaignId, voters: set<Addr>) {
    && id in s.campaigns && s.campaigns[id].status == Tallying && s.nodes != map[] && QuorumOf(s) > 0
    && s.campaigns[id].tally + |voters| <= QuorumOf(s)
    && forall v :: v in voters ==>
      && VoteCallIs(s, id, v)
      && s.campaigns[id].calls[v].VoteHandled? && s.campaigns[id].calls[v].reply == InFlight
  }

  ghost function AllHeard(s: State, id: CampaignId, voters: set<Addr>): State
    requires MayHear(s, id, voters)
  {
    var c := s.campaigns[id];
    var tally := c.tally + |voters|;
    s.(campaigns := s.campaigns[id := c.(
         calls := map v | v in c.calls :: if v in voters then c.calls[v].(reply := Heard) else c.calls[v],
         tally := tally, status := if voters != {} && tally >= QuorumOf(s) then Passed else Tallying)])
  }

  lemma OneMoreHeard(s: State, id: CampaignId, voters: set<Addr>, v: Addr)
    requires MayHear(s, id, voters + {v}) && v !in voters
    ensures |voters + {v}| == |voters| + 1 && MayHear(s, id, voters)
    ensures var t := AllHeard(s, id, voters);
            && Enabled(t, CountVote(id, v)) && Apply(t, CountVote(id, v)) == AllHeard(s, id, voters + {v})
  {
    var t, u := VoteCounted(AllHeard(s, id, voters), id, v), AllHeard(s, id, voters + {v});
    assert t.campaigns[id].calls == u.campaigns[id].calls;
  }

  lemma NoneHeard(s: State, id: CampaignId)
    requires MayHear(s, id, {})
    ensures AllHeard(s, id, {}) == s
  {
    assert AllHeard(s, id, {}).campaigns[id].calls == s.campaigns[id].calls;
  }

  lemma {:induction false} HearAll(members: set<Addr>, p: Play, id: CampaignId, voters: set<Addr>, lead: Addr) returns (q: Play)
    requires Legal(members, p) && MayHear(Last(p), id, voters)
    ensures Continues(members, p, q, lead, true) && Last(q) == AllHeard(Last(p), id, voters)
    decreases |voters|
  {
    hide Continues, AllHeard, Enabled, VoteCounted, Apply;
    if voters == {} {
      NoneHeard(Last(p), id);
      q := p;
      ContinuesSame(members, p, lead);
    } else {
      var v :| v in voters;
      var rest := voters - {v};
      assert rest + {v} == voters;
      OneMoreHeard(Last(p), id, rest, v);
      hide MayHear;
      var r := HearAll(members, p, id, rest, lead);
      ContinuesLegal(members, p, r, lead, true);
      q := GoOn(members, r, CountVote(id, v), lead);
      ContinuesOn(members, p, r, q, lead, true, true);
    }
  }

  // ----- every node of a set confirms a round

  /** A follower at the same length, in the round's term or a later one, confirms without storing. */
  ghost predicate MayConfirmAll(s: State, rid: nat, who: set<Addr>) {
    && rid in s.rounds && s.rounds[rid].cmd != EMPTY_CMD
    && forall v :: v in who ==>
      && AppendCallIs(s, rid, v)
      && s.rounds[rid].calls[v] == AppendSent && s.nodes[v].role != LEADER
      && s.rounds[rid].term <= s.nodes[v].term && LogLength(s.nodes[v]) == s.rounds[rid].logIndex
  }

  ghost function AllConfirmed(s: State, rid: nat, who: set<Addr>): State
    requires MayConfirmAll(s, rid, who)
  {
    var r := s.rounds[rid];
    s.(rounds := s.rounds[rid := r.(calls := map v | v in r.calls :: if v in who then Answered(true) else r.calls[v])])
  }

  lemma {:induction false} UnusedId(used: set<nat>) returns (newId: nat)
    ensures newId !in used
  {
    if used == {} {
      newId := 0;
    } else {
      var top := Top(used);
      newId := top + 1;
    }
  }

  lemma {:induction false} Top(used: set<nat>) returns (top: nat)
    requires used != {}
    ensures forall k :: k in used ==> k <= top
    decreases |used|
  {
    var k :| k in used;
    if used == {k} {
      top := k;
    } else {
      top := Top(used - {k});
      top := if top < k then k else top;
      assert forall j :: j in used ==> j == k || j in used - {k};
    }
  }

  lemma SomeLookup(n: Node, self: Addr) returns (found: Option<Addr>)
    ensures LeaderLookup(n, self, found)
  {
    if n.leaders == {} {
      found := None;
    } else if self in n.leaders {
      found := Some(self);
    } else {
      var a :| a in n.leaders;
      found := Some(a);
    }
  }

  lemma Confirms(s: State, rid: nat, v: Addr, newId: nat, lookup: Option<Addr>)
    requires MayConfirmAll(s, rid, {v}) && newId !in s.sessions && newId !in s.rounds && LeaderLookup(s.nodes[v], v, lookup)
    ensures Enabled(s, HandleRoundAppend(rid, v, newId, lookup))
    ensures Apply(s, HandleRoundAppend(rid, v, newId, lookup)) == SetCall(s, rid, v, Answered(true))
  {
    assert v in {v};
    hide LogLength;
    var r, working := s.rounds[rid], SetCall(s, rid, v, Working);
    assert OnAppendEntry(working.nodes.Keys, working.nodes[v], AppendEntry(r.term, r.leader, r.logIndex, r.cmd))
        == (s.nodes[v], Answer(true));
    assert SetNode(working, v, s.nodes[v]) == working;
    assert SetCall(working, rid, v, Answered(true)) == SetCall(s, rid, v, Answered(true)) by {
      assert s.rounds[rid].calls[v := Working][v := Answered(true)] == s.rounds[rid].calls[v := Answered(true)];
    }
  }

  lemma OneMoreConfirmed(s: State, rid: nat, who: set<Addr>, v: Addr)
    requires MayConfirmAll(s, rid, who + {v}) && v !in who
    ensures MayConfirmAll(s, rid, who) && MayConfirmAll(AllConfirmed(s, rid, who), rid, {v})
    ensures SetCall(AllConfirmed(s, rid, who), rid, v, Answered(true)) == AllConfirmed(s, rid, who + {v})
  {
    hide LogLength;
    var t, u := SetCall(AllConfirmed(s, rid, who), rid, v, Answered(true)), AllConfirmed(s, rid, who + {v});
    assert t.rounds[rid].calls == u.rounds[rid].calls;
  }

  lemma NoneConfirmed(s: State, rid: nat)
    requires MayConfirmAll(s, rid, {})
    ensures AllConfirmed(s, rid, {}) == s
  {
    assert AllConfirmed(s, rid, {}).rounds[rid].calls == s.rounds[rid].calls;
  }

  lemma {:induction false} ConfirmAll(members: set<Addr>, p: Play, rid: nat, who: set<Addr>, lead: Addr) returns (q: Play)
    requires Legal(members, p) && MayConfirmAll(Last(p), rid, who)
    ensures Continues(members, p, q, lead, true) && Last(q) == AllConfirmed(Last(p), rid, who)
    decreases |who|
  {
    hide Continues, AllConfirmed;
    if who == {} {
      NoneConfirmed(Last(p), rid);
      q := p;
      ContinuesSame(members, p, lead);
    } else {
      var v :| v in who;
      var rest := who - {v};
      assert rest + {v} == who;
      OneMoreConfirmed(Last(p), rid, rest, v);
      hide MayConfirmAll;
      var r := ConfirmAll(members, p, rid, rest, lead);
      ContinuesLegal(members, p, r, lead, true);
      q := ConfirmOne(members, r, rid, v, lead);
      ContinuesOn(members, p, r, q, lead, true, true);
    }
  }

  lemma ConfirmOne(members: set<Addr>, p: Play, rid: nat, v: Addr, lead: Addr) returns (q: Play)
    requires Legal(members, p) && MayConfirmAll(Last(p), rid, {v})
    ensures rid in Last(p).rounds && Continues(members, p, q, lead, true)
    ensures Last(q) == SetCall(Last(p), rid, v, Answered(true))
  {
    assert v in {v};
    var newId := UnusedId(Last(p).sessions.Keys + Last(p).rounds.Keys);
    var lookup := SomeLookup(Last(p).nodes[v], v);
    Confirms(Last(p), rid, v, newId, lookup);
    hide Continues, Enabled, Apply, MayConfirmAll;
    q := GoOn(members, p, HandleRoundAppend(rid, v, newId, lookup), lead);
  }

  // ----- every confirmation of a set is counted

  ghost predicate MayAccept(s: State, rid: nat, who: set<Addr>) {
    && rid in s.rounds && s.rounds[rid].status == Asking && s.nodes != map[] && QuorumOf(s) > 0
    && s.rounds[rid].tally + |who| <= QuorumOf(s)
    && forall v :: v in who ==> AppendCallIs(s, rid, v) && s.rounds[rid].calls[v] == Answered(true)
  }

  ghost function AllAccepted(s: State, rid: nat, who: set<Addr>): State
    requires MayAccept(s, rid, who)
  {
    var r := s.rounds[rid];
    var tally := r.tally + |who|;
    s.(rounds := s.rounds[rid := r.(
         calls := map v | v in r.calls :: if v in who then Counted(true) else r.calls[v],
         tally := tally, status := if who != {} && tally >= QuorumOf(s) then Accepted else Asking)])
  }

  lemma OneMoreAccepted(s: State, rid: nat, who: set<Addr>, v: Addr)
    requires MayAccept(s, rid, who + {v}) && v !in who
    ensures |who + {v}| == |who| + 1 && MayAccept(s, rid, who)
    ensures var t := AllAccepted(s, rid, who);
            && Enabled(t, CountConfirm(rid, v)) && Apply(t, CountConfirm(rid, v)) == AllAccepted(s, rid, who + {v})
  {
    var t, u := ConfirmCounted(AllAccepted(s, rid, who), rid, v), AllAccepted(s, rid, who + {v});
    assert t.rounds[rid].calls == u.rounds[rid].calls;
  }

  lemma NoneAccepted(s: State, rid: nat)
    requires MayAccept(s, rid, {})
    ensures AllAccepted(s, rid, {}) == s
  {
    assert AllAccepted(s, rid, {}).rounds[rid].calls == s.rounds[rid].calls;
  }

  lemma {:induction false} AcceptAll(members: set<Addr>, p: Play, rid: nat, who: set<Addr>, lead: Addr) returns (q: Play)
    requires Legal(members, p) && MayAccept(Last(p), rid, who)
    ensures Continues(members, p, q, lead, true) && Last(q) == AllAccepted(Last(p), rid, who)
    decreases |who|
  {
    hide Continues, AllAccepted, Enabled, ConfirmCounted, Apply;
    if who == {} {
      NoneAccepted(Last(p), rid);
      q := p;
      ContinuesSame(members, p, lead);
    } else {
      var v :| v in who;
      var rest := who - {v};
      assert rest + {v} == who;
      OneMoreAccepted(Last(p), rid, rest, v);
      hide MayAccept;
      var r := AcceptAll(members, p, rid, rest, lead);
      ContinuesLegal(members, p, r, lead, true);
      q := GoOn(members, r, CountConfirm(rid, v), lead);
      ContinuesOn(members, p, r, q, lead, true, true);
    }
  }

  // ----- a whole election

  /** A member that its voters have not overtaken, in term or in length, and voters enough for a quorum. */
  ghost predicate Electable(s: State, v: Addr, voters: set<Addr>) {
    && v in s.nodes && s.nodes[v].role == MEMBER && s.nodes[v].electing == None
    && voters <= Peers(s, v) && |voters| == QuorumOf(s) > 0
    && forall u :: u in voters ==> s.nodes[u].term <= s.nodes[v].term && LogLength(s.nodes[u]) <= LogLength(s.nodes[v])
  }

  ghost function CampaignOf(s: State, v: Addr): CampaignId
    requires v in s.nodes
  {
    CampaignId(v, s.nodes[v].term + 1)
  }

  /** v has become candidate and sent its requests. */
  ghost function Standing(s: State, v: Addr): State
    requires v in s.nodes
  {
    Campaigning(SetNode(s, v, s.nodes[v].(role := CANDIDATE)), v)
  }

  lemma Stand(members: set<Addr>, p: Play, v: Addr, lead: Addr) returns (q: Play)
    requires Legal(members, p) && v in Last(p).nodes
    requires Last(p).nodes[v].role == MEMBER && Last(p).nodes[v].electing == None
    ensures Continues(members, p, q, lead, true) && Last(q) == Standing(Last(p), v)
    ensures StartsSecond(p, q, v)
  {
    hide LogLength;
    assert Disciplined(Last(p), BecomeCandidate(v), lead);
    var r := Go(members, p, BecomeCandidate(v), lead);
    assert Disciplined(Last(r), StartCampaign(v), lead);
    hide Disciplined, Calm;
    q := Go(members, r, StartCampaign(v), lead);
    ContinuesOn(members, p, r, q, lead, true, true);
  }

  /** The second step that q takes after p starts a campaign of v, in the term after the one v had. */
  ghost predicate StartsSecond(p: Play, q: Play, v: Addr) {
    var c := |p.steps| + 1;
    && c < |q.steps| && c < |q.trace| && q.steps[c] == StartCampaign(v)
    && v in q.trace[c].nodes && |p.trace| > 0 && v in Last(p).nodes
    && q.trace[c].nodes[v] == Last(p).nodes[v].(role := CANDIDATE)
  }

  lemma StartsStill(members: set<Addr>, p: Play, q: Play, r: Play, v: Addr, lead: Addr)
    requires StartsSecond(p, q, v) && Continues(members, q, r, lead, true)
    ensures StartsSecond(p, r, v)
  {
    hide Legal, Calm;
  }

  /** A voter after granting the first request of a new term. */
  function Follows(n: Node, v: Addr, term: int): Node {
    n.(term := term, role := MEMBER, leaders := n.leaders + {v}, newTermSignals := n.newTermSignals + 1)
  }

  ghost function Followed(s: State, v: Addr, term: int, voters: set<Addr>): map<Addr, Node> {
    map u | u in s.nodes :: if u in voters then Follows(s.nodes[u], v, term) else s.nodes[u]
  }

  /** A request of a new term from a log no shorter is granted. */
  lemma VoterFollows(s: State, id: CampaignId, u: Addr)
    requires MayVote(s, id, {u}) && id.candidate in s.nodes
    requires s.nodes[u].term < id.term && LogLength(s.nodes[u]) <= s.campaigns[id].logIndex
    ensures u in s.nodes && u in s.campaigns[id].calls
    ensures Voting(s, id, u).nodes[u] == Follows(s.nodes[u], id.candidate, id.term)
    ensures Voting(s, id, u).campaigns[id].calls[u] == VoteHandled(Some(Grant(true, LogLength(s.nodes[u]))), InFlight)
  {
    assert u in {u};
    hide LogLength;
  }

  ghost predicate Granting(s: State, id: CampaignId, voters: set<Addr>) {
    MayVote(s, id, voters) && id.candidate in s.nodes
    && forall u :: u in voters ==>
      s.nodes[u].term < id.term && LogLength(s.nodes[u]) <= s.campaigns[id].logIndex
  }

  lemma AllFollow(s: State, id: CampaignId, voters: set<Addr>)
    requires Granting(s, id, voters)
    ensures AllVoted(s, id, voters).nodes == Followed(s, id.candidate, id.term, voters)
    ensures forall u :: u in voters ==>
              u in s.campaigns[id].calls
              && AllVoted(s, id, voters).campaigns[id].calls[u] == VoteHandled(Some(Grant(true, LogLength(s.nodes[u]))), InFlight)
  {
    forall u | u in voters
      ensures u in s.nodes && u in s.campaigns[id].calls
      ensures Voting(s, id, u).nodes[u] == Follows(s.nodes[u], id.candidate, id.term)
      ensures Voting(s, id, u).campaigns[id].calls[u] == VoteHandled(Some(Grant(true, LogLength(s.nodes[u]))), InFlight)
    {
      assert MayVote(s, id, {u});
      VoterFollows(s, id, u);
    }
    hide Voting, LogLength, Follows;
  }

  /** Enough voters at once make a campaign reach its quorum, whatever else it has. */
  lemma VotersReach(s: State, id: CampaignId, voters: set<Addr>)
    requires id in s.campaigns && s.nodes != map[] && |voters| >= QuorumOf(s)
    requires forall u :: u in voters ==> HasGranted(s, id, u)
    ensures ReachesQuorum(s, id)
  {
    assert voters <= Granters(s.campaigns[id]) by {
      forall u | u in voters ensures u in Granters(s.campaigns[id]) { assert HasGranted(s, id, u); }
    }
    Q.SubsetSize(voters, Granters(s.campaigns[id]));
  }

  lemma StandingGrants(s: State, v: Addr, voters: set<Addr>)
    requires Electable(s, v, voters)
    ensures Granting(Standing(s, v), CampaignOf(s, v), voters)
    ensures Standing(s, v).campaigns == s.campaigns[CampaignOf(s, v) := Standing(s, v).campaigns[CampaignOf(s, v)]]
    ensures Standing(s, v).nodes == s.nodes[v := BeginCampaign(s.nodes[v].(role := CANDIDATE))]
    ensures var c := Standing(s, v).campaigns[CampaignOf(s, v)];
            c.tally == 0 && c.status == Tallying && c.logIndex == LogLength(s.nodes[v])
    ensures Standing(s, v).rounds == s.rounds && Standing(s, v).writes == s.writes
    ensures Standing(s, v).sessions == s.sessions && Standing(s, v).heartbeats == s.heartbeats
  {
    assert s.nodes[v].(role := CANDIDATE).log == s.nodes[v].log;
  }

  /** The nodes once v leads: its voters follow it, the others have heard nothing. */
  ghost function Elected(s: State, v: Addr, voters: set<Addr>): map<Addr, Node>
    requires v in s.nodes
  {
    Followed(s, v, s.nodes[v].term + 1, voters)[v := s.nodes[v].(term := s.nodes[v].term + 1, role := LEADER, electing := None)]
  }

  ghost predicate OnlyElected(s: State, t: State, v: Addr, voters: set<Addr>)
    requires v in s.nodes
  {
    var id := CampaignOf(s, v);
    && t.nodes == Elected(s, v, voters)
    && t.rounds == s.rounds && t.writes == s.writes && t.sessions == s.sessions && t.heartbeats == s.heartbeats
    && t.campaigns.Keys == s.campaigns.Keys + {id} && ReachesQuorum(t, id)
    && t.campaigns[id].logIndex == LogLength(s.nodes[v])
  }

  /** The campaign has been won, and its candidate has not been told yet. */
  ghost predicate Won(s: State, t: State, v: Addr, voters: set<Addr>)
    requires v in s.nodes
  {
    var id := CampaignOf(s, v);
    && t.nodes == Followed(s, v, id.term, voters)[v := BeginCampaign(s.nodes[v].(role := CANDIDATE))]
    && t.rounds == s.rounds && t.writes == s.writes && t.sessions == s.sessions && t.heartbeats == s.heartbeats
    && t.campaigns.Keys == s.campaigns.Keys + {id} && ReachesQuorum(t, id)
    && t.campaigns[id].status == Passed && t.campaigns[id].logIndex == LogLength(s.nodes[v])
  }

  lemma VotesHeard(s: State, v: Addr, voters: set<Addr>)
    requires Electable(s, v, voters) && Granting(Standing(s, v), CampaignOf(s, v), voters)
    ensures MayHear(AllVoted(Standing(s, v), CampaignOf(s, v), voters), CampaignOf(s, v), voters)
  {
    StandingGrants(s, v, voters);
    AllFollow(Standing(s, v), CampaignOf(s, v), voters);
    SameQuorum(s, Standing(s, v));
    hide Standing, LogLength;
    SameQuorum(Standing(s, v), AllVoted(Standing(s, v), CampaignOf(s, v), voters));
  }

  lemma TallyPasses(s: State, id: CampaignId, voters: set<Addr>)
    requires Granting(s, id, voters) && MayHear(AllVoted(s, id, voters), id, voters)
    requires s.campaigns[id].tally == 0 && |voters| == QuorumOf(AllVoted(s, id, voters)) > 0
    ensures var t := AllHeard(AllVoted(s, id, voters), id, voters);
            && t.nodes == Followed(s, id.candidate, id.term, voters)
            && t.rounds == s.rounds && t.writes == s.writes && t.sessions == s.sessions && t.heartbeats == s.heartbeats
            && t.campaigns.Keys == s.campaigns.Keys && ReachesQuorum(t, id)
            && t.campaigns[id].status == Passed && t.campaigns[id].logIndex == s.campaigns[id].logIndex
  {
    AllFollow(s, id, voters);
    hide LogLength, Voting, Follows;
    var t := AllHeard(AllVoted(s, id, voters), id, voters);
    forall u | u in voters
      ensures HasGranted(t, id, u)
    {
    }
    VotersReach(t, id, voters);
  }

  lemma TalliedPasses(s: State, v: Addr, voters: set<Addr>)
    requires Electable(s, v, voters) && Granting(Standing(s, v), CampaignOf(s, v), voters)
    requires MayHear(AllVoted(Standing(s, v), CampaignOf(s, v), voters), CampaignOf(s, v), voters)
    ensures Won(s, AllHeard(AllVoted(Standing(s, v), CampaignOf(s, v), voters), CampaignOf(s, v), voters), v, voters)
  {
    var id, m := CampaignOf(s, v), Standing(s, v);
    StandingGrants(s, v, voters);
    SameQuorum(s, m);
    assert v in m.nodes;
    hide Standing, LogLength, Voting;
    assert AllVoted(m, id, voters).nodes.Keys == m.nodes.Keys;
    SameQuorum(m, AllVoted(m, id, voters));
    hide AllVoted, AllHeard;
    TallyPasses(m, id, voters);
    hide BeginCampaign, Followed, Granting, ReachesQuorum, QuorumOf, MayHear, MayVote, Electable;
    FollowedElsewhere(s, m, v, BeginCampaign(s.nodes[v].(role := CANDIDATE)), id.term, voters);
  }

  lemma FollowedElsewhere(s: State, t: State, v: Addr, n: Node, term: int, voters: set<Addr>)
    requires v in s.nodes && v !in voters && t.nodes == s.nodes[v := n]
    ensures Followed(t, v, term, voters) == Followed(s, v, term, voters)[v := n]
  {
    hide Follows;
  }

  lemma WinnerLeads(s: State, t: State, v: Addr, voters: set<Addr>)
    requires v in s.nodes && Won(s, t, v, voters)
    ensures Enabled(t, TakeElectionResult(v)) && OnlyElected(s, Apply(t, TakeElectionResult(v)), v, voters)
  {
    hide LogLength, Followed, QuorumOf;
    var e := Apply(t, TakeElectionResult(v));
    SameQuorum(t, e);
    assert e.nodes == Elected(s, v, voters);
  }

  lemma Elect(members: set<Addr>, p: Play, v: Addr, voters: set<Addr>, lead: Addr) returns (q: Play)
    requires Legal(members, p) && Electable(Last(p), v, voters)
    ensures Continues(members, p, q, lead, v == lead) && OnlyElected(Last(p), Last(q), v, voters)
  {
    var c := Win(members, p, v, voters, lead);
    ContinuesLegal(members, p, c, lead, true);
    WinnerLeads(Last(p), Last(c), v, voters);
    assert v == lead ==> Disciplined(Last(c), TakeElectionResult(v), lead);
    hide Enabled, Apply, Continues, OnlyElected, Won, Electable, Disciplined;
    q := Go(members, c, TakeElectionResult(v), lead);
    ContinuesOn(members, p, c, q, lead, true, Disciplined(Last(c), TakeElectionResult(v), lead));
    ContinuesLess(members, p, q, lead, Disciplined(Last(c), TakeElectionResult(v), lead), v == lead);
  }

  lemma Win(members: set<Addr>, p: Play, v: Addr, voters: set<Addr>, lead: Addr) returns (q: Play)
    requires Legal(members, p) && Electable(Last(p), v, voters)
    ensures Continues(members, p, q, lead, true) && Won(Last(p), Last(q), v, voters)
    ensures StartsSecond(p, q, v)
  {
    var s, id := Last(p), CampaignOf(Last(p), v);
    hide Legal, Continues, Won, Standing, AllVoted, AllHeard, MayHear, StartsSecond;
    var a := Stand(members, p, v, lead);
    ContinuesLegal(members, p, a, lead, true);
    StandingGrants(s, v, voters);
    var b := VoteAll(members, a, id, voters, lead);
    ContinuesLegal(members, a, b, lead, true);
    VotesHeard(s, v, voters);
    q := HearAll(members, b, id, voters, lead);
    TalliedPasses(s, v, voters);
    ContinuesOn(members, p, a, b, lead, true, true);
    ContinuesOn(members, p, b, q, lead, true, true);
    StartsStill(members, p, a, b, v, lead);
    StartsStill(members, p, b, q, v, lead);
  }

  lemma ContinuesLess(members: set<Addr>, p: Play, q: Play, lead: Addr, calm: bool, calmer: bool)
    requires Continues(members, p, q, lead, calm) && (calmer ==> calm)
    ensures Continues(members, p, q, lead, calmer)
  {
    hide Legal, Calm;
  }

  // ----- a whole commit

  /** A leader whose followers have its term and its length, enough of them for a quorum, and a real object. */
  ghost predicate Committable(s: State, v: Addr, x: KubeCmd, followers: set<Addr>) {
    && v in s.nodes && s.nodes[v].role == LEADER && x != EMPTY_CMD
    && followers <= Peers(s, v) && |followers| == QuorumOf(s) > 0
    && forall u :: u in followers ==>
      && s.nodes[u].role != LEADER && s.nodes[v].term <= s.nodes[u].term
      && LogLength(s.nodes[u]) == LogLength(s.nodes[v])
  }

  ghost function WithRound(s: State, rid: nat, r: Round): State {
    s.(rounds := s.rounds[rid := r])
  }

  lemma Submit(members: set<Addr>, p: Play, v: Addr, x: KubeCmd, lead: Addr) returns (q: Play, rid: nat)
    requires Legal(members, p) && v in Last(p).nodes && Last(p).nodes[v].role == LEADER && x != EMPTY_CMD
    ensures Continues(members, p, q, lead, true) && rid !in Last(p).rounds
    ensures Last(q) == WithRound(Last(p), rid, NewRound(Last(p), v, x, NoConn))
  {
    rid := UnusedId(Last(p).rounds.Keys + Last(p).writes.Keys);
    var lookup := SomeLookup(Last(p).nodes[v], v);
    hide LogLength, Continues;
    var step := SubmitCommit(v, x, rid, lookup);
    assert Disciplined(Last(p), step, lead);
    q := Go(members, p, step, lead);
  }

  lemma RoundOpens(s: State, v: Addr, x: KubeCmd, followers: set<Addr>, rid: nat)
    requires Committable(s, v, x, followers)
    ensures MayConfirmAll(WithRound(s, rid, NewRound(s, v, x, NoConn)), rid, followers)
  {
    hide LogLength;
  }

  ghost predicate Ready(s: State, t: State, v: Addr, x: KubeCmd, rid: nat) {
    && v in s.nodes && rid in t.rounds
    && var r := t.rounds[rid];
       && t == WithRound(s, rid, r) && r.status == Accepted && r.origin == NoConn
       && r.leader == v && r.cmd == x && r.logIndex == LogLength(s.nodes[v])
  }

  lemma RoundCloses(s: State, v: Addr, x: KubeCmd, followers: set<Addr>, rid: nat)
    requires Committable(s, v, x, followers)
    requires MayConfirmAll(WithRound(s, rid, NewRound(s, v, x, NoConn)), rid, followers)
    ensures var confirmed := AllConfirmed(WithRound(s, rid, NewRound(s, v, x, NoConn)), rid, followers);
            && MayAccept(confirmed, rid, followers)
            && Ready(s, AllAccepted(confirmed, rid, followers), v, x, rid)
  {
    hide LogLength;
    var confirmed := AllConfirmed(WithRound(s, rid, NewRound(s, v, x, NoConn)), rid, followers);
    assert confirmed.nodes == s.nodes && QuorumOf(confirmed) == QuorumOf(s);
    assert MayAccept(confirmed, rid, followers);
    assert AllAccepted(confirmed, rid, followers).rounds == s.rounds[rid := AllAccepted(confirmed, rid, followers).rounds[rid]];
  }

  lemma Prepare(members: set<Addr>, p: Play, v: Addr, x: KubeCmd, followers: set<Addr>, lead: Addr)
    returns (q: Play, rid: nat)
    requires Legal(members, p) && Committable(Last(p), v, x, followers)
    ensures Continues(members, p, q, lead, true) && Ready(Last(p), Last(q), v, x, rid) && rid !in Last(p).rounds
  {
    var a: Play;
    a, rid := Submit(members, p, v, x, lead);
    ContinuesLegal(members, p, a, lead, true);
    RoundOpens(Last(p), v, x, followers, rid);
    hide Legal, Continues, MayConfirmAll, MayAccept, AllConfirmed, AllAccepted, WithRound, NewRound, Ready;
    var b := ConfirmAll(members, a, rid, followers, lead);
    ContinuesLegal(members, a, b, lead, true);
    RoundCloses(Last(p), v, x, followers, rid);
    q := AcceptAll(members, b, rid, followers, lead);
    ContinuesOn(members, p, a, b, lead, true, true);
    ContinuesOn(members, p, b, q, lead, true, true);
  }

  /** After the commit only the leader's log has changed, and only the round is new. */
  ghost predicate OnlyStored(s: State, t: State, v: Addr, x: KubeCmd) {
    && v in s.nodes && t.nodes == s.nodes[v := AddCommit(s.nodes[v], x)]
    && t.campaigns == s.campaigns && t.writes == s.writes && t.sessions == s.sessions && t.heartbeats == s.heartbeats
  }

  /** Earlier rounds are still as they were. */
  ghost predicate RoundsKept(s: State, t: State) {
    forall rid :: rid in s.rounds ==> rid in t.rounds && t.rounds[rid] == s.rounds[rid]
  }

  lemma Stores(s: State, t: State, v: Addr, x: KubeCmd, rid: nat, lead: Addr)
    requires Ready(s, t, v, x, rid)
    ensures Enabled(t, CommitRound(rid)) && OnlyStored(s, Apply(t, CommitRound(rid)), v, x)
    ensures Disciplined(t, CommitRound(rid), lead)
    ensures rid !in s.rounds ==> RoundsKept(s, Apply(t, CommitRound(rid)))
  {
    hide LogLength;
  }

  /** The leader commits x; `ready` ends just before it does. */
  lemma Commit(members: set<Addr>, p: Play, v: Addr, x: KubeCmd, followers: set<Addr>, lead: Addr)
    returns (ready: Play, q: Play, rid: nat)
    requires Legal(members, p) && Committable(Last(p), v, x, followers)
    ensures Continues(members, p, ready, lead, true) && Continues(members, ready, q, lead, true)
    ensures Ready(Last(p), Last(ready), v, x, rid) && OnlyStored(Last(p), Last(q), v, x) && RoundsKept(Last(p), Last(q))
    ensures |q.steps| == |ready.steps| + 1 && q.steps[|ready.steps|] == CommitRound(rid)
  {
    hide Continues, OnlyStored, Committable, Disciplined, Enabled, Apply, Ready, RoundsKept;
    ready, rid := Prepare(members, p, v, x, followers, lead);
    ContinuesLegal(members, p, ready, lead, true);
    Stores(Last(p), Last(ready), v, x, rid, lead);
    q := Go(members, ready, CommitRound(rid), lead);
  }
}
