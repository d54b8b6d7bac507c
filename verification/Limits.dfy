/**
 * Exactly when the promises one might expect hold. Runs of any number of clusters, built from whole
 * elections and commits, show that the conditions proved sufficient elsewhere are also necessary.
 */
module Limits {
  import opened Basics
  import opened NodeSteps
  import opened Protocol
  import opened Elections
  import opened ElectionTheorems
  import opened Durability
  import opened Shape
  import opened SingleLeader
  import opened Runs
  import Q = Quorum

  const X := KubeCmd(1, "deployment", "")
  const Y := KubeCmd(2, "", "service")

  // ----- the cast

  /** a will lead first, with b among a quorum of followers. */
  ghost predicate Cast(members: set<Addr>, a: Addr, b: Addr, followers: set<Addr>) {
    a in members && b in followers && followers <= members - {a} && |followers| == |members| / 2
  }

  lemma ChooseCast(members: set<Addr>) returns (a: Addr, b: Addr, followers: set<Addr>)
    requires |members| >= 2
    ensures Cast(members, a, b, followers)
  {
    a :| a in members;
    assert |members - {a}| == |members| - 1;
    followers := Q.SubsetOfSize(members - {a}, |members| / 2);
    b :| b in followers;
  }

  /** With three or more there are voters enough besides a and b. */
  lemma ChooseOthers(members: set<Addr>, a: Addr, b: Addr, followers: set<Addr>) returns (others: set<Addr>)
    requires |members| >= 3 && Cast(members, a, b, followers)
    ensures others <= members - {a, b} && |others| == |members| / 2
  {
    assert {a, b} <= members && |{a, b}| == 2;
    assert |members - {a, b}| == |members| - |{a, b}|;
    others := Q.SubsetOfSize(members - {a, b}, |members| / 2);
  }

  // ----- a is elected and commits X; its followers confirm without storing it

  ghost predicate AfterCommit(s: State, members: set<Addr>, a: Addr, followers: set<Addr>) {
    && s.nodes.Keys == members && a in members
    && s.nodes[a] == FRESH_NODE.(term := 1, role := LEADER, log := [X], toCluster := multiset{X})
    && (forall u :: u in followers && u in members ==> s.nodes[u] == Follows(FRESH_NODE, a, 1))
    && (forall u :: u in members && u !in followers && u != a ==> s.nodes[u] == FRESH_NODE)
    && s.writes == map[] && s.sessions == map[] && s.heartbeats == {}
    && s.campaigns.Keys == {CampaignId(a, 1)}
  }

  lemma Lengths(n: Node)
    ensures n.log == [] ==> LogLength(n) == 0
    ensures n.log == [X] ==> LogLength(n) == 1
  {
    if n.log == [X] { CountedLengthIsLength(n.log); }
  }

  lemma MembersQuorum(s: State, members: set<Addr>)
    requires s.nodes.Keys == members && members != {}
    ensures s.nodes != map[] && QuorumOf(s) == |members| / 2
  {
    var v :| v in members;
    assert v in s.nodes;
    assert |s.nodes| == |s.nodes.Keys|;
  }

  lemma FirstElection(members: set<Addr>, a: Addr, b: Addr, followers: set<Addr>)
    returns (p: Play)
    requires |members| >= 2 && Cast(members, a, b, followers)
    ensures Legal(members, p) && Calm(p, a) && OnlyElected(Init(members), Last(p), a, followers)
  {
    var start := Beginning(members, a);
    MembersQuorum(Init(members), members);
    p := Elect(members, start, a, followers, a);
  }

  lemma FirstCommit(members: set<Addr>, a: Addr, b: Addr, followers: set<Addr>)
    returns (ready: Play, p: Play, rid: nat)
    requires |members| >= 2 && Cast(members, a, b, followers)
    ensures Legal(members, ready) && Continues(members, ready, p, a, true) && Calm(ready, a)
    ensures AfterCommit(Last(p), members, a, followers)
    ensures rid in Last(ready).rounds && Last(ready).campaigns == Last(p).campaigns
    ensures Last(ready).rounds[rid].leader == a && Last(ready).rounds[rid].logIndex == 0 && Last(ready).rounds[rid].cmd == X
    ensures |p.steps| == |ready.steps| + 1 && p.steps[|ready.steps|] == CommitRound(rid)
  {
    var e := FirstElection(members, a, b, followers);
    ElectedCommits(members, a, followers, Last(e));
    ready, p, rid := Commit(members, e, a, X, followers, a);
    CommittedState(members, a, followers, Last(e), Last(p));
    Lengths(Last(e).nodes[a]);
  }

  lemma ElectedCommits(members: set<Addr>, a: Addr, followers: set<Addr>, s: State)
    requires a in members && followers <= members - {a} && |followers| == |members| / 2 > 0
    requires OnlyElected(Init(members), s, a, followers)
    ensures Committable(s, a, X, followers) && s.nodes[a].log == []
  {
    assert s.nodes.Keys == members;
    MembersQuorum(s, members);
    assert forall u :: u in followers ==> s.nodes[u].log == s.nodes[a].log == [];
  }

  lemma CommittedState(members: set<Addr>, a: Addr, followers: set<Addr>, e: State, s: State)
    requires a in members && followers <= members - {a}
    requires OnlyElected(Init(members), e, a, followers) && OnlyStored(e, s, a, X)
    ensures AfterCommit(s, members, a, followers)
  {
    hide LogLength;
  }

  // ----- b, which confirmed X without storing it, is elected by others that never stored it either

  lemma RivalIsElectable(s: State, members: set<Addr>, a: Addr, b: Addr, followers: set<Addr>, others: set<Addr>)
    requires AfterCommit(s, members, a, followers) && Cast(members, a, b, followers)
    requires others <= members - {a, b} && |others| == |members| / 2
    ensures Electable(s, b, others) && s.nodes[b].log == [] && s.nodes[b].term == 1
  {
    MembersQuorum(s, members);
    Lengths(FRESH_NODE);
    forall u | u in others + {b}
      ensures s.nodes[u].term <= 1 && s.nodes[u].log == []
    {
      assert u in followers || s.nodes[u] == FRESH_NODE;
    }
    hide QuorumOf;
  }

  lemma AfterCommitLeader(s: State, members: set<Addr>, a: Addr, followers: set<Addr>)
    requires AfterCommit(s, members, a, followers)
    ensures s.nodes.Keys == members && a in members && s.nodes[a].log == [X]
  {
  }

  lemma AfterCommitOther(s: State, members: set<Addr>, a: Addr, followers: set<Addr>, u: Addr)
    requires AfterCommit(s, members, a, followers) && u in members && u != a
    ensures u in s.nodes && s.nodes[u].log == []
    ensures s.nodes[u].term <= 1 && s.nodes[u].role == MEMBER && s.nodes[u].electing == None && s.nodes[u].leaders <= {a}
  {
    assert u in followers || s.nodes[u] == FRESH_NODE;
  }

  /** Where three plays that continue each other are found in the last one. */
  lemma PlayIndices(members: set<Addr>, ready: Play, stored: Play, won: Play, lead: Addr, calm: bool)
    requires Legal(members, ready) && Continues(members, ready, stored, lead, true) && Continues(members, stored, won, lead, calm)
    requires |stored.steps| == |ready.steps| + 1
    ensures |won.trace| == |won.steps| + 1 && |ready.steps| < |won.steps|
    ensures won.trace[|ready.steps|] == Last(ready) && won.trace[|ready.steps| + 1] == Last(stored)
    ensures won.trace[|won.steps|] == Last(won) && won.steps[|ready.steps|] == stored.steps[|ready.steps|]
  {
    hide Enabled, Apply, Calm;
  }

  /** a commits X while its followers confirm and store nothing; then b's campaign for the next term gathers a quorum. */
  lemma RivalWins(members: set<Addr>)
    returns (a: Addr, b: Addr, followers: set<Addr>, others: set<Addr>, ready: Play, stored: Play, won: Play, rid: nat)
    requires |members| >= 3
    ensures Cast(members, a, b, followers) && others <= members - {a, b} && |others| == |members| / 2
    ensures Legal(members, ready) && Continues(members, ready, stored, a, true) && Continues(members, stored, won, a, true)
    ensures |stored.steps| == |ready.steps| + 1 && stored.steps[|ready.steps|] == CommitRound(rid)
    ensures rid in Last(ready).rounds && Last(ready).campaigns.Keys == {CampaignId(a, 1)}
    ensures Last(ready).rounds[rid].leader == a && Last(ready).rounds[rid].logIndex == 0 && Last(ready).rounds[rid].cmd == X
    ensures |stored.trace| > 0 && |won.trace| > 0
    ensures AfterCommit(Last(stored), members, a, followers)
    ensures b in Last(stored).nodes && Won(Last(stored), Last(won), b, others) && StartsSecond(stored, won, b)
    ensures Calm(won, a)
  {
    a, b, followers := ChooseCast(members);
    others := ChooseOthers(members, a, b, followers);
    ready, stored, rid := FirstCommit(members, a, b, followers);
    ContinuesLegal(members, ready, stored, a, true);
    RivalIsElectable(Last(stored), members, a, b, followers, others);
    assert Last(ready).campaigns.Keys == {CampaignId(a, 1)};
    hide Electable, AfterCommit, Won, StartsSecond, Calm;
    won := Win(members, stored, b, others, a);
  }

  lemma RivalIsShort(s: State, t: State, members: set<Addr>, a: Addr, b: Addr, followers: set<Addr>, others: set<Addr>)
    requires AfterCommit(s, members, a, followers) && Cast(members, a, b, followers)
    requires b in s.nodes && Won(s, t, b, others)
    ensures var id := CampaignId(b, 2);
            && id != CampaignId(a, 1) && ReachesQuorum(t, id) && t.campaigns[id].logIndex == 0
            && b in t.nodes && t.nodes[b].log == []
    ensures a in s.nodes && s.nodes[a].log == [X] && LogLength(s.nodes[a]) == 1
  {
    Lengths(s.nodes[b]);
    Lengths(s.nodes[a]);
    hide LogLength, ReachesQuorum;
  }

  /**
   * The guarantee lags by one and cannot be improved: for three or more clusters there is a run in which
   * a later winner has exactly as many entries as the confirmations vouched for, without the committed one.
   */
  lemma LagOneIsTight(members: set<Addr>)
    returns (trace: seq<State>, steps: seq<Step>, i: nat, j: nat, rid: nat, id: CampaignId)
    requires |members| >= 3
    ensures Run(members, trace, steps) && CommitThenWin(trace, steps, i, j, rid, id)
    ensures var r := trace[i].rounds[rid];
            && r.leader in trace[i + 1].nodes && r.cmd in trace[i + 1].nodes[r.leader].log
            && trace[j].campaigns[id].logIndex == r.logIndex < LogLength(trace[i + 1].nodes[r.leader])
            && id.candidate in trace[j].nodes && r.cmd !in trace[j].nodes[id.candidate].log
  {
    hide LogLength, AfterCommit, Won, Calm, StartsSecond, Cast, Continues, ReachesQuorum;
    var a, b, followers, others, ready, stored, won, k := RivalWins(members);
    PlayIndices(members, ready, stored, won, a, true);
    RivalIsShort(Last(stored), Last(won), members, a, b, followers, others);
    ContinuesLegal(members, stored, won, a, true);
    trace, steps, i, j, rid, id := won.trace, won.steps, |ready.steps|, |won.steps|, k, CampaignId(b, 2);
    hide Run;
    assert trace[i] == Last(ready) && trace[i + 1] == Last(stored) && trace[j] == Last(won);
    assert CommitThenWin(trace, steps, i, j, rid, id);
    hide CommitThenWin;
  }

  /** In every run, each later campaign that gathers a quorum advertises the length a leader has after a commit. */
  ghost predicate LengthsSurvive(members: set<Addr>) {
    forall trace, steps, i, j, rid, id :: Run(members, trace, steps) && CommitThenWin(trace, steps, i, j, rid, id)
      ==> LengthSurvives(trace, i, j, rid, id)
  }

  /** That is so for one or two clusters, and for no larger number. */
  lemma LengthsSurviveIffTwo(members: set<Addr>)
    requires members != {}
    ensures LengthsSurvive(members) <==> |members| <= 2
  {
    hide Run, CommitThenWin, LogLength;
    if |members| <= 2 {
      forall trace, steps, i, j, rid, id | Run(members, trace, steps) && CommitThenWin(trace, steps, i, j, rid, id)
        ensures LengthSurvives(trace, i, j, rid, id)
      {
        LengthSurvivesOfTwo(members, trace, steps, i, j, rid, id);
      }
    } else {
      var trace, steps, i, j, rid, id := LagOneIsTight(members);
      assert !LengthSurvives(trace, i, j, rid, id);
    }
  }

  // ----- or a refuses b, and both try again in one and the same term

  ghost predicate Refused(s: State, t: State, a: Addr, b: Addr) {
    && a in s.nodes && b in s.nodes && a != b && CampaignId(b, 2) in t.campaigns
    && a in t.nodes && t.nodes == s.nodes[b := BeginCampaign(s.nodes[b].(role := CANDIDATE))][a := t.nodes[a]]
    && t.nodes[a].log == s.nodes[a].log
    && t.nodes[a].term == 2 && t.nodes[a].role == MEMBER && t.nodes[a].electing == None
  }

  /** a has the longer log, so it enters the term without granting, and b's tally runs out of time. */
  lemma LeaderRefuses(s: State, members: set<Addr>, a: Addr, b: Addr, followers: set<Addr>)
    requires AfterCommit(s, members, a, followers) && Cast(members, a, b, followers)
    requires b in s.nodes && s.nodes[b].log == [] && s.nodes[b].term == 1
    ensures var m, id := Standing(s, b), CampaignId(b, 2);
            && Enabled(m, HandleVoteRequest(id, a))
            && var t := Apply(m, HandleVoteRequest(id, a));
               Refused(s, t, a, b) && t.campaigns[id].status == Tallying
  {
    Lengths(s.nodes[a]);
    Lengths(s.nodes[b]);
    StandingCampaign(s, b);
    var m, id := Standing(s, b), CampaignId(b, 2);
    assert m.nodes[a] == s.nodes[a];
    assert VoteCallIs(m, id, a);
    hide LogLength, Standing;
    OnlyOneVotes(m, id, a);
  }

  lemma StandingCampaign(s: State, v: Addr)
    requires v in s.nodes
    ensures var t, id := Standing(s, v), CampaignOf(s, v);
            && t.nodes == s.nodes[v := BeginCampaign(s.nodes[v].(role := CANDIDATE))]
            && t.campaigns == s.campaigns[id := t.campaigns[id]] && id in t.campaigns
            && t.campaigns[id].status == Tallying && t.campaigns[id].logIndex == LogLength(s.nodes[v])
            && t.campaigns[id].calls.Keys == Peers(s, v)
            && forall u :: u in Peers(s, v) ==> t.campaigns[id].calls[u] == VoteSent
  {
    assert s.nodes[v].(role := CANDIDATE).log == s.nodes[v].log;
  }

  /** Both rivals ask for the votes of one term, a with the longer log. */
  ghost predicate BothAsk(s: State, a: Addr, b: Addr, others: set<Addr>) {
    && a in s.nodes && b in s.nodes && a != b && a !in others && b !in others
    && MayVote(s, CampaignId(a, 3), others) && MayVote(s, CampaignId(b, 3), others)
    && s.campaigns[CampaignId(a, 3)].logIndex == 1 && s.campaigns[CampaignId(b, 3)].logIndex == 0
    && forall u :: u in others ==> s.nodes[u].term <= 1 && s.nodes[u].log == []
  }

  /** a is a member again and b still a candidate, both in term 2 with nothing pending. */
  ghost predicate Restless(s: State, t: State, a: Addr, b: Addr) {
    && a in s.nodes && b in s.nodes && a != b && a in t.nodes
    && t.nodes == s.nodes[b := s.nodes[b].(role := CANDIDATE, term := 2, electing := None)][a := t.nodes[a]]
    && t.nodes[a].log == s.nodes[a].log
    && t.nodes[a].term == 2 && t.nodes[a].role == MEMBER && t.nodes[a].electing == None
  }

  lemma TimeRunsOut(s: State, t: State, a: Addr, b: Addr)
    requires Refused(s, t, a, b) && t.campaigns[CampaignId(b, 2)].status == Tallying && s.nodes[b].term == 1
    ensures Enabled(t, ElectionTimeout(CampaignId(b, 2)))
    ensures var late := Apply(t, ElectionTimeout(CampaignId(b, 2)));
            && Enabled(late, TakeElectionResult(b))
            && var e := Apply(late, TakeElectionResult(b));
               Enabled(e, StartCampaign(b)) && Restless(s, e, a, b)
  {
    hide LogLength;
  }

  lemma Refusal(members: set<Addr>, p: Play, a: Addr, b: Addr, followers: set<Addr>) returns (q: Play)
    requires Legal(members, p) && AfterCommit(Last(p), members, a, followers) && Cast(members, a, b, followers)
    ensures Legal(members, q) && Refused(Last(p), Last(q), a, b) && Last(p).nodes[b].term == 1
    ensures Last(q).campaigns[CampaignId(b, 2)].status == Tallying
  {
    var s, id := Last(p), CampaignId(b, 2);
    AfterCommitOther(s, members, a, followers, b);
    assert s.nodes[b] == Follows(FRESH_NODE, a, 1);
    LeaderRefuses(s, members, a, b, followers);
    hide Enabled, Apply, AfterCommit, Continues, Standing, Run, Calm, Cast, Refused;
    var asked := Stand(members, p, b, a);
    ContinuesLegal(members, p, asked, a, true);
    q := GoOn(members, asked, HandleVoteRequest(id, a), a);
    ContinuesLegal(members, asked, q, a, true);
  }

  lemma Retry(members: set<Addr>, p: Play, a: Addr, b: Addr, followers: set<Addr>) returns (q: Play)
    requires Legal(members, p) && AfterCommit(Last(p), members, a, followers) && Cast(members, a, b, followers)
    ensures Legal(members, q) && Enabled(Last(q), StartCampaign(b)) && Restless(Last(p), Last(q), a, b)
  {
    hide Enabled, Apply, AfterCommit, Continues, Calm, Disciplined, Cast, Restless, Refused;
    var refused := Refusal(members, p, a, b, followers);
    TimeRunsOut(Last(p), Last(refused), a, b);
    var late := GoOn(members, refused, ElectionTimeout(CampaignId(b, 2)), a);
    ContinuesLegal(members, refused, late, a, true);
    q := Go(members, late, TakeElectionResult(b), a);
    ContinuesLegal(members, late, q, a, Disciplined(Last(late), TakeElectionResult(b), a));
  }

  /** b has asked for votes in term 3, and a may still do so. */
  ghost predicate OneAsks(s: State, a: Addr, b: Addr, others: set<Addr>) {
    && a in s.nodes && b in s.nodes && a != b && a !in others && b !in others
    && s.nodes[a].term == 2 && s.nodes[a].role == MEMBER && s.nodes[a].electing == None && s.nodes[a].log == [X]
    && MayVote(s, CampaignId(b, 3), others) && s.campaigns[CampaignId(b, 3)].logIndex == 0
    && forall u :: u in others ==> u in s.nodes && s.nodes[u].term <= 1 && s.nodes[u].log == []
  }

  lemma RivalAsks(s: State, t: State, members: set<Addr>, a: Addr, b: Addr, followers: set<Addr>, others: set<Addr>)
    requires AfterCommit(s, members, a, followers) && Cast(members, a, b, followers) && others <= members - {a, b}
    requires Restless(s, t, a, b)
    ensures b in t.nodes && OneAsks(Campaigning(t, b), a, b, others) && Campaigning(t, b).nodes.Keys == members
  {
    AfterCommitOther(s, members, a, followers, b);
    Lengths(t.nodes[b]);
    AfterCommitLeader(s, members, a, followers);
    forall u | u in others
      ensures u in s.nodes && s.nodes[u].term <= 1 && s.nodes[u].log == []
    {
      AfterCommitOther(s, members, a, followers, u);
    }
    hide AfterCommit, LogLength, Cast;
  }

  lemma BothStand(s: State, a: Addr, b: Addr, others: set<Addr>)
    requires OneAsks(s, a, b, others)
    ensures BothAsk(Standing(s, a), a, b, others) && Standing(s, a).nodes.Keys == s.nodes.Keys
  {
    Lengths(s.nodes[a]);
    StandingCampaign(s, a);
    hide Standing, LogLength;
  }

  lemma SecondVote(s: State, id: CampaignId, u: Addr)
    requires MayVote(s, id, {u})
    requires s.nodes[u].term == id.term && LogLength(s.nodes[u]) < s.campaigns[id].logIndex
    ensures u in s.campaigns[id].calls && Voting(s, id, u).campaigns[id].calls[u].VoteHandled?
    ensures Voting(s, id, u).campaigns[id].calls[u].grant.Some?
  {
    assert u in {u};
    hide LogLength;
  }

  /** Whoever else asked first, voters in the term with shorter logs all grant. */
  lemma AllVoteAgain(s: State, id: CampaignId, voters: set<Addr>)
    requires MayVote(s, id, voters) && s.nodes != map[] && |voters| == QuorumOf(s)
    requires forall u :: u in voters ==> s.nodes[u].term == id.term && LogLength(s.nodes[u]) < s.campaigns[id].logIndex
    ensures ReachesQuorum(AllVoted(s, id, voters), id)
    ensures forall other :: other != id && ReachesQuorum(s, other) ==> ReachesQuorum(AllVoted(s, id, voters), other)
  {
    forall u | u in voters
      ensures HasGranted(AllVoted(s, id, voters), id, u)
    {
      assert MayVote(s, id, {u});
      SecondVote(s, id, u);
    }
    hide Voting, LogLength;
    assert AllVoted(s, id, voters).nodes.Keys == s.nodes.Keys;
    SameQuorum(s, AllVoted(s, id, voters));
    VotersReach(AllVoted(s, id, voters), id, voters);
  }

  lemma FirstVotes(s: State, a: Addr, b: Addr, others: set<Addr>)
    requires BothAsk(s, a, b, others) && s.nodes != map[] && |others| == QuorumOf(s)
    ensures var t := AllVoted(s, CampaignId(b, 3), others);
            && ReachesQuorum(t, CampaignId(b, 3)) && MayVote(t, CampaignId(a, 3), others)
            && t.nodes.Keys == s.nodes.Keys && t.campaigns[CampaignId(a, 3)].logIndex == 1
            && forall u :: u in others ==> t.nodes[u].term == 3 && t.nodes[u].log == []
  {
    var id := CampaignId(b, 3);
    Lengths(FRESH_NODE);
    assert Granting(s, id, others);
    AllFollow(s, id, others);
    hide Voting, LogLength;
    var t := AllVoted(s, id, others);
    forall u | u in others
      ensures HasGranted(t, id, u)
    {
    }
    SameQuorum(s, t);
    VotersReach(t, id, others);
    assert t.campaigns[CampaignId(a, 3)] == s.campaigns[CampaignId(a, 3)];
  }

  lemma BothWin(members: set<Addr>, p: Play, a: Addr, b: Addr, others: set<Addr>) returns (q: Play)
    requires Legal(members, p) && BothAsk(Last(p), a, b, others)
    requires Last(p).nodes.Keys == members && members != {} && |others| == |members| / 2
    ensures Legal(members, q) && ReachesQuorum(Last(q), CampaignId(a, 3)) && ReachesQuorum(Last(q), CampaignId(b, 3))
  {
    MembersQuorum(Last(p), members);
    FirstVotes(Last(p), a, b, others);
    var mid := VoteAll(members, p, CampaignId(b, 3), others, a);
    ContinuesLegal(members, p, mid, a, true);
    Lengths(FRESH_NODE);
    MembersQuorum(Last(mid), members);
    hide AllVoted, ReachesQuorum, QuorumOf, LogLength, BothAsk, Continues;
    q := VoteAll(members, mid, CampaignId(a, 3), others, a);
    ContinuesLegal(members, mid, q, a, true);
    assert forall u :: u in others ==> LogLength(Last(mid).nodes[u]) == 0;
    AllVoteAgain(Last(mid), CampaignId(a, 3), others);
  }

  lemma Contest(members: set<Addr>, p: Play, a: Addr, b: Addr, followers: set<Addr>, others: set<Addr>) returns (q: Play)
    requires Legal(members, p) && AfterCommit(Last(p), members, a, followers) && Cast(members, a, b, followers)
    requires others <= members - {a, b}
    ensures Legal(members, q) && BothAsk(Last(q), a, b, others) && Last(q).nodes.Keys == members
  {
    hide Continues, AfterCommit, Enabled, Restless, OneAsks, Calm, Standing, BothAsk;
    var tired := Retry(members, p, a, b, followers);
    RivalAsks(Last(p), Last(tired), members, a, b, followers, others);
    var asking := GoOn(members, tired, StartCampaign(b), a);
    ContinuesLegal(members, tired, asking, a, true);
    BothStand(Last(asking), a, b, others);
    assert a in Last(asking).nodes && Last(asking).nodes[a].role == MEMBER && Last(asking).nodes[a].electing == None by {
      OneAsksFirst(Last(asking), a, b, others);
    }
    q := Stand(members, asking, a, a);
    ContinuesLegal(members, asking, q, a, true);
  }

  lemma OneAsksFirst(s: State, a: Addr, b: Addr, others: set<Addr>)
    requires OneAsks(s, a, b, others)
    ensures a in s.nodes && s.nodes[a].role == MEMBER && s.nodes[a].electing == None
  {
  }

  /** With three or more clusters two candidates can both be granted a quorum in one term. */
  lemma TwoWinnersInOneTerm(members: set<Addr>)
    returns (trace: seq<State>, steps: seq<Step>, a: CampaignId, b: CampaignId)
    requires |members| >= 3
    ensures Run(members, trace, steps) && |trace| == |steps| + 1
    ensures ReachesQuorum(trace[|steps|], a) && ReachesQuorum(trace[|steps|], b)
    ensures a.term == b.term && a != b
  {
    var first, second, followers := ChooseCast(members);
    var others := ChooseOthers(members, first, second, followers);
    var ready, stored, rid := FirstCommit(members, first, second, followers);
    ContinuesLegal(members, ready, stored, first, true);
    hide AfterCommit, Continues, BothAsk, ReachesQuorum, Calm;
    var both := Contest(members, stored, first, second, followers, others);
    var end := BothWin(members, both, first, second, others);
    trace, steps, a, b := end.trace, end.steps, CampaignId(first, 3), CampaignId(second, 3);
  }

  /** In every run, each term has at most one campaign that gathers a quorum. */
  ghost predicate OneWinnerPerTerm(members: set<Addr>) {
    forall trace, steps, i, a, b :: Run(members, trace, steps) && BothGather(trace, i, a, b) && a.term == b.term ==> a == b
  }

  ghost predicate BothGather(trace: seq<State>, i: nat, a: CampaignId, b: CampaignId) {
    i < |trace| && ReachesQuorum(trace[i], a) && ReachesQuorum(trace[i], b)
  }

  /** That is so for one or two clusters, and for no larger number. */
  lemma OneWinnerIffTwo(members: set<Addr>)
    requires members != {}
    ensures OneWinnerPerTerm(members) <==> |members| <= 2
  {
    hide Run, ReachesQuorum;
    if |members| <= 2 {
      forall trace, steps, i, a, b | Run(members, trace, steps) && BothGather(trace, i, a, b) && a.term == b.term
        ensures a == b
      {
        if |members| == 2 {
          TwoClustersOneWinner(members, trace, steps, i, a, b);
        } else {
          LonelyWinner(members, trace, steps, i, a, b);
        }
      }
    } else {
      var trace, steps, a, b := TwoWinnersInOneTerm(members);
      assert BothGather(trace, |steps|, a, b);
    }
  }

  lemma LonelyWinner(members: set<Addr>, trace: seq<State>, steps: seq<Step>, i: nat, a: CampaignId, b: CampaignId)
    requires Run(members, trace, steps) && i < |trace| && |members| == 1
    requires ReachesQuorum(trace[i], a) && ReachesQuorum(trace[i], b) && a.term == b.term
    ensures a == b
  {
    ElectionAlways(members, trace, steps, i);
    RunMembers(members, trace, steps, i);
    hide Run;
    assert CampaignOk(trace[i], a) && CampaignOk(trace[i], b);
    Q.SubsetIsWhole({a.candidate}, members);
  }
}
