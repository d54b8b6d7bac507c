/**
 * For how many clusters logs always agree and committed entries always survive, as the code is and with
 * steps that keep to the conditions of agreement under one leader.
 */
module Divergence {
  import opened Basics
  import opened NodeSteps
  import opened Protocol
  import opened Elections
  import opened Durability
  import opened SingleLeader
  import opened Survival
  import opened Runs
  import opened Limits
  import Q = Quorum

  // ----- a run in which a leader commits after another has been elected

  /** No node has stored anything, waits for an election, or is beyond the term. */
  ghost predicate Empty(s: State, members: set<Addr>, term: int) {
    && s.nodes.Keys == members
    && forall u :: u in members ==> s.nodes[u].electing == None && s.nodes[u].log == [] && s.nodes[u].term <= term
  }

  /** v leads in the term, and its followers are members in that term. */
  ghost predicate Leads(s: State, v: Addr, followers: set<Addr>, term: int) {
    && v in s.nodes && s.nodes[v].role == LEADER && s.nodes[v].term == term
    && forall u :: u in followers ==> u in s.nodes && s.nodes[u].role == MEMBER && s.nodes[u].term == term
  }

  ghost predicate Voters(members: set<Addr>, v: Addr, voters: set<Addr>) {
    v in members && voters <= members - {v} && |voters| == |members| / 2 > 0
  }

  lemma EmptyElects(s: State, members: set<Addr>, v: Addr, voters: set<Addr>, term: int)
    requires Empty(s, members, term) && Voters(members, v, voters)
    requires s.nodes[v].role == MEMBER && s.nodes[v].term == term
    ensures Electable(s, v, voters) && CampaignOf(s, v) == CampaignId(v, term + 1)
  {
    MembersQuorum(s, members);
    forall u | u in members
      ensures LogLength(s.nodes[u]) == 0
    {
      Lengths(s.nodes[u]);
    }
    hide LogLength, QuorumOf;
  }

  lemma ElectedNode(s: State, t: State, v: Addr, voters: set<Addr>, u: Addr)
    requires v in s.nodes && v !in voters && u in s.nodes && OnlyElected(s, t, v, voters)
    ensures t.nodes.Keys == s.nodes.Keys && t.nodes[u].log == s.nodes[u].log
    ensures t.nodes[u].electing == if u == v then None else s.nodes[u].electing
    ensures t.nodes[u].term == if u == v || u in voters then s.nodes[v].term + 1 else s.nodes[u].term
    ensures u == v ==> t.nodes[u].role == LEADER
    ensures u in voters ==> t.nodes[u].role == MEMBER
  {
    hide LogLength, ReachesQuorum, QuorumOf;
  }

  lemma ElectedLeads(s: State, t: State, members: set<Addr>, v: Addr, voters: set<Addr>, term: int)
    requires Empty(s, members, term) && Voters(members, v, voters) && s.nodes[v].term == term
    requires OnlyElected(s, t, v, voters)
    ensures Empty(t, members, term + 1) && Leads(t, v, voters, term + 1)
  {
    hide OnlyElected;
    ElectedNode(s, t, v, voters, v);
    forall u | u in members
      ensures t.nodes[u].electing == None && t.nodes[u].log == [] && t.nodes[u].term <= term + 1
      ensures u in voters ==> t.nodes[u].role == MEMBER && t.nodes[u].term == term + 1
    {
      ElectedNode(s, t, v, voters, u);
    }
  }

  lemma LeaderCommits(s: State, members: set<Addr>, v: Addr, followers: set<Addr>, x: KubeCmd, term: int)
    requires Empty(s, members, term) && Leads(s, v, followers, term) && Voters(members, v, followers) && x != EMPTY_CMD
    ensures Committable(s, v, x, followers)
  {
    MembersQuorum(s, members);
    forall u | u in members
      ensures LogLength(s.nodes[u]) == 0
    {
      Lengths(s.nodes[u]);
    }
    hide LogLength, QuorumOf;
  }

  /** a's round has its quorum but is not committed yet. */
  ghost predicate Pending(s: State, a: Addr, rid: nat) {
    && rid in s.rounds && s.rounds[rid].status == Accepted && s.rounds[rid].origin == NoConn
    && s.rounds[rid].leader == a && s.rounds[rid].cmd == X && s.rounds[rid].logIndex == 0
  }

  ghost predicate TwoSides(members: set<Addr>, a: Addr, b: Addr, mine: set<Addr>, theirs: set<Addr>) {
    Voters(members, a, mine) && Voters(members, b, theirs) && b in mine && a in theirs
  }

  lemma ChooseSides(members: set<Addr>) returns (a: Addr, b: Addr, mine: set<Addr>, theirs: set<Addr>)
    requires |members| >= 2
    ensures TwoSides(members, a, b, mine, theirs)
  {
    a, b, mine := ChooseCast(members);
    assert |members - {a} - {b}| == |members| - 2;
    var rest := Q.SubsetOfSize(members - {a} - {b}, |members| / 2 - 1);
    theirs := rest + {a};
  }

  /** v, a member of the latest term, is elected to the next. */
  lemma LeadNext(members: set<Addr>, p: Play, v: Addr, voters: set<Addr>, term: int) returns (q: Play)
    requires Legal(members, p) && Empty(Last(p), members, term) && Voters(members, v, voters)
    requires Last(p).nodes[v].role == MEMBER && Last(p).nodes[v].term == term
    ensures Legal(members, q) && Empty(Last(q), members, term + 1) && Leads(Last(q), v, voters, term + 1)
    ensures Last(q).rounds == Last(p).rounds
    ensures Last(q).campaigns.Keys == Last(p).campaigns.Keys + {CampaignId(v, term + 1)}
  {
    EmptyElects(Last(p), members, v, voters, term);
    hide Continues, Electable, Empty, Leads, Voters;
    q := Elect(members, p, v, voters, v);
    ContinuesLegal(members, p, q, v, v == v);
    ElectedLeads(Last(p), Last(q), members, v, voters, term);
  }

  lemma PrepareNext(members: set<Addr>, p: Play, v: Addr, followers: set<Addr>, term: int) returns (q: Play, rid: nat)
    requires Legal(members, p) && Empty(Last(p), members, term) && Leads(Last(p), v, followers, term)
    requires Voters(members, v, followers)
    ensures Legal(members, q) && Pending(Last(q), v, rid)
    ensures Last(q).nodes == Last(p).nodes && Last(q).campaigns == Last(p).campaigns
  {
    LeaderCommits(Last(p), members, v, followers, X, term);
    Lengths(Last(p).nodes[v]);
    hide Continues, Committable, Empty, Leads, Voters, LogLength;
    q, rid := Prepare(members, p, v, X, followers, v);
    ContinuesLegal(members, p, q, v, true);
    ReadyIsPending(Last(p), Last(q), v, rid);
  }

  /** a's round is accepted, and before a takes the result b is elected, by a among others. */
  lemma Overtake(members: set<Addr>, a: Addr, b: Addr, mine: set<Addr>, theirs: set<Addr>) returns (p: Play, rid: nat)
    requires TwoSides(members, a, b, mine, theirs)
    ensures Legal(members, p) && Empty(Last(p), members, 2) && Leads(Last(p), b, theirs, 2) && Pending(Last(p), a, rid)
    ensures Last(p).campaigns.Keys == {CampaignId(a, 1), CampaignId(b, 2)}
  {
    var start := Beginning(members, a);
    assert Empty(Init(members), members, 0);
    hide Calm, Run;
    var led := LeadNext(members, start, a, mine, 0);
    assert Last(led).nodes[b].role == MEMBER && Last(led).nodes[b].term == 1;
    var ready: Play;
    ready, rid := PrepareNext(members, led, a, mine, 1);
    assert Empty(Last(ready), members, 1);
    hide Empty, Leads;
    p := LeadNext(members, ready, b, theirs, 1);
  }

  lemma ReadyIsPending(s: State, t: State, a: Addr, rid: nat)
    requires Ready(s, t, a, X, rid) && LogLength(s.nodes[a]) == 0
    ensures Pending(t, a, rid) && t.nodes == s.nodes && t.campaigns == s.campaigns
  {
    hide LogLength;
  }

  /** One node holds X and the other Y; a is a member of the latest term. */
  ghost predicate Apart(s: State, members: set<Addr>, a: Addr, b: Addr) {
    && s.nodes.Keys == members && a in members && b in members && a != b
    && s.nodes[a].log == [X] && s.nodes[b].log == [Y]
    && s.nodes[a].role == MEMBER && s.nodes[a].term == 2 && s.nodes[a].electing == None
    && forall u :: u in members ==> s.nodes[u].term <= 2 && (u != a && u != b ==> s.nodes[u].log == [])
  }

  lemma LateStore(s: State, m: State, members: set<Addr>, a: Addr, b: Addr, theirs: set<Addr>, rid: nat)
    requires Empty(s, members, 2) && Leads(s, b, theirs, 2) && a in theirs && a != b && a in members
    requires OnlyStored(s, m, b, Y) && RoundsKept(s, m) && Pending(s, a, rid)
    ensures Enabled(m, CommitRound(rid)) && Apply(m, CommitRound(rid)).campaigns == m.campaigns
    ensures Apart(Apply(m, CommitRound(rid)), members, a, b)
  {
    hide LogLength;
    LateIsReady(s, m, a, b, rid);
    Stores(m, m, a, X, rid, a);
    hide Apply, Enabled, Ready, Pending, RoundsKept;
    BothStored(s, m, Apply(m, CommitRound(rid)), members, a, b, theirs);
  }

  lemma StoredNode(s: State, t: State, v: Addr, x: KubeCmd, u: Addr)
    requires OnlyStored(s, t, v, x) && u in s.nodes
    ensures t.nodes.Keys == s.nodes.Keys && t.campaigns == s.campaigns
    ensures t.nodes[u].log == if u == v then s.nodes[u].log + [x] else s.nodes[u].log
    ensures t.nodes[u].term == s.nodes[u].term && t.nodes[u].role == s.nodes[u].role
    ensures t.nodes[u].electing == s.nodes[u].electing
  {
  }

  lemma BothStored(s: State, m: State, t: State, members: set<Addr>, a: Addr, b: Addr, theirs: set<Addr>)
    requires Empty(s, members, 2) && Leads(s, b, theirs, 2) && a in theirs && a != b && a in members
    requires OnlyStored(s, m, b, Y) && OnlyStored(m, t, a, X)
    ensures Apart(t, members, a, b) && t.campaigns == m.campaigns
  {
    hide OnlyStored;
    StoredNode(s, m, b, Y, a);
    forall u | u in members
      ensures u in t.nodes && t.nodes[u].term == s.nodes[u].term && t.nodes[u].role == s.nodes[u].role
      ensures t.nodes[u].electing == None && t.nodes.Keys == members && t.campaigns == m.campaigns
      ensures t.nodes[u].log == if u == a then [X] else if u == b then [Y] else []
    {
      StoredNode(s, m, b, Y, u);
      StoredNode(m, t, a, X, u);
    }
  }

  lemma LateIsReady(s: State, m: State, a: Addr, b: Addr, rid: nat)
    requires Pending(s, a, rid) && a in s.nodes && s.nodes[a].log == [] && a != b
    requires OnlyStored(s, m, b, Y) && RoundsKept(s, m)
    ensures Ready(m, m, a, X, rid)
  {
    Lengths(m.nodes[a]);
    hide LogLength;
    assert m.rounds[rid := m.rounds[rid]] == m.rounds;
  }

  lemma ApartElects(s: State, members: set<Addr>, a: Addr, b: Addr, voters: set<Addr>)
    requires Apart(s, members, a, b) && Voters(members, a, voters)
    ensures Electable(s, a, voters) && CampaignOf(s, a) == CampaignId(a, 3)
  {
    MembersQuorum(s, members);
    Lengths(s.nodes[a]);
    forall u | u in voters
      ensures LogLength(s.nodes[u]) <= 1
    {
      Lengths(s.nodes[u]);
      if u == b { CountedLengthIsLength(s.nodes[b].log); }
    }
    hide LogLength, QuorumOf;
  }

  /**
   * For any two or more clusters: b commits Y, then a, no longer leader, commits X on confirmations of its
   * own earlier term, and then a wins again without Y. `ready` ends before b's commit, `stored` after it,
   * `apart` after a's, and `won` when a's campaign has its quorum.
   */
  lemma LateCommit(members: set<Addr>)
    returns (a: Addr, b: Addr, ready: Play, stored: Play, apart: Play, won: Play, rid: nat)
    requires |members| >= 2
    ensures Legal(members, ready) && Continues(members, ready, stored, a, true) && Continues(members, stored, won, a, false)
    ensures Legal(members, apart) && Apart(Last(apart), members, a, b)
    ensures |stored.steps| == |ready.steps| + 1 && stored.steps[|ready.steps|] == CommitRound(rid)
    ensures rid in Last(ready).rounds && Last(ready).rounds[rid].leader == b && Last(ready).rounds[rid].cmd == Y
    ensures |stored.trace| > 0 && b in Last(stored).nodes && Last(stored).nodes[b].log == [Y]
    ensures Last(ready).campaigns.Keys == {CampaignId(a, 1), CampaignId(b, 2)}
    ensures |won.trace| > 0 && ReachesQuorum(Last(won), CampaignId(a, 3))
    ensures a in Last(won).nodes && Last(won).nodes[a].log == [X]
  {
    var mine, theirs;
    a, b, mine, theirs := ChooseSides(members);
    var over, late := Overtake(members, a, b, mine, theirs);
    LeaderCommits(Last(over), members, b, theirs, Y, 2);
    assert Last(over).nodes[b].log == [];
    hide Continues, Committable, Electable, Empty, Leads, Voters, Run, Calm, OnlyStored, Ready, Won, Disciplined, Apply, Enabled, Apart;
    ready, stored, rid := Commit(members, over, b, Y, theirs, a);
    ContinuesLegal(members, ready, stored, a, true);
    LateStore(Last(over), Last(stored), members, a, b, theirs, late);
    apart := Go(members, stored, CommitRound(late), a);
    ContinuesLegal(members, stored, apart, a, Disciplined(Last(stored), CommitRound(late), a));
    ApartElects(Last(apart), members, a, b, mine);
    won := Win(members, apart, a, mine, a);
    ContinuesOn(members, stored, apart, won, a, Disciplined(Last(stored), CommitRound(late), a), true);
    ContinuesLess(members, stored, won, a, Disciplined(Last(stored), CommitRound(late), a) && true, false);
    CommitFacts(Last(over), Last(ready), Last(stored), b, rid);
    WonFacts(Last(apart), Last(won), members, a, b, mine);
  }

  lemma CommitFacts(s: State, ready: State, stored: State, b: Addr, rid: nat)
    requires Ready(s, ready, b, Y, rid) && OnlyStored(s, stored, b, Y) && s.nodes[b].log == []
    ensures rid in ready.rounds && ready.rounds[rid].leader == b && ready.rounds[rid].cmd == Y
    ensures ready.campaigns == s.campaigns && b in stored.nodes && stored.nodes[b].log == [Y]
  {
    hide LogLength;
  }

  lemma WonFacts(s: State, t: State, members: set<Addr>, a: Addr, b: Addr, voters: set<Addr>)
    requires Apart(s, members, a, b) && Won(s, t, a, voters)
    ensures ReachesQuorum(t, CampaignId(a, 3)) && a in t.nodes && t.nodes[a].log == [X]
  {
    hide LogLength, ReachesQuorum;
  }

  // ----- logs in general

  /** Two leaders of different terms can commit different entries at one index. */
  lemma RivalLogsDiverge(members: set<Addr>) returns (trace: seq<State>, steps: seq<Step>, u: Addr, v: Addr)
    requires |members| >= 2
    ensures Run(members, trace, steps) && |trace| == |steps| + 1 && u in trace[|steps|].nodes && v in trace[|steps|].nodes
    ensures !Comparable(trace[|steps|].nodes[u].log, trace[|steps|].nodes[v].log)
  {
    var a, b, ready, stored, apart, won, rid := LateCommit(members);
    trace, steps, u, v := apart.trace, apart.steps, a, b;
    hide Continues, Won, ReachesQuorum, Execution;
    Differ();
  }

  ghost predicate AlwaysComparable(members: set<Addr>) {
    forall trace: seq<State>, steps, i: nat, u, v :: Run(members, trace, steps) && BothIn(trace, i, u, v)
      ==> Comparable(trace[i].nodes[u].log, trace[i].nodes[v].log)
  }

  ghost predicate BothIn(trace: seq<State>, i: nat, u: Addr, v: Addr) {
    i < |trace| && u in trace[i].nodes && v in trace[i].nodes
  }

  /** In every run all logs are comparable, if and only if there is a single cluster. */
  lemma AlwaysComparableIffOne(members: set<Addr>)
    requires members != {}
    ensures AlwaysComparable(members) <==> |members| <= 1
  {
    hide Run;
    if |members| <= 1 {
      forall trace: seq<State>, steps, i: nat, u, v | Run(members, trace, steps) && BothIn(trace, i, u, v)
        ensures Comparable(trace[i].nodes[u].log, trace[i].nodes[v].log)
      {
        RunMembers(members, trace, steps, i);
        Q.SubsetIsWhole({u}, members);
      }
    } else {
      var trace, steps, u, v := RivalLogsDiverge(members);
      assert BothIn(trace, |steps|, u, v);
    }
  }

  // ----- the committed entries

  /** The winner's log starts with the leader's log as of the commit. */
  ghost predicate LogSurvives(trace: seq<State>, i: nat, j: nat, rid: nat, v: Addr) {
    && i + 1 < |trace| && j < |trace| && rid in trace[i].rounds && v in trace[j].nodes
    && var leader := trace[i].rounds[rid].leader;
       leader in trace[i + 1].nodes && trace[i + 1].nodes[leader].log <= trace[j].nodes[v].log
  }

  ghost predicate CommitsSurvive(members: set<Addr>) {
    forall trace, steps, i, j, rid, id :: Run(members, trace, steps) && CommitThenWin(trace, steps, i, j, rid, id)
      ==> LogSurvives(trace, i, j, rid, id.candidate)
  }

  /** A later campaign gathers a quorum although its candidate's log lacks the entry committed before. */
  lemma CommitIsLost(members: set<Addr>)
    returns (trace: seq<State>, steps: seq<Step>, i: nat, j: nat, rid: nat, id: CampaignId)
    requires |members| >= 2
    ensures Run(members, trace, steps) && CommitThenWin(trace, steps, i, j, rid, id)
    ensures id.candidate in trace[j].nodes && trace[i].rounds[rid].cmd !in trace[j].nodes[id.candidate].log
    ensures !LogSurvives(trace, i, j, rid, id.candidate)
  {
    var a, b, ready, stored, apart, won, k := LateCommit(members);
    PlayIndices(members, ready, stored, won, a, false);
    ContinuesLegal(members, stored, won, a, false);
    trace, steps, i, j, rid, id := won.trace, won.steps, |ready.steps|, |won.steps|, k, CampaignId(a, 3);
    hide ReachesQuorum, Continues, Apart, Calm, Run;
    Differ();
    assert trace[i] == Last(ready) && trace[i + 1] == Last(stored) && trace[j] == Last(won);
    assert CommitThenWin(trace, steps, i, j, rid, id);
    hide CommitThenWin;
  }

  lemma Differ()
    ensures !([Y] <= [X]) && Y !in [X] && !Comparable([X], [Y])
  {
    assert X != Y && [X][0] == X && [Y][0] == Y;
  }

  lemma LonelySurvival(members: set<Addr>, trace: seq<State>, steps: seq<Step>, i: nat, j: nat, rid: nat, id: CampaignId)
    requires Run(members, trace, steps) && CommitThenWin(trace, steps, i, j, rid, id) && |members| == 1
    ensures LogSurvives(trace, i, j, rid, id.candidate)
  {
    CommitterIsMember(members, trace, steps, i, rid);
    ElectionAlways(members, trace, steps, j);
    RunMembers(members, trace, steps, i + 1);
    RunMembers(members, trace, steps, j);
    RunProgress(trace, steps, i + 1, j);
    hide Run;
    assert CampaignOk(trace[j], id);
    var leader := trace[i].rounds[rid].leader;
    Q.SubsetIsWhole({leader}, members);
  }

  /** In every run each later winner holds what was committed, if and only if there is a single cluster. */
  lemma CommitsSurviveIffOne(members: set<Addr>)
    requires members != {}
    ensures CommitsSurvive(members) <==> |members| <= 1
  {
    hide Run, CommitThenWin, LogSurvives;
    if |members| <= 1 {
      forall trace, steps, i, j, rid, id | Run(members, trace, steps) && CommitThenWin(trace, steps, i, j, rid, id)
        ensures LogSurvives(trace, i, j, rid, id.candidate)
      {
        LonelySurvival(members, trace, steps, i, j, rid, id);
      }
    } else {
      var trace, steps, i, j, rid, id := CommitIsLost(members);
    }
  }

  // ----- the committed entries, when steps keep to the conditions of agreement

  ghost predicate CommitsSurviveDiscipline(members: set<Addr>) {
    forall trace, steps, i, c, j, rid, v :: Run(members, trace, steps) && DisciplinedCampaign(trace, steps, i, c, j, rid, v)
      ==> LogSurvives(trace, i, c, rid, v)
  }

  /** The steps up to the campaign keep to the conditions, for the leader that committed. */
  ghost predicate DisciplinedCampaign(trace: seq<State>, steps: seq<Step>, i: nat, c: nat, j: nat, rid: nat, v: Addr) {
    && CommitThenCampaign(trace, steps, i, c, j, rid, v)
    && DisciplinedUntil(trace, steps, trace[i].rounds[rid].leader, c)
  }

  lemma TwoKeepCommits(members: set<Addr>, trace: seq<State>, steps: seq<Step>, i: nat, c: nat, j: nat, rid: nat, v: Addr)
    requires Run(members, trace, steps) && DisciplinedCampaign(trace, steps, i, c, j, rid, v) && |members| <= 2
    ensures LogSurvives(trace, i, c, rid, v)
  {
    var leader := trace[i].rounds[rid].leader;
    CommitterIsMember(members, trace, steps, i, rid);
    RunMembers(members, trace, steps, i + 1);
    RunProgress(trace, steps, i + 1, c);
    hide Run, DisciplinedUntil;
    WinnerOfTwoKeepsAll(members, trace, steps, c, j, leader, v);
  }

  lemma DisciplineLosesCommit(members: set<Addr>)
    returns (trace: seq<State>, steps: seq<Step>, i: nat, c: nat, j: nat, rid: nat, v: Addr)
    requires |members| >= 3
    ensures Run(members, trace, steps) && DisciplinedCampaign(trace, steps, i, c, j, rid, v)
    ensures !LogSurvives(trace, i, c, rid, v)
  {
    hide AfterCommit, Won, Calm, Cast, Continues, ReachesQuorum, StartsSecond;
    var a, b, followers, others, ready, stored, won, k := RivalWins(members);
    PlayIndices(members, ready, stored, won, a, true);
    RivalIsShort(Last(stored), Last(won), members, a, b, followers, others);
    ContinuesLegal(members, stored, won, a, true);
    ContinuesLegal(members, ready, stored, a, true);
    RivalTerm(Last(stored), members, a, b, followers);
    trace, steps, i, c, j, rid, v := won.trace, won.steps, |ready.steps|, |stored.steps| + 1, |won.steps|, k, b;
    StartFacts(members, stored, won, b);
    CalmUntil(won, a, c);
    hide Run, DisciplinedUntil;
    assert CommitThenCampaign(trace, steps, i, c, j, rid, v);
    assert trace[i + 1].nodes[a].log == [X];
    hide CommitThenCampaign;
  }

  lemma StartFacts(members: set<Addr>, p: Play, q: Play, v: Addr)
    requires StartsSecond(p, q, v) && Legal(members, p) && Last(p).nodes[v].term == 1 && Last(p).nodes[v].log == []
    ensures var c := |p.steps| + 1;
            && c < |q.steps| && c < |q.trace| && q.steps[c] == StartCampaign(v)
            && v in q.trace[c].nodes && q.trace[c].nodes[v].term == 1 && q.trace[c].nodes[v].log == []
  {
  }

  lemma CalmUntil(p: Play, lead: Addr, c: nat)
    requires Calm(p, lead) && c <= |p.steps|
    ensures DisciplinedUntil(p.trace, p.steps, lead, c)
  {
    hide Enabled, Disciplined, Apply;
  }

  lemma RivalTerm(s: State, members: set<Addr>, a: Addr, b: Addr, followers: set<Addr>)
    requires AfterCommit(s, members, a, followers) && Cast(members, a, b, followers)
    ensures b in s.nodes && s.nodes[b].term == 1 && s.nodes[b].log == []
  {
  }

  /** Under the conditions each later winner holds what was committed, if and only if there are at most two clusters. */
  lemma DisciplinedCommitsSurviveIffTwo(members: set<Addr>)
    requires members != {}
    ensures CommitsSurviveDiscipline(members) <==> |members| <= 2
  {
    hide Run, DisciplinedCampaign, LogSurvives;
    if |members| <= 2 {
      forall trace, steps, i, c, j, rid, v | Run(members, trace, steps) && DisciplinedCampaign(trace, steps, i, c, j, rid, v)
        ensures LogSurvives(trace, i, c, rid, v)
      {
        TwoKeepCommits(members, trace, steps, i, c, j, rid, v);
      }
    } else {
      var trace, steps, i, c, j, rid, v := DisciplineLosesCommit(members);
    }
  }
}
