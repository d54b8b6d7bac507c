/** What a quorum of confirmations guarantees about every later election. */
module Durability {
  import opened Basics
  import opened NodeSteps
  import opened Protocol
  import opened Elections
  import opened ElectionTheorems
  import opened Commits
  import Q = Quorum

  /** The leader and the peers whose confirmations it counted. */
  ghost function Holders(r: Round): (h: set<Addr>) {
    {r.leader} + Confirmers(r)
  }

  lemma HoldersAreQuorum(s: State, rid: nat)
    requires CommitInv(s) && rid in s.rounds && s.rounds[rid].status in {Accepted, Committed}
    ensures var r := s.rounds[rid];
            && Q.Backed(s.nodes.Keys, r.leader, Confirmers(r), QuorumOf(s))
            && |Holders(r)| == 1 + |Confirmers(r)|
            && forall v :: v in Holders(r) ==> v in s.nodes && LogLength(s.nodes[v]) >= r.logIndex
  {
    var r := s.rounds[rid];
    assert RoundOk(s, rid);
    assert Confirmers(r) <= Peers(s, r.leader);
    forall v | v in Confirmers(r)
      ensures v in s.nodes && LogLength(s.nodes[v]) >= r.logIndex
    {
      assert SaidYes(s, rid, v) && YesOk(s, rid, v);
    }
  }

  /** When a leader may commit at index k, more than half of all nodes hold at least k entries. */
  lemma QuorumCertifiesReplication(members: set<Addr>, trace: seq<State>, steps: seq<Step>, i: nat, rid: nat)
    requires Run(members, trace, steps) && i < |trace|
    requires rid in trace[i].rounds && trace[i].rounds[rid].status in {Accepted, Committed}
    ensures var r := trace[i].rounds[rid];
            && Holders(r) <= members && |Holders(r)| >= |members| / 2 + 1
            && r.tally == |Confirmers(r)|
            && forall v :: v in Holders(r) ==> v in trace[i].nodes && LogLength(trace[i].nodes[v]) >= r.logIndex
  {
    CommitAlways(members, trace, steps, i);
    RunMembers(members, trace, steps, i);
    hide Run, LogLength;
    var s := trace[i];
    HoldersAreQuorum(s, rid);
    assert RoundOk(s, rid);
  }

  // ----- campaigns and votes only ever see lengths at least as large as earlier ones

  /** What one step does to campaigns: none is lost, a new one and a new vote record current lengths. */
  ghost predicate CampaignsEvolve(s: State, t: State) {
    && s.campaigns.Keys <= t.campaigns.Keys
    && (forall id :: id in s.campaigns ==> t.campaigns[id].logIndex == s.campaigns[id].logIndex)
    && (forall id :: id in t.campaigns && id !in s.campaigns ==>
          id.candidate in s.nodes && t.campaigns[id].logIndex == LogLength(s.nodes[id.candidate]))
    && (forall id, p :: HasGranted(s, id, p) ==> HasGranted(t, id, p) && GrantOf(t, id, p) == GrantOf(s, id, p))
    && (forall id, p :: HasGranted(t, id, p) && !HasGranted(s, id, p) ==>
          p in s.nodes && GrantOf(t, id, p).voterLength == LogLength(s.nodes[p]))
  }

  lemma CampaigningEvolves(s: State, v: Addr)
    requires CampaignsOk(s) && v in s.nodes
    ensures CampaignsEvolve(s, Campaigning(s, v))
  {
    CampaigningIsNew(s, v);
    hide CampaignOk, CampaignsOk, LogLength;
    var t, mine := Campaigning(s, v), CampaignId(v, s.nodes[v].term + 1);
    assert forall p :: !HasGranted(t, mine, p);
    assert t.campaigns == s.campaigns[mine := t.campaigns[mine]] && t.campaigns[mine].logIndex == LogLength(s.nodes[v]);
    hide Campaigning;
    NewCampaignEvolves(s, t, mine);
  }

  lemma NewCampaignEvolves(s: State, t: State, id: CampaignId)
    requires id !in s.campaigns && id in t.campaigns && t.campaigns == s.campaigns[id := t.campaigns[id]]
    requires id.candidate in s.nodes && t.campaigns[id].logIndex == LogLength(s.nodes[id.candidate])
    requires forall p :: !HasGranted(t, id, p)
    ensures CampaignsEvolve(s, t)
  {
    hide LogLength;
    forall k, p | HasGranted(t, k, p)
      ensures HasGranted(s, k, p)
    {
    }
  }

  lemma VotingEvolves(s: State, id: CampaignId, p: Addr)
    requires VoteCallIs(s, id, p) && s.campaigns[id].calls[p] == VoteSent
    ensures CampaignsEvolve(s, Voting(s, id, p))
  {
    hide LogLength, OnRequestVote;
    var t := Voting(s, id, p);
    forall k, q | HasGranted(t, k, q) && (k, q) != (id, p)
      ensures HasGranted(s, k, q) && GrantOf(t, k, q) == GrantOf(s, k, q)
    {
    }
  }

  lemma StepEvolves(s: State, step: Step)
    requires CampaignsOk(s) && Enabled(s, step)
    ensures CampaignsEvolve(s, Apply(s, step))
  {
    hide LogLength, CampaignsOk, CampaignsEvolve;
    if step.StartCampaign? {
      CampaigningEvolves(s, step.v);
    } else if step.HandleVoteRequest? {
      VotingEvolves(s, step.id, step.voter);
    } else if step.CountVote? {
      CountingEvolves(s, Apply(s, step), step.id);
    } else if step.ElectionTimeout? {
      CountingEvolves(s, Apply(s, step), step.id);
    } else {
      SameCampaigns(s, step);
      UnchangedEvolves(s, Apply(s, step));
    }
  }

  lemma UnchangedEvolves(s: State, t: State)
    requires s.campaigns == t.campaigns
    ensures CampaignsEvolve(s, t)
  {
  }

  lemma CountingEvolves(s: State, t: State, id: CampaignId)
    requires id in s.campaigns && id in t.campaigns && t.campaigns == s.campaigns[id := t.campaigns[id]]
    requires t.campaigns[id].logIndex == s.campaigns[id].logIndex
    requires forall p :: HasGranted(t, id, p) <==> HasGranted(s, id, p)
    requires forall p :: HasGranted(s, id, p) ==> GrantOf(t, id, p) == GrantOf(s, id, p)
    ensures CampaignsEvolve(s, t)
  {
    forall k, p | k != id
      ensures HasGranted(s, k, p) <==> HasGranted(t, k, p)
    {
    }
  }

  lemma SameCampaigns(s: State, step: Step)
    requires Enabled(s, step)
    requires !step.StartCampaign? && !step.HandleVoteRequest? && !step.CountVote? && !step.ElectionTimeout?
    ensures Apply(s, step).campaigns == s.campaigns
  {
    if !ElectionStep(step) {
      hide Apply, Enabled;
      ReplicationUntouched(s, step);
    }
  }

  /** Campaigns and votes later than state i know every length state i had. */
  lemma {:induction false} LaterCampaignsReach(members: set<Addr>, trace: seq<State>, steps: seq<Step>, i: nat, j: nat)
    requires Run(members, trace, steps) && i <= j < |trace|
    ensures trace[i].nodes.Keys == trace[j].nodes.Keys
    ensures trace[i].campaigns.Keys <= trace[j].campaigns.Keys
    ensures forall id :: id in trace[i].campaigns ==> trace[j].campaigns[id].logIndex == trace[i].campaigns[id].logIndex
    ensures forall id :: id in trace[j].campaigns && id !in trace[i].campaigns ==>
      id.candidate in trace[i].nodes && trace[j].campaigns[id].logIndex >= LogLength(trace[i].nodes[id.candidate])
    ensures forall id, p :: HasGranted(trace[j], id, p) && !HasGranted(trace[i], id, p) ==>
      p in trace[i].nodes && GrantOf(trace[j], id, p).voterLength >= LogLength(trace[i].nodes[p])
    decreases j
  {
    hide Apply, Enabled, LogLength, ElectionInv;
    if i == j {
    } else {
      LaterCampaignsReach(members, trace, steps, i, j - 1);
      LastStepReaches(members, trace, steps, i, j);
    }
  }

  lemma LastStepReaches(members: set<Addr>, trace: seq<State>, steps: seq<Step>, i: nat, j: nat)
    requires Run(members, trace, steps) && i < j < |trace|
    ensures CampaignsEvolve(trace[j - 1], trace[j])
    ensures trace[j - 1].nodes.Keys == trace[j].nodes.Keys == trace[i].nodes.Keys
    ensures forall v :: v in trace[i].nodes ==> LogLength(trace[i].nodes[v]) <= LogLength(trace[j - 1].nodes[v])
  {
    hide Apply, Enabled, CampaignsEvolve, LogLength;
    StepAt(trace, steps, j - 1);
    ElectionAlways(members, trace, steps, j - 1);
    RunProgress(trace, steps, i, j - 1);
    StepProgress(trace[j - 1], steps[j - 1]);
    ProgressGrows(trace[i], trace[j - 1]);
    hide Run, Execution;
    StepEvolves(trace[j - 1], steps[j - 1]);
  }

  /** Anyone backing a campaign started after state i had, at state i, no more entries than it advertises. */
  lemma BackersNotLonger(members: set<Addr>, trace: seq<State>, steps: seq<Step>, i: nat, j: nat, id: CampaignId, v: Addr)
    requires Run(members, trace, steps) && i <= j < |trace|
    requires id !in trace[i].campaigns && id in trace[j].campaigns && v in Backing(trace[j], id)
    ensures v in trace[i].nodes && LogLength(trace[i].nodes[v]) <= trace[j].campaigns[id].logIndex
  {
    LaterCampaignsReach(members, trace, steps, i, j);
    ElectionAlways(members, trace, steps, j);
    hide Run, LogLength;
    if v != id.candidate {
      assert HasGranted(trace[j], id, v) && !HasGranted(trace[i], id, v);
      assert GrantOk(trace[j], id, v);
    }
  }

  lemma MajorityBacker(members: set<Addr>, trace: seq<State>, steps: seq<Step>, j: nat, id: CampaignId, majority: set<Addr>)
    returns (v: Addr)
    requires Run(members, trace, steps) && j < |trace| && ReachesQuorum(trace[j], id)
    requires majority <= members && 2 * |majority| > |members|
    ensures v in majority && v in Backing(trace[j], id)
  {
    ElectionAlways(members, trace, steps, j);
    RunMembers(members, trace, steps, j);
    hide Run, LogLength;
    BackingIsMajority(trace[j], id);
    v := Q.LargeSetsMeet(members, Backing(trace[j], id), majority);
  }

  lemma BackingIsMajority(s: State, id: CampaignId)
    requires ElectionInv(s) && ReachesQuorum(s, id)
    ensures Backing(s, id) <= s.nodes.Keys && |Backing(s, id)| >= QuorumOf(s) + 1
  {
    GrantersArePeers(s, id);
    assert CampaignOk(s, id);
    assert |Backing(s, id)| == 1 + |Granters(s.campaigns[id])|;
  }

  /**
   * If more than half of all nodes hold at least m entries, every campaign started afterwards that
   * reaches a quorum advertises at least m, and its candidate holds them.
   */
  lemma LaterWinnersReach(members: set<Addr>, trace: seq<State>, steps: seq<Step>, i: nat, j: nat,
                          majority: set<Addr>, m: nat, id: CampaignId)
    requires Run(members, trace, steps) && i <= j < |trace|
    requires majority <= members && 2 * |majority| > |members|
    requires forall v :: v in majority ==> v in trace[i].nodes && LogLength(trace[i].nodes[v]) >= m
    requires id !in trace[i].campaigns && ReachesQuorum(trace[j], id)
    ensures trace[j].campaigns[id].logIndex >= m
    ensures id.candidate in trace[j].nodes && LogLength(trace[j].nodes[id.candidate]) >= m
  {
    ElectionAlways(members, trace, steps, j);
    assert CampaignOk(trace[j], id);
    var v := MajorityBacker(members, trace, steps, j, id, majority);
    BackersNotLonger(members, trace, steps, i, j, id, v);
  }

  /** Step i commits, and by state j a campaign started after it has reached a quorum. */
  ghost predicate CommitThenWin(trace: seq<State>, steps: seq<Step>, i: nat, j: nat, rid: nat, id: CampaignId) {
    && i < |steps| && i < j < |trace| == |steps| + 1
    && steps[i] == CommitRound(rid) && rid in trace[i].rounds
    && id !in trace[i].campaigns && ReachesQuorum(trace[j], id)
  }

  /**
   * Once a leader stores an entry on a quorum of confirmations for index k, every campaign started
   * afterwards that reaches a quorum advertises at least k entries, and its candidate holds them.
   */
  lemma LagOneDurability(members: set<Addr>, trace: seq<State>, steps: seq<Step>, i: nat, j: nat, rid: nat, id: CampaignId)
    requires Run(members, trace, steps) && CommitThenWin(trace, steps, i, j, rid, id)
    ensures trace[j].campaigns[id].logIndex >= trace[i].rounds[rid].logIndex
    ensures id.candidate in trace[j].nodes
            && LogLength(trace[j].nodes[id.candidate]) >= trace[i].rounds[rid].logIndex
  {
    var r := trace[i].rounds[rid];
    assert r.status == Accepted by { assert Enabled(trace[i], steps[i]); }
    QuorumCertifiesReplication(members, trace, steps, i, rid);
    hide Run, LogLength;
    LaterWinnersReach(members, trace, steps, i, j, Holders(r), r.logIndex, id);
  }

  /** The campaign reaches the length the leader had once it had stored the entry. */
  ghost predicate LengthSurvives(trace: seq<State>, i: nat, j: nat, rid: nat, id: CampaignId) {
    && i + 1 < |trace| && j < |trace| && rid in trace[i].rounds && id in trace[j].campaigns
    && var leader := trace[i].rounds[rid].leader;
       leader in trace[i + 1].nodes && trace[j].campaigns[id].logIndex >= LogLength(trace[i + 1].nodes[leader])
  }

  /** With at most two clusters a quorum is everyone, so every later winner is as long as the leader was then. */
  lemma LengthSurvivesOfTwo(members: set<Addr>, trace: seq<State>, steps: seq<Step>, i: nat, j: nat, rid: nat, id: CampaignId)
    requires Run(members, trace, steps) && CommitThenWin(trace, steps, i, j, rid, id) && |members| <= 2
    ensures LengthSurvives(trace, i, j, rid, id)
  {
    var leader := trace[i].rounds[rid].leader;
    assert Enabled(trace[i], steps[i]) && trace[i + 1] == Apply(trace[i], steps[i]);
    StoringStepNodes(trace[i], steps[i]);
    ElectionAlways(members, trace, steps, j);
    RunMembers(members, trace, steps, i);
    RunMembers(members, trace, steps, j);
    hide Run, Execution, LogLength, Apply, Enabled;
    BackingIsMajority(trace[j], id);
    Q.SubsetIsWhole(Backing(trace[j], id), members);
    BackersNotLonger(members, trace, steps, i + 1, j, id, leader);
  }

  // ----- contents

  ghost predicate Comparable(a: Log, b: Log) {
    a <= b || b <= a
  }

  /**
   * If more than half of the logs start with p and all logs are comparable when a campaign starts,
   * the campaign can reach a quorum only if its candidate's log starts with p.
   */
  lemma ContentCompleteness(members: set<Addr>, trace: seq<State>, steps: seq<Step>, i: nat, j: nat,
                            candidate: Addr, majority: set<Addr>, p: Log)
    requires Run(members, trace, steps) && i < |steps| && i < j < |trace|
    requires steps[i] == StartCampaign(candidate) && candidate in trace[i].nodes
    requires ReachesQuorum(trace[j], CampaignId(candidate, trace[i].nodes[candidate].term + 1))
    requires majority <= members && 2 * |majority| > |members| && EMPTY_CMD !in p
    requires forall v :: v in majority ==> v in trace[i].nodes && p <= trace[i].nodes[v].log
    requires forall u, v :: u in trace[i].nodes && v in trace[i].nodes ==> Comparable(trace[i].nodes[u].log, trace[i].nodes[v].log)
    ensures p <= trace[i].nodes[candidate].log
  {
    var id := CampaignId(candidate, trace[i].nodes[candidate].term + 1);
    CampaignTermsIncrease(members, trace, steps, i, candidate);
    StartedWithOwnLength(members, trace, steps, i, j, candidate);
    var v := MajorityBacker(members, trace, steps, j, id, majority);
    BackersNotLonger(members, trace, steps, i, j, id, v);
    LongerHasPrefix(trace[i].nodes[candidate].log, trace[i].nodes[v].log, p);
  }

  lemma StartedWithOwnLength(members: set<Addr>, trace: seq<State>, steps: seq<Step>, i: nat, j: nat, candidate: Addr)
    requires Run(members, trace, steps) && i < |steps| && i < j < |trace|
    requires steps[i] == StartCampaign(candidate) && candidate in trace[i].nodes
    ensures var id := CampaignId(candidate, trace[i].nodes[candidate].term + 1);
            id in trace[j].campaigns && trace[j].campaigns[id].logIndex == LogLength(trace[i].nodes[candidate])
  {
    assert Enabled(trace[i], steps[i]) && trace[i + 1] == Apply(trace[i], steps[i]);
    LaterCampaignsReach(members, trace, steps, i + 1, j);
    hide Run, Execution, LogLength;
  }

  /** A comparable log that counts at least as many entries has every prefix free of empty commands. */
  lemma LongerHasPrefix(a: Log, b: Log, p: Log)
    requires Comparable(a, b) && p <= b && EMPTY_CMD !in p && CountedLength(a) >= CountedLength(b)
    ensures p <= a
  {
    if b <= a {
    } else if |a| >= |p| {
      assert a[..|p|] == b[..|p|] == p;
    } else {
      assert a <= p[..|p| - 1];
      CountedLengthMonotone(a, p[..|p| - 1]);
      assert p == p[..|p| - 1] + [p[|p| - 1]];
      CountedLengthIsLength(p);
      CountedLengthMonotone(p, b);
    }
  }
}
