/** What of a committed log a later winner holds, as long as only the committing leader stores on its own account. */
module Survival {
  import opened Basics
  import opened NodeSteps
  import opened Protocol
  import opened Elections
  import opened ElectionTheorems
  import opened Commits
  import opened Durability
  import opened Shape
  import opened SingleLeader
  import opened Agreement
  import Q = Quorum

  /** The steps before c meet the conditions for agreement under `lead`. */
  ghost predicate DisciplinedUntil(trace: seq<State>, steps: seq<Step>, lead: Addr, c: nat) {
    && c <= |steps| && |trace| == |steps| + 1
    && forall k :: 0 <= k < c ==> Enabled(trace[k], steps[k]) && Disciplined(trace[k], steps[k], lead)
  }

  /** Step i commits, step c starts a campaign, and by state j the campaign has reached a quorum. */
  ghost predicate CommitThenCampaign(trace: seq<State>, steps: seq<Step>, i: nat, c: nat, j: nat, rid: nat, v: Addr) {
    && i < c < |steps| && c < j < |trace| && |trace| == |steps| + 1
    && steps[i] == CommitRound(rid) && rid in trace[i].rounds
    && steps[c] == StartCampaign(v) && v in trace[c].nodes
    && ReachesQuorum(trace[j], CampaignId(v, trace[c].nodes[v].term + 1))
  }

  lemma SettledUntil(members: set<Addr>, trace: seq<State>, steps: seq<Step>, lead: Addr, c: nat)
    requires Run(members, trace, steps) && DisciplinedUntil(trace, steps, lead, c) && lead in members
    ensures Settled(trace[c], lead)
  {
    assert DisciplinedRun(trace[..c + 1], steps[..c], lead) by { hide Apply, Enabled, Disciplined; }
    InitSettled(members, lead);
    hide Apply, Enabled, Disciplined, Settled, DisciplinedRun;
    SettledAlways(trace[..c + 1], steps[..c], lead, c);
  }

  lemma CommitterIsMember(members: set<Addr>, trace: seq<State>, steps: seq<Step>, i: nat, rid: nat)
    requires Run(members, trace, steps) && i < |steps| && steps[i] == CommitRound(rid)
    ensures rid in trace[i].rounds && trace[i].rounds[rid].leader in members && trace[i].rounds[rid].status == Accepted
  {
    CommitAlways(members, trace, steps, i);
    RunMembers(members, trace, steps, i);
    StepAt(trace, steps, i);
    hide Run, Execution;
    assert RoundOk(trace[i], rid);
  }

  /** All logs are prefixes of the leader's, and their lengths are the real ones. */
  lemma SettledLogs(s: State, lead: Addr)
    requires Settled(s, lead)
    ensures lead in s.nodes
    ensures forall v :: v in s.nodes ==> s.nodes[v].log <= s.nodes[lead].log && LogLength(s.nodes[v]) == |s.nodes[v].log|
    ensures EMPTY_CMD !in s.nodes[lead].log
  {
    forall v | v in s.nodes
      ensures LogLength(s.nodes[v]) == |s.nodes[v].log|
    {
      RealLength(s, v);
    }
  }

  lemma SettledComparable(s: State, lead: Addr)
    requires Settled(s, lead)
    ensures forall u, v :: u in s.nodes && v in s.nodes ==> Comparable(s.nodes[u].log, s.nodes[v].log)
  {
    SettledWithin(s, lead);
    hide Settled;
  }

  /**
   * For any number of clusters: what a leader holds up to the index k that its quorum vouched for is what
   * the log of every later winner starts with.
   */
  lemma WinnersKeepVouched(members: set<Addr>, trace: seq<State>, steps: seq<Step>, i: nat, c: nat, j: nat, rid: nat, v: Addr)
    requires Run(members, trace, steps) && CommitThenCampaign(trace, steps, i, c, j, rid, v)
    requires DisciplinedUntil(trace, steps, trace[i].rounds[rid].leader, c)
    ensures var r := trace[i].rounds[rid];
            && r.leader in trace[i].nodes && r.logIndex <= |trace[i].nodes[r.leader].log|
            && trace[i].nodes[r.leader].log[..r.logIndex] <= trace[c].nodes[v].log
  {
    var r := trace[i].rounds[rid];
    CommitterIsMember(members, trace, steps, i, rid);
    VouchedIsHeld(members, trace, steps, i, c, rid);
    QuorumCertifiesReplication(members, trace, steps, i, rid);
    SettledUntil(members, trace, steps, r.leader, c);
    SettledComparable(trace[c], r.leader);
    hide Run, Settled, DisciplinedUntil;
    ContentCompleteness(members, trace, steps, c, j, v, Holders(r), trace[i].nodes[r.leader].log[..r.logIndex]);
  }

  /** Everyone whose confirmation was counted holds the leader's first k entries from then on. */
  lemma VouchedIsHeld(members: set<Addr>, trace: seq<State>, steps: seq<Step>, i: nat, c: nat, rid: nat)
    requires Run(members, trace, steps) && i < c <= |steps| && steps[i] == CommitRound(rid) && rid in trace[i].rounds
    requires DisciplinedUntil(trace, steps, trace[i].rounds[rid].leader, c)
    ensures var r := trace[i].rounds[rid];
            && r.leader in trace[i].nodes && r.logIndex <= |trace[i].nodes[r.leader].log|
            && EMPTY_CMD !in trace[i].nodes[r.leader].log[..r.logIndex]
            && forall u :: u in Holders(r) ==>
                 u in trace[c].nodes && trace[i].nodes[r.leader].log[..r.logIndex] <= trace[c].nodes[u].log
  {
    var r := trace[i].rounds[rid];
    CommitterIsMember(members, trace, steps, i, rid);
    QuorumCertifiesReplication(members, trace, steps, i, rid);
    assert DisciplinedUntil(trace, steps, r.leader, i) by { hide Enabled, Disciplined; }
    SettledUntil(members, trace, steps, r.leader, i);
    SettledUntil(members, trace, steps, r.leader, c);
    RunProgress(trace, steps, i, c);
    hide Run, Settled, DisciplinedUntil, LogLength, NodesProgress;
    HolderKeeps(trace[i], trace[c], r.leader, r.leader, r.logIndex);
    forall u | u in Holders(r)
      ensures u in trace[c].nodes && trace[i].nodes[r.leader].log[..r.logIndex] <= trace[c].nodes[u].log
    {
      HolderKeeps(trace[i], trace[c], r.leader, u, r.logIndex);
    }
  }

  lemma HolderKeeps(s: State, t: State, lead: Addr, u: Addr, k: nat)
    requires Settled(s, lead) && Settled(t, lead) && NodesProgress(s, t)
    requires u in s.nodes && LogLength(s.nodes[u]) >= k
    ensures lead in s.nodes && k <= |s.nodes[lead].log| && EMPTY_CMD !in s.nodes[lead].log[..k]
    ensures u in t.nodes && s.nodes[lead].log[..k] <= t.nodes[u].log
  {
    SettledLogs(s, lead);
    assert u in t.nodes && s.nodes[u].log <= t.nodes[u].log;
    hide Settled, LogLength;
    hide NodesProgress;
    SamePrefix(s.nodes[lead].log, s.nodes[u].log, t.nodes[u].log, k);
  }

  lemma SamePrefix(theirs: Log, before: Log, after: Log, k: nat)
    requires before <= theirs && before <= after && k <= |before| && EMPTY_CMD !in theirs
    ensures theirs[..k] <= after && EMPTY_CMD !in theirs[..k]
  {
    assert theirs[..k] == before[..k];
  }

  /** With at most two clusters the winner's log is the leader's. */
  lemma WinnerOfTwoKeepsAll(members: set<Addr>, trace: seq<State>, steps: seq<Step>, c: nat, j: nat, lead: Addr, v: Addr)
    requires Run(members, trace, steps) && |members| <= 2 && lead in members && c < |steps| && c < j < |trace|
    requires DisciplinedUntil(trace, steps, lead, c) && steps[c] == StartCampaign(v) && v in trace[c].nodes
    requires ReachesQuorum(trace[j], CampaignId(v, trace[c].nodes[v].term + 1))
    ensures lead in trace[c].nodes && trace[c].nodes[v].log == trace[c].nodes[lead].log
  {
    var id := CampaignId(v, trace[c].nodes[v].term + 1);
    CampaignTermsIncrease(members, trace, steps, c, v);
    StartedWithOwnLength(members, trace, steps, c, j, v);
    ElectionAlways(members, trace, steps, j);
    RunMembers(members, trace, steps, j);
    SettledUntil(members, trace, steps, lead, c);
    SettledLogs(trace[c], lead);
    hide Run, Settled, DisciplinedUntil, LogLength;
    BackingIsMajority(trace[j], id);
    Q.SubsetIsWhole(Backing(trace[j], id), members);
    BackersNotLonger(members, trace, steps, c, j, id, lead);
  }
}
