/**
 * Giving way: a candidate that meets a longer log is told so, and once its main loop hears of it the node
 * is a member and stays one until its own loop makes it a candidate again.
 */
module Signals {
  import opened Basics
  import opened NodeSteps
  import opened Protocol
  import opened Elections
  import opened Fields
  import opened Answers

  // ----- one request

  /** A waiting candidate that is outbid, by a rival or by a leader, can give way at once. */
  lemma OutbidCanYield(s: State, step: Step, v: Addr)
    requires Enabled(s, step) && v in s.nodes && s.nodes[v].electing.Some? && Outbid(s.nodes[v], EventAt(s, step, v))
    ensures Enabled(Apply(s, step), TakeNewLeader(v))
  {
    EveryFieldMoves(s, step, v);
    hide Apply, EventAt, LogLength;
  }

  /** A candidate asked for its vote in its own term by a longer log grants it, gives way, and is a member. */
  lemma OutvotedBecomesMember(s: State, id: CampaignId, p: Addr)
    requires Enabled(s, HandleVoteRequest(id, p))
    requires s.nodes[p].role == CANDIDATE && s.nodes[p].electing.Some?
    requires id.term == s.nodes[p].term && LogLength(s.nodes[p]) < s.campaigns[id].logIndex
    ensures var t := Apply(s, HandleVoteRequest(id, p));
            && HasGranted(t, id, p) && Enabled(t, TakeNewLeader(p))
            && var u := Apply(t, TakeNewLeader(p));
               && HasGranted(u, id, p) && p in u.nodes && !Enabled(u, StartCampaign(p))
               && u.nodes[p] == s.nodes[p].(role := MEMBER, electing := None,
                                             leaders := s.nodes[p].leaders + ({id.candidate} * s.nodes.Keys))
  {
    var t := Apply(s, HandleVoteRequest(id, p));
    VoteIsGiven(s, id, p);
    OutbidCanYield(s, HandleVoteRequest(id, p), p);
    EveryFieldMoves(s, HandleVoteRequest(id, p), p);
    EveryFieldMoves(t, TakeNewLeader(p), p);
    assert Apply(t, TakeNewLeader(p)).campaigns == t.campaigns;
    hide Apply, LogLength;
  }

  /** A candidate that a leader of its term or a later one asks to append after a longer log gives way as well. */
  lemma OutledBecomesMember(s: State, step: Step, p: Addr)
    requires Enabled(s, step) && AppendStep(step) && p in s.nodes
    requires s.nodes[p].role == CANDIDATE && s.nodes[p].electing.Some? && EventAt(s, step, p).Asked?
    requires var ask := EventAt(s, step, p).ask; ask.term >= s.nodes[p].term && ask.logIndex > LogLength(s.nodes[p])
    ensures var t, ask := Apply(s, step), EventAt(s, step, p).ask;
            && Enabled(t, TakeNewLeader(p))
            && var u := Apply(t, TakeNewLeader(p));
               && p in u.nodes && !Enabled(u, StartCampaign(p))
               && u.nodes[p] == s.nodes[p].(term := ask.term, role := MEMBER, electing := None,
                                             leaders := s.nodes[p].leaders + ({ask.from} * s.nodes.Keys))
  {
    hide Apply, EventAt, LogLength, Enabled;
    AppendAsks(s, step, p);
    OutbidCanYield(s, step, p);
    EveryFieldMoves(s, step, p);
    StepProgress(s, step);
    GivesWay(Apply(s, step), p);
  }

  lemma AppendAsks(s: State, step: Step, p: Addr)
    requires Enabled(s, step) && AppendStep(step) && EventAt(s, step, p).Asked?
    ensures EventAt(s, step, p).ask.AskedAppend?
  {
  }

  /** Hearing of the other candidate makes the node a member that waits for no election, and changes nothing else. */
  lemma GivesWay(s: State, v: Addr)
    requires Enabled(s, TakeNewLeader(v))
    ensures var t := Apply(s, TakeNewLeader(v));
            && v in s.nodes && t == SetNode(s, v, s.nodes[v].(role := MEMBER, electing := None,
                                                              newLeaderSignals := s.nodes[v].newLeaderSignals - 1))
            && v in t.nodes && !Enabled(t, StartCampaign(v))
  {
  }

  // ----- runs

  /** The node has given way and not become candidate since. */
  lemma {:induction false} StandsDown(trace: seq<State>, steps: seq<Step>, i: nat, j: nat, v: Addr)
    requires Execution(trace, steps) && i < |steps| && i < j < |trace| && steps[i] == TakeNewLeader(v)
    requires forall k :: i < k < j ==> steps[k] != BecomeCandidate(v)
    ensures v in trace[j].nodes && trace[j].nodes[v].role == MEMBER && trace[j].nodes[v].electing == None
    ensures !Enabled(trace[j], StartCampaign(v))
    decreases j
  {
    hide Apply, Enabled;
    StepAt(trace, steps, j - 1);
    if j == i + 1 {
      GivesWay(trace[i], v);
    } else {
      StandsDown(trace, steps, i, j - 1, v);
      MemberStays(trace[j - 1], steps[j - 1], v);
    }
    MembersDoNotCampaign(trace[j], v);
  }

  lemma MembersDoNotCampaign(s: State, v: Addr)
    requires v in s.nodes && s.nodes[v].role == MEMBER
    ensures !Enabled(s, StartCampaign(v))
  {
  }

  lemma MemberStays(s: State, step: Step, v: Addr)
    requires Enabled(s, step) && v in s.nodes && s.nodes[v].role == MEMBER && s.nodes[v].electing == None
    requires step != BecomeCandidate(v)
    ensures v in Apply(s, step).nodes
    ensures Apply(s, step).nodes[v].role == MEMBER && Apply(s, step).nodes[v].electing == None
  {
    EveryFieldMoves(s, step, v);
    NoOwnMove(s, step, v);
    hide Apply, LogLength, Enabled, EventAt;
  }

  lemma NoOwnMove(s: State, step: Step, v: Addr)
    requires Enabled(s, step) && v in s.nodes && s.nodes[v].role == MEMBER && s.nodes[v].electing == None
    requires step != BecomeCandidate(v)
    ensures var e := EventAt(s, step, v); !e.Candidacy? && !e.Campaigns? && !e.Result?
  {
    hide LogLength;
  }

  /** The steps before i in which v is outbid, and those in which its main loop hears of it. */
  ghost function TimesOutbid(trace: seq<State>, steps: seq<Step>, v: Addr, i: nat): nat
    requires Execution(trace, steps) && i < |trace| && v in trace[0].nodes
    decreases i
  {
    if i == 0 then 0
    else
      NodeStaysAt(trace, steps, v, i - 1);
      TimesOutbid(trace, steps, v, i - 1)
      + (if Outbid(trace[i - 1].nodes[v], EventAt(trace[i - 1], steps[i - 1], v)) then 1 else 0)
  }

  function TimesHeard(steps: seq<Step>, v: Addr, i: nat): nat
    requires i <= |steps|
  {
    if i == 0 then 0 else TimesHeard(steps, v, i - 1) + (if steps[i - 1] == TakeNewLeader(v) then 1 else 0)
  }

  lemma NodeStaysAt(trace: seq<State>, steps: seq<Step>, v: Addr, i: nat)
    requires Execution(trace, steps) && i < |trace| && v in trace[0].nodes
    ensures v in trace[i].nodes
    ensures i < |steps| ==> Enabled(trace[i], steps[i]) && trace[i + 1] == Apply(trace[i], steps[i])
  {
    hide Apply, Enabled;
    RunProgress(trace, steps, 0, i);
  }

  /** The pending signals are exactly the times a node was outbid and has not heard of. */
  lemma {:induction false} SignalsBalance(members: set<Addr>, trace: seq<State>, steps: seq<Step>, v: Addr, i: nat)
    requires Run(members, trace, steps) && v in members && i < |trace|
    ensures v in trace[0].nodes && v in trace[i].nodes
    ensures trace[i].nodes[v].newLeaderSignals + TimesHeard(steps, v, i) == TimesOutbid(trace, steps, v, i)
    decreases i
  {
    NodeStaysAt(trace, steps, v, i);
    if i == 0 {
    } else {
      SignalsBalance(members, trace, steps, v, i - 1);
      NodeStaysAt(trace, steps, v, i - 1);
      EveryFieldMoves(trace[i - 1], steps[i - 1], v);
      OnlyOwnLoopHears(trace[i - 1], steps[i - 1], v);
      hide Apply, Enabled, EventAt, LogLength, Execution, Outbid;
    }
  }

  lemma OnlyOwnLoopHears(s: State, step: Step, v: Addr)
    requires Enabled(s, step)
    ensures EventAt(s, step, v).HearsOfCandidate? <==> step == TakeNewLeader(v)
  {
  }

  /** So a pending signal has a cause: an earlier request that outbid the node. */
  lemma {:induction false} PendingSignalHasCause(members: set<Addr>, trace: seq<State>, steps: seq<Step>, v: Addr, i: nat)
    returns (k: nat)
    requires Run(members, trace, steps) && v in members && i < |trace|
    requires v in trace[i].nodes && trace[i].nodes[v].newLeaderSignals > 0
    ensures k < i && Enabled(trace[k], steps[k]) && v in trace[k].nodes
    ensures Outbid(trace[k].nodes[v], EventAt(trace[k], steps[k], v))
    decreases i
  {
    hide Apply, Enabled, EventAt, Outbid;
    if i == 0 {
      assert false;
    } else {
      NodeStaysAt(trace, steps, v, i - 1);
      if Outbid(trace[i - 1].nodes[v], EventAt(trace[i - 1], steps[i - 1], v)) {
        k := i - 1;
      } else {
        NoNewSignal(trace[i - 1], steps[i - 1], v);
        k := PendingSignalHasCause(members, trace, steps, v, i - 1);
      }
    }
  }

  lemma NoNewSignal(s: State, step: Step, v: Addr)
    requires Enabled(s, step) && v in s.nodes && !Outbid(s.nodes[v], EventAt(s, step, v))
    ensures v in Apply(s, step).nodes && Apply(s, step).nodes[v].newLeaderSignals <= s.nodes[v].newLeaderSignals
  {
    EveryFieldMoves(s, step, v);
    hide Apply, Enabled, EventAt, Outbid;
  }
}
