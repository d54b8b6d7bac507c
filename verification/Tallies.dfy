/** The counting loops of a node against the protocol: replies and timeouts, one step for each. */
module Tallies {
  import opened Basics
  import opened NodeSteps
  import opened Protocol
  import opened RaftNode

  // ----- confirmations

  /** What reaches the loop of a quorum request: a peer's reply, or nothing until the timeout. */
  ghost function RoundStep(rid: nat, event: Option<Addr>): Step {
    match event
    case Some(p) => CountConfirm(rid, p)
    case None => RoundTimeout(rid)
  }

  /** The round after the events, each counted if the round is still open. */
  ghost function RoundAfter(s: State, rid: nat, events: seq<Option<Addr>>): State
    decreases |events|
  {
    if events == [] then s
    else if !Enabled(s, RoundStep(rid, events[0])) then s
    else RoundAfter(Apply(s, RoundStep(rid, events[0])), rid, events[1..])
  }

  /** Different peers, whose replies have arrived unless they are late. */
  ghost predicate Arriving(s: State, rid: nat, events: seq<Option<Addr>>) {
    && (forall i :: 0 <= i < |events| && events[i].Some? ==> AppendCallIs(s, rid, events[i].value)
                                                             && s.rounds[rid].calls[events[i].value].Answered?)
    && (forall i, j :: 0 <= i < j < |events| && events[i].Some? ==> events[i] != events[j])
  }

  /** What the events say, as the loop reads them. */
  ghost function Replies(s: State, rid: nat, events: seq<Option<Addr>>): (r: seq<Option<bool>>)
    requires Arriving(s, rid, events)
    ensures |r| == |events|
  {
    seq(|events|, i requires 0 <= i < |events| =>
      if events[i].Some? then Some(s.rounds[rid].calls[events[i].value].confirmed) else None)
  }

  /** The count reaches the quorum from `counted` on. */
  ghost predicate Reaches(counted: nat, quorum: nat, replies: seq<Option<bool>>) {
    exists n :: 0 < n <= |replies| && None !in replies[..n] && counted + multiset(replies[..n])[Some(true)] >= quorum
  }

  lemma ReachesStep(counted: nat, quorum: nat, replies: seq<Option<bool>>)
    requires replies != [] && replies[0].Some?
    ensures var next := counted + (if replies[0].value then 1 else 0);
            Reaches(counted, quorum, replies) <==> next >= quorum || Reaches(next, quorum, replies[1..])
  {
    var next := counted + (if replies[0].value then 1 else 0);
    forall n | 0 < n <= |replies|
      ensures multiset(replies[..n])[Some(true)] + counted == next + multiset(replies[1..][..n - 1])[Some(true)]
      ensures None in replies[..n] <==> None in replies[1..][..n - 1]
    {
      assert replies[..n] == [replies[0]] + replies[1..][..n - 1];
    }
    if next >= quorum {
      assert None !in replies[..1] && counted + multiset(replies[..1])[Some(true)] >= quorum;
    } else if Reaches(next, quorum, replies[1..]) {
      var m :| 0 < m <= |replies[1..]| && None !in replies[1..][..m] && next + multiset(replies[1..][..m])[Some(true)] >= quorum;
      assert replies[1..][..m + 1 - 1] == replies[1..][..m];
      assert None !in replies[..m + 1] && counted + multiset(replies[..m + 1])[Some(true)] >= quorum;
    }
    if next < quorum && Reaches(counted, quorum, replies) {
      var n :| 0 < n <= |replies| && None !in replies[..n] && counted + multiset(replies[..n])[Some(true)] >= quorum;
      assert None !in replies[1..][..n - 1] && next + multiset(replies[1..][..n - 1])[Some(true)] >= quorum;
    }
  }

  lemma TimeoutEnds(counted: nat, quorum: nat, replies: seq<Option<bool>>)
    requires replies == [] || replies[0] == None
    ensures !Reaches(counted, quorum, replies)
  {
    assert forall n :: 0 < n <= |replies| ==> replies[..n][0] == None;
  }

  /** Counting one reply. */
  lemma OneReply(s: State, rid: nat, events: seq<Option<Addr>>)
    requires rid in s.rounds && s.rounds[rid].status == Asking && s.nodes != map[]
    requires Arriving(s, rid, events) && events != [] && events[0].Some?
    ensures Enabled(s, RoundStep(rid, events[0]))
    ensures var t := Apply(s, RoundStep(rid, events[0])); var yes := s.rounds[rid].calls[events[0].value].confirmed;
            && rid in t.rounds && t.nodes == s.nodes && Arriving(t, rid, events[1..])
            && Replies(t, rid, events[1..]) == Replies(s, rid, events)[1..]
            && t.rounds[rid].tally == s.rounds[rid].tally + (if yes then 1 else 0)
            && t.rounds[rid].status == if t.rounds[rid].tally >= QuorumOf(s) then Accepted else Asking
  {
    hide QuorumOf;
  }

  /** A round that is decided counts nothing more. */
  lemma RoundIsDecided(s: State, rid: nat, events: seq<Option<Addr>>)
    requires rid in s.rounds && s.rounds[rid].status != Asking
    ensures RoundAfter(s, rid, events) == s
  {
  }

  lemma RoundTimesOut(s: State, rid: nat, events: seq<Option<Addr>>)
    requires rid in s.rounds && s.rounds[rid].status == Asking && (events == [] || events[0] == None)
    ensures var t := RoundAfter(s, rid, events); rid in t.rounds && t.rounds[rid].status != Accepted
  {
    if events != [] { RoundIsDecided(Apply(s, RoundTimeout(rid)), rid, events[1..]); }
  }

  lemma {:induction false} RoundTally(s: State, rid: nat, events: seq<Option<Addr>>)
    requires rid in s.rounds && s.rounds[rid].status == Asking && s.nodes != map[] && Arriving(s, rid, events)
    ensures var t := RoundAfter(s, rid, events);
            rid in t.rounds
            && (t.rounds[rid].status == Accepted <==> Reaches(s.rounds[rid].tally, QuorumOf(s), Replies(s, rid, events)))
    decreases |events|
  {
    hide Reaches;
    if events == [] || events[0] == None {
      TimeoutEnds(s.rounds[rid].tally, QuorumOf(s), Replies(s, rid, events));
      RoundTimesOut(s, rid, events);
    } else {
      var t := Apply(s, RoundStep(rid, events[0]));
      OneReply(s, rid, events);
      ReachesStep(s.rounds[rid].tally, QuorumOf(s), Replies(s, rid, events));
      assert RoundAfter(s, rid, events) == RoundAfter(t, rid, events[1..]);
      hide Apply, Enabled, Arriving, RoundAfter;
      if t.rounds[rid].status == Asking {
        RoundTally(t, rid, events[1..]);
      } else {
        RoundIsDecided(t, rid, events[1..]);
      }
    }
  }

  /** A quorum request is accepted by the protocol's steps exactly when the counting loop accepts those replies. */
  lemma TallyIsTheLoop(s: State, rid: nat, events: seq<Option<Addr>>)
    requires rid in s.rounds && s.rounds[rid].status == Asking && s.rounds[rid].tally == 0
    requires s.nodes != map[] && Arriving(s, rid, events)
    ensures var t := RoundAfter(s, rid, events);
            rid in t.rounds
            && (t.rounds[rid].status == Accepted <==> ConfirmsHeard(QuorumOf(s), Replies(s, rid, events)))
  {
    RoundTally(s, rid, events);
    hide RoundAfter, Replies, Arriving, QuorumOf;
  }

  // ----- votes

  ghost function VoteStep(id: CampaignId, event: Option<Addr>): Step {
    match event
    case Some(p) => CountVote(id, p)
    case None => ElectionTimeout(id)
  }

  ghost function CampaignAfter(s: State, id: CampaignId, events: seq<Option<Addr>>): State
    decreases |events|
  {
    if events == [] then s
    else if !Enabled(s, VoteStep(id, events[0])) then s
    else CampaignAfter(Apply(s, VoteStep(id, events[0])), id, events[1..])
  }

  /** Different peers, whose replies have arrived unless they are late. */
  ghost predicate VotesArriving(s: State, id: CampaignId, events: seq<Option<Addr>>) {
    && (forall i :: 0 <= i < |events| && events[i].Some? ==>
          && VoteCallIs(s, id, events[i].value) && s.campaigns[id].calls[events[i].value].VoteHandled?
          && s.campaigns[id].calls[events[i].value].reply == InFlight)
    && (forall i, j :: 0 <= i < j < |events| && events[i].Some? ==> events[i] != events[j])
  }

  /** Which events are replies: all that the loop looks at. */
  ghost function InTime(events: seq<Option<Addr>>): (r: seq<bool>)
    ensures |r| == |events|
  {
    seq(|events|, i requires 0 <= i < |events| => events[i].Some?)
  }

  ghost predicate EnoughVotes(counted: nat, quorum: nat, heard: seq<bool>) {
    var needed := if quorum <= counted then 1 else quorum - counted;
    needed <= |heard| && forall i :: 0 <= i < needed ==> heard[i]
  }

  lemma EnoughStep(counted: nat, quorum: nat, heard: seq<bool>)
    requires heard != [] && heard[0]
    ensures EnoughVotes(counted, quorum, heard) <==> counted + 1 >= quorum || EnoughVotes(counted + 1, quorum, heard[1..])
  {
    var needed := if quorum <= counted then 1 else quorum - counted;
    if counted + 1 < quorum && EnoughVotes(counted + 1, quorum, heard[1..]) {
      forall i | 0 <= i < needed
        ensures heard[i]
      {
        assert i > 0 ==> heard[i] == heard[1..][i - 1];
      }
    }
  }

  lemma OneVote(s: State, id: CampaignId, events: seq<Option<Addr>>)
    requires id in s.campaigns && s.campaigns[id].status == Tallying && s.nodes != map[]
    requires VotesArriving(s, id, events) && events != [] && events[0].Some?
    ensures Enabled(s, VoteStep(id, events[0]))
    ensures var t := Apply(s, VoteStep(id, events[0]));
            && id in t.campaigns && t.nodes == s.nodes && VotesArriving(t, id, events[1..])
            && t.campaigns[id].tally == s.campaigns[id].tally + 1
            && t.campaigns[id].status == if t.campaigns[id].tally >= QuorumOf(s) then Passed else Tallying
  {
    hide QuorumOf;
  }

  lemma CampaignIsDecided(s: State, id: CampaignId, events: seq<Option<Addr>>)
    requires id in s.campaigns && s.campaigns[id].status != Tallying
    ensures CampaignAfter(s, id, events) == s
  {
  }

  lemma CampaignTimesOut(s: State, id: CampaignId, events: seq<Option<Addr>>)
    requires id in s.campaigns && s.campaigns[id].status == Tallying && (events == [] || events[0] == None)
    ensures var t := CampaignAfter(s, id, events); id in t.campaigns && t.campaigns[id].status != Passed
  {
    if events != [] { CampaignIsDecided(Apply(s, ElectionTimeout(id)), id, events[1..]); }
  }

  lemma {:induction false} CampaignTally(s: State, id: CampaignId, events: seq<Option<Addr>>)
    requires id in s.campaigns && s.campaigns[id].status == Tallying && s.nodes != map[] && VotesArriving(s, id, events)
    ensures var t := CampaignAfter(s, id, events);
            id in t.campaigns
            && (t.campaigns[id].status == Passed <==> EnoughVotes(s.campaigns[id].tally, QuorumOf(s), InTime(events)))
    decreases |events|
  {
    if events == [] || events[0] == None {
      CampaignTimesOut(s, id, events);
      assert events != [] ==> !InTime(events)[0];
      hide CampaignAfter, QuorumOf;
    } else {
      var t := Apply(s, VoteStep(id, events[0]));
      OneVote(s, id, events);
      EnoughStep(s.campaigns[id].tally, QuorumOf(s), InTime(events));
      assert InTime(events)[1..] == InTime(events[1..]);
      assert CampaignAfter(s, id, events) == CampaignAfter(t, id, events[1..]);
      hide Apply, Enabled, VotesArriving, CampaignAfter, EnoughVotes, InTime;
      if t.campaigns[id].status == Tallying {
        CampaignTally(t, id, events[1..]);
      } else {
        CampaignIsDecided(t, id, events[1..]);
      }
    }
  }

  /** A campaign passes by the protocol's steps exactly when the counting loop passes it on those events. */
  lemma VoteTallyIsTheLoop(s: State, id: CampaignId, events: seq<Option<Addr>>)
    requires id in s.campaigns && s.campaigns[id].status == Tallying && s.campaigns[id].tally == 0
    requires s.nodes != map[] && VotesArriving(s, id, events)
    ensures var t := CampaignAfter(s, id, events);
            id in t.campaigns && (t.campaigns[id].status == Passed <==> VotesHeard(QuorumOf(s), InTime(events)))
  {
    CampaignTally(s, id, events);
    hide CampaignAfter, InTime, VotesArriving, QuorumOf;
  }
}
