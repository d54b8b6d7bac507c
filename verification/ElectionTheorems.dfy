/** Who can win an election, over every run of any number of nodes. */
module ElectionTheorems {
  import opened Basics
  import opened NodeSteps
  import opened Protocol
  import opened Elections
  import opened Fields
  import Q = Quorum

  /** The candidate and everyone who granted its campaign. */
  ghost function Backing(s: State, id: CampaignId): (r: set<Addr>)
    requires id in s.campaigns
  {
    {id.candidate} + Granters(s.campaigns[id])
  }

  /** v voted in a term it was already in, for a log strictly longer than its own. */
  ghost predicate OutvotedByLongerLog(s: State, id: CampaignId, v: Addr) {
    && HasGranted(s, id, v) && !GrantOf(s, id, v).viaNewTerm
    && GrantOf(s, id, v).voterLength < s.campaigns[id].logIndex
  }

  lemma GrantersArePeers(s: State, id: CampaignId)
    requires ElectionInv(s) && id in s.campaigns
    ensures Granters(s.campaigns[id]) <= Peers(s, id.candidate)
    ensures CountedVoters(s.campaigns[id]) <= Granters(s.campaigns[id])
  {
    assert CampaignOk(s, id);
  }

  lemma WinnersShareBacker(s: State, a: CampaignId, b: CampaignId) returns (v: Addr)
    requires ElectionInv(s) && ReachesQuorum(s, a) && ReachesQuorum(s, b)
    ensures v in Backing(s, a) && v in Backing(s, b)
  {
    GrantersArePeers(s, a);
    GrantersArePeers(s, b);
    assert CampaignOk(s, a) && CampaignOk(s, b);
    assert s.nodes.Keys != {} && |s.nodes| == |s.nodes.Keys|;
    v := Q.QuorumsMeet(s.nodes.Keys, a.candidate, Granters(s.campaigns[a]), b.candidate, Granters(s.campaigns[b]));
  }

  /** A node backing two campaigns of one term voted for one of them as a strictly longer log. */
  lemma DoubleBacking(s: State, a: CampaignId, b: CampaignId, v: Addr)
    requires ElectionInv(s) && a in s.campaigns && b in s.campaigns && a != b && a.term == b.term
    requires v in Backing(s, a) && v in Backing(s, b)
    ensures OutvotedByLongerLog(s, a, v) || OutvotedByLongerLog(s, b, v)
  {
    if v == a.candidate {
      assert HasGranted(s, b, v) && GrantOk(s, b, v);
      assert CampaignId(v, b.term) == a;
    } else if v == b.candidate {
      assert HasGranted(s, a, v) && GrantOk(s, a, v);
      assert CampaignId(v, a.term) == b;
    } else {
      assert HasGranted(s, a, v) && HasGranted(s, b, v);
      assert GrantOk(s, a, v) && GrantOk(s, b, v);
      assert !(EnteredFor(s, a, v) && EnteredFor(s, b, v));
    }
  }

  /**
   * Two campaigns of one term can both reach quorum only through a node that backs both and
   * granted one of them inside the term with a log strictly shorter than the one advertised.
   */
  lemma ConditionalElectionSafety(members: set<Addr>, trace: seq<State>, steps: seq<Step>, i: nat,
                                  a: CampaignId, b: CampaignId)
    requires Run(members, trace, steps) && i < |trace|
    requires ReachesQuorum(trace[i], a) && ReachesQuorum(trace[i], b) && a.term == b.term && a != b
    ensures exists v :: v in Backing(trace[i], a) && v in Backing(trace[i], b)
                        && (OutvotedByLongerLog(trace[i], a, v) || OutvotedByLongerLog(trace[i], b, v))
  {
    hide Run;
    ElectionAlways(members, trace, steps, i);
    var v := WinnersShareBacker(trace[i], a, b);
    DoubleBacking(trace[i], a, b, v);
  }

  /** No vote of the term came through the branch for requests of a term the voter is already in. */
  ghost predicate NoSameTermVote(s: State, term: int) {
    forall id, p :: HasGranted(s, id, p) && id.term == term ==> GrantOf(s, id, p).viaNewTerm
  }

  lemma OneWinnerWithoutSameTermVotes(members: set<Addr>, trace: seq<State>, steps: seq<Step>, i: nat,
                                      a: CampaignId, b: CampaignId)
    requires Run(members, trace, steps) && i < |trace|
    requires ReachesQuorum(trace[i], a) && ReachesQuorum(trace[i], b) && a.term == b.term
    requires NoSameTermVote(trace[i], a.term)
    ensures a == b
  {
    if a != b {
      ConditionalElectionSafety(members, trace, steps, i, a, b);
    }
  }

  /** In particular when every voter of the term was at least as long as the log it voted for. */
  ghost predicate NoVoterShorter(s: State, term: int) {
    forall id, p :: HasGranted(s, id, p) && id.term == term ==> GrantOf(s, id, p).voterLength >= s.campaigns[id].logIndex
  }

  lemma LongVotersEnterTerms(members: set<Addr>, trace: seq<State>, steps: seq<Step>, i: nat, term: int)
    requires Run(members, trace, steps) && i < |trace| && NoVoterShorter(trace[i], term)
    ensures NoSameTermVote(trace[i], term)
  {
    ElectionAlways(members, trace, steps, i);
    hide Run;
    forall id, p | HasGranted(trace[i], id, p) && id.term == term
      ensures GrantOf(trace[i], id, p).viaNewTerm
    {
      assert GrantOk(trace[i], id, p);
    }
  }

  // ----- votes among candidates

  /** Consecutive candidates of one term, each having voted for the next. */
  ghost predicate GrantChain(s: State, term: int, chain: seq<Addr>) {
    && |chain| > 0
    && (forall k :: 0 <= k < |chain| ==> CampaignId(chain[k], term) in s.campaigns)
    && (forall k :: 0 <= k < |chain| - 1 ==> HasGranted(s, CampaignId(chain[k + 1], term), chain[k]))
  }

  lemma {:induction false} ChainClimbs(s: State, term: int, chain: seq<Addr>)
    requires ElectionInv(s) && GrantChain(s, term, chain)
    ensures |chain| > 1 ==> s.campaigns[CampaignId(chain[0], term)].logIndex
                            < s.campaigns[CampaignId(chain[|chain| - 1], term)].logIndex
    decreases |chain|
  {
    if |chain| == 1 {
    } else {
      var n := |chain| - 1;
      var shorter := chain[..n];
      assert shorter[n - 1] == chain[n - 1];
      ChainClimbs(s, term, shorter);
      assert HasGranted(s, CampaignId(chain[n - 1 + 1], term), chain[n - 1]);
      assert GrantOk(s, CampaignId(chain[n], term), chain[n - 1]);
    }
  }

  /** Votes between one term's candidates strictly climb the advertised length, so they form no cycle. */
  lemma CandidateVotesClimb(members: set<Addr>, trace: seq<State>, steps: seq<Step>, i: nat, term: int, chain: seq<Addr>)
    requires Run(members, trace, steps) && i < |trace| && GrantChain(trace[i], term, chain) && |chain| > 1
    ensures trace[i].campaigns[CampaignId(chain[0], term)].logIndex
            < trace[i].campaigns[CampaignId(chain[|chain| - 1], term)].logIndex
    ensures chain[0] != chain[|chain| - 1]
  {
    hide Run;
    ElectionAlways(members, trace, steps, i);
    ChainClimbs(trace[i], term, chain);
  }

  lemma CandidateGrantClimbs(s: State, a: CampaignId, b: CampaignId)
    requires ElectionInv(s) && a in s.campaigns && b in s.campaigns && a.term == b.term
    requires a.candidate in Granters(s.campaigns[b])
    ensures s.campaigns[a].logIndex < s.campaigns[b].logIndex
  {
    assert HasGranted(s, b, a.candidate);
    assert GrantOk(s, b, a.candidate);
    assert CampaignId(a.candidate, b.term) == a;
  }

  /** With two clusters at most one campaign of a term is ever granted a quorum, unconditionally. */
  lemma TwoClustersOneWinner(members: set<Addr>, trace: seq<State>, steps: seq<Step>, i: nat, a: CampaignId, b: CampaignId)
    requires Run(members, trace, steps) && i < |trace| && |members| == 2
    requires ReachesQuorum(trace[i], a) && ReachesQuorum(trace[i], b) && a.term == b.term
    ensures a == b
  {
    ElectionAlways(members, trace, steps, i);
    RunMembers(members, trace, steps, i);
    var s := trace[i];
    hide Run;
    if a != b {
      assert CampaignOk(s, a) && CampaignOk(s, b);
      GrantersArePeers(s, a);
      GrantersArePeers(s, b);
      OnlyPeerGranted(members, a.candidate, b.candidate, Granters(s.campaigns[a]));
      OnlyPeerGranted(members, b.candidate, a.candidate, Granters(s.campaigns[b]));
      CandidateGrantClimbs(s, a, b);
      CandidateGrantClimbs(s, b, a);
    }
  }

  lemma OnlyPeerGranted(members: set<Addr>, x: Addr, y: Addr, granters: set<Addr>)
    requires |members| == 2 && x in members && y in members && x != y
    requires granters <= members - {x} && granters != {}
    ensures y in granters
  {
    assert |members - {x, y}| == 0;
    assert members - {x, y} == {};
    var g :| g in granters;
    assert g in members - {x, y} || g == y;
  }

  // ----- tallies and terms

  /** The count of replies is the number of distinct peers that granted and were heard. */
  lemma TallyIsExact(members: set<Addr>, trace: seq<State>, steps: seq<Step>, i: nat, id: CampaignId)
    requires Run(members, trace, steps) && i < |trace| && id in trace[i].campaigns
    ensures var c := trace[i].campaigns[id];
            && c.tally == |CountedVoters(c)|
            && CountedVoters(c) <= Granters(c) <= members - {id.candidate}
            && (forall p :: p in Granters(c) ==> c.calls[p].grant.value.voterLength <= c.logIndex)
            && (c.status == Passed ==> ReachesQuorum(trace[i], id))
  {
    ElectionAlways(members, trace, steps, i);
    RunMembers(members, trace, steps, i);
    hide Run;
    var s := trace[i];
    var c := s.campaigns[id];
    assert CampaignOk(s, id);
    GrantersArePeers(s, id);
    forall p | p in Granters(c)
      ensures c.calls[p].grant.value.voterLength <= c.logIndex
    {
      assert HasGranted(s, id, p) && GrantOk(s, id, p);
    }
    Q.SubsetSize(CountedVoters(c), Granters(c));
  }

  /** Whoever is leader was once granted votes by a majority, itself included, in a campaign of its own. */
  lemma LeaderHadMajority(members: set<Addr>, trace: seq<State>, steps: seq<Step>, i: nat, v: Addr)
    requires Run(members, trace, steps) && i < |trace| && v in trace[i].nodes && trace[i].nodes[v].role == LEADER
    ensures exists term :: ReachesQuorum(trace[i], CampaignId(v, term))
                           && 2 * |Backing(trace[i], CampaignId(v, term))| > |members|
  {
    ElectionAlways(members, trace, steps, i);
    RunMembers(members, trace, steps, i);
    var s := trace[i];
    assert RoleOk(s, v);
    var term :| WonCampaign(s, CampaignId(v, term));
    var id := CampaignId(v, term);
    TallyIsExact(members, trace, steps, i, id);
    hide Run;
    GrantersArePeers(s, id);
    assert |Backing(s, id)| == 1 + |Granters(s.campaigns[id])|;
  }

  /** A campaign takes a term its candidate has never been in, above all its earlier campaigns. */
  lemma CampaignTermsIncrease(members: set<Addr>, trace: seq<State>, steps: seq<Step>, i: nat, v: Addr)
    requires Run(members, trace, steps) && i < |steps| && steps[i] == StartCampaign(v)
    ensures v in trace[i].nodes
    ensures var id := CampaignId(v, trace[i].nodes[v].term + 1);
            && id !in trace[i].campaigns && id in trace[i + 1].campaigns
            && trace[i + 1].nodes[v].term == id.term
            && (forall other :: other in trace[i].campaigns && other.candidate == v ==> other.term < id.term)
  {
    ElectionAlways(members, trace, steps, i);
    assert Enabled(trace[i], steps[i]) && trace[i + 1] == Apply(trace[i], steps[i]);
    hide Run, Execution;
    forall other | other in trace[i].campaigns && other.candidate == v
      ensures other.term <= trace[i].nodes[v].term
    {
      assert CampaignOk(trace[i], other);
    }
    CampaigningIsNew(trace[i], v);
  }

  /** No node moves into the same term twice. */
  lemma EntersTermOnce(trace: seq<State>, steps: seq<Step>, i: nat, j: nat, v: Addr)
    requires Execution(trace, steps) && i < j < |steps| && v in trace[0].nodes
    ensures forall k :: 0 <= k < |trace| ==> v in trace[k].nodes
    ensures trace[i].nodes[v].term < trace[i + 1].nodes[v].term && trace[j].nodes[v].term < trace[j + 1].nodes[v].term
            ==> trace[i + 1].nodes[v].term < trace[j + 1].nodes[v].term
  {
    hide Apply, Enabled;
    forall k | 0 <= k < |trace|
      ensures v in trace[k].nodes
    {
      RunProgress(trace, steps, 0, k);
    }
    RunProgress(trace, steps, i + 1, j);
  }

  /** A voter's step of answering a request for a term it has not reached. */
  ghost predicate EntersByVote(s: State, step: Step, v: Addr, term: int) {
    && step.HandleVoteRequest? && step.voter == v && step.id.term == term
    && v in s.nodes && s.nodes[v].term < term
  }

  /** Along a run a node goes through the branch for requests of a new term at most once per term. */
  lemma OneAnswerEntersTerm(members: set<Addr>, trace: seq<State>, steps: seq<Step>, i: nat, j: nat, v: Addr, term: int)
    requires Run(members, trace, steps) && i < |steps| && j < |steps|
    requires EntersByVote(trace[i], steps[i], v, term) && EntersByVote(trace[j], steps[j], v, term)
    ensures i == j
  {
    StepAt(trace, steps, i);
    StepAt(trace, steps, j);
    EveryFieldMoves(trace[i], steps[i], v);
    EveryFieldMoves(trace[j], steps[j], v);
    RunMembers(members, trace, steps, i);
    RunMembers(members, trace, steps, 0);
    hide Apply, Enabled;
    if i < j {
      EntersTermOnce(trace, steps, i, j, v);
    } else if j < i {
      EntersTermOnce(trace, steps, j, i, v);
    }
  }
}
