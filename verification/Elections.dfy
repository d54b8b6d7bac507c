/** What every run keeps about campaigns, votes and terms, and what follows for who can win. */
module Elections {
  import opened Basics
  import opened NodeSteps
  import opened Protocol
  import Q = Quorum

  ghost predicate HasGranted(s: State, id: CampaignId, p: Addr) {
    id in s.campaigns && p in Granters(s.campaigns[id])
  }

  ghost function GrantOf(s: State, id: CampaignId, p: Addr): Grant
    requires HasGranted(s, id, p)
  {
    s.campaigns[id].calls[p].grant.value
  }

  ghost function Granters(c: Campaign): (r: set<Addr>) {
    set p | p in c.calls && c.calls[p].VoteHandled? && c.calls[p].grant.Some?
  }

  ghost function CountedVoters(c: Campaign): (r: set<Addr>) {
    set p | p in c.calls && c.calls[p].VoteHandled? && c.calls[p].reply == Heard
  }

  /** Although replies are counted unread, each one was sent with a grant, and each grant with a reply. */
  ghost predicate RepliesAreGrants(c: Campaign) {
    forall p :: p in c.calls && c.calls[p].VoteHandled? ==> (c.calls[p].grant.Some? <==> c.calls[p].reply != Withheld)
  }

  /** A campaign that enough peers granted to be won, whether or not the candidate hears of it. */
  ghost predicate ReachesQuorum(s: State, id: CampaignId) {
    id in s.campaigns && s.nodes != map[] && |Granters(s.campaigns[id])| >= QuorumOf(s)
  }

  // ----- the invariant

  ghost predicate CampaignOk(s: State, id: CampaignId)
    requires id in s.campaigns && s.nodes != map[]
  {
    var c := s.campaigns[id];
    && id.candidate in s.nodes
    && id.term <= s.nodes[id.candidate].term
    && c.calls.Keys == Peers(s, id.candidate)
    && c.logIndex <= LogLength(s.nodes[id.candidate])
    && RepliesAreGrants(c)
    && c.tally == |CountedVoters(c)|
    && (c.status == Passed ==> c.tally >= QuorumOf(s))
  }

  ghost predicate GrantOk(s: State, id: CampaignId, p: Addr)
    requires HasGranted(s, id, p)
  {
    var g, own := GrantOf(s, id, p), CampaignId(p, id.term);
    && p in s.nodes
    && id.term <= s.nodes[p].term
    && g.voterLength <= LogLength(s.nodes[p])
    && (if g.viaNewTerm then g.voterLength <= s.campaigns[id].logIndex else g.voterLength < s.campaigns[id].logIndex)
    && (own in s.campaigns ==> !g.viaNewTerm && s.campaigns[own].logIndex <= g.voterLength)
  }

  /** p entered the campaign's term by voting for it. */
  ghost predicate EnteredFor(s: State, id: CampaignId, p: Addr) {
    HasGranted(s, id, p) && GrantOf(s, id, p).viaNewTerm
  }

  ghost predicate WonCampaign(s: State, id: CampaignId) {
    id in s.campaigns && s.campaigns[id].status == Passed
  }

  ghost predicate RoleOk(s: State, v: Addr)
    requires v in s.nodes
  {
    && (s.nodes[v].role == LEADER ==> exists term :: WonCampaign(s, CampaignId(v, term)))
    && (s.nodes[v].electing.Some? ==> CampaignId(v, s.nodes[v].electing.value) in s.campaigns)
  }

  ghost predicate CampaignsOk(s: State) {
    s.nodes != map[] && forall id :: id in s.campaigns ==> CampaignOk(s, id)
  }

  ghost predicate GrantsOk(s: State) {
    forall id, p :: HasGranted(s, id, p) ==> GrantOk(s, id, p)
  }

  ghost predicate EntersOnce(s: State) {
    forall id, other, p :: EnteredFor(s, id, p) && EnteredFor(s, other, p) && id.term == other.term ==> id == other
  }

  ghost predicate RolesOk(s: State) {
    forall v :: v in s.nodes ==> RoleOk(s, v)
  }

  ghost predicate ElectionInv(s: State) {
    CampaignsOk(s) && GrantsOk(s) && EntersOnce(s) && RolesOk(s)
  }

  // ----- it holds along every run

  lemma InitElection(members: set<Addr>)
    requires members != {}
    ensures ElectionInv(Init(members))
  {
    var v :| v in members;
    assert v in Init(members).nodes;
  }

  /** What the invariant needs to know about how nodes change. */
  ghost predicate Grown(s: State, t: State) {
    && s.nodes.Keys == t.nodes.Keys
    && forall v :: v in s.nodes ==>
      s.nodes[v].term <= t.nodes[v].term && LogLength(s.nodes[v]) <= LogLength(t.nodes[v])
  }

  lemma ProgressGrows(s: State, t: State)
    requires NodesProgress(s, t)
    ensures Grown(s, t)
  {
    forall v | v in s.nodes
      ensures LogLength(s.nodes[v]) <= LogLength(t.nodes[v])
    {
      LengthProgress(s, t, v);
    }
  }

  lemma SameQuorum(s: State, t: State)
    requires s.nodes.Keys == t.nodes.Keys && s.nodes != map[]
    ensures t.nodes != map[] && QuorumOf(s) == QuorumOf(t)
  {
    assert |s.nodes| == |s.nodes.Keys| && |t.nodes| == |t.nodes.Keys|;
    var v :| v in s.nodes;
    assert v in t.nodes;
  }

  lemma CampaignsKept(s: State, t: State, changed: CampaignId)
    requires CampaignsOk(s) && Grown(s, t)
    requires forall id :: id in t.campaigns && id != changed ==> id in s.campaigns && t.campaigns[id] == s.campaigns[id]
    requires t.nodes != map[] && (changed in t.campaigns ==> CampaignOk(t, changed))
    ensures CampaignsOk(t)
  {
    SameQuorum(s, t);
    forall id | id in t.campaigns
      ensures CampaignOk(t, id)
    {
      if id != changed { assert CampaignOk(s, id); }
    }
  }

  /** A grant that was there before, in a term its voter has not started to campaign in meanwhile. */
  ghost predicate GrantCarried(s: State, t: State, id: CampaignId, p: Addr)
    requires HasGranted(t, id, p)
  {
    var own := CampaignId(p, id.term);
    && HasGranted(s, id, p) && GrantOf(t, id, p) == GrantOf(s, id, p)
    && t.campaigns[id].logIndex == s.campaigns[id].logIndex
    && (own in t.campaigns ==> own in s.campaigns && t.campaigns[own].logIndex == s.campaigns[own].logIndex)
  }

  lemma GrantsKept(s: State, t: State)
    requires GrantsOk(s) && Grown(s, t)
    requires forall id, p :: HasGranted(t, id, p) ==> GrantCarried(s, t, id, p) || GrantOk(t, id, p)
    ensures GrantsOk(t)
  {
    forall id, p | HasGranted(t, id, p)
      ensures GrantOk(t, id, p)
    {
      if GrantCarried(s, t, id, p) { assert GrantOk(s, id, p); }
    }
  }

  lemma EntersOnceKept(s: State, t: State)
    requires EntersOnce(s)
    requires forall id, p :: EnteredFor(t, id, p) ==> EnteredFor(s, id, p)
    ensures EntersOnce(t)
  {
  }

  lemma RolesKept(s: State, t: State)
    requires RolesOk(s) && s.nodes.Keys == t.nodes.Keys && s.campaigns.Keys <= t.campaigns.Keys
    requires forall id :: WonCampaign(s, id) ==> WonCampaign(t, id)
    requires forall v :: v in s.nodes && t.nodes[v].role == LEADER ==>
      s.nodes[v].role == LEADER || exists term :: WonCampaign(t, CampaignId(v, term))
    requires forall v :: v in s.nodes && t.nodes[v].electing.Some? ==>
      t.nodes[v].electing == s.nodes[v].electing || CampaignId(v, t.nodes[v].electing.value) in t.campaigns
    ensures RolesOk(t)
  {
    forall v | v in t.nodes
      ensures RoleOk(t, v)
    {
      assert RoleOk(s, v);
      if t.nodes[v].role == LEADER && s.nodes[v].role == LEADER {
        var term :| WonCampaign(s, CampaignId(v, term));
        assert WonCampaign(t, CampaignId(v, term));
      }
    }
  }

  /** Steps that touch no campaign, promote nobody and start no election. */
  lemma ElectionFrame(s: State, t: State)
    requires ElectionInv(s) && NodesProgress(s, t) && t.campaigns == s.campaigns
    requires forall v :: v in s.nodes ==>
      (t.nodes[v].role == LEADER ==> s.nodes[v].role == LEADER) && t.nodes[v].electing in {None, s.nodes[v].electing}
    ensures ElectionInv(t)
  {
    ProgressGrows(s, t);
    hide NodesProgress, Grown;
    SameKeys(s, t);
    SameQuorum(s, t);
    RolesKept(s, t);
    hide RolesOk, RoleOk;
    SameCampaignsFrame(s, t);
  }

  lemma SameCampaignsFrame(s: State, t: State)
    requires CampaignsOk(s) && GrantsOk(s) && EntersOnce(s) && Grown(s, t) && t.campaigns == s.campaigns && t.nodes != map[]
    ensures CampaignsOk(t) && GrantsOk(t) && EntersOnce(t)
  {
    if id :| id in s.campaigns {
      FrameCampaign(s, t, id);
      CampaignsKept(s, t, id);
    }
    hide CampaignOk, GrantOk, Grown, CampaignsOk;
    assert forall id, p :: HasGranted(t, id, p) ==> GrantCarried(s, t, id, p);
    GrantsKept(s, t);
    EntersOnceKept(s, t);
  }

  lemma SameKeys(s: State, t: State)
    requires Grown(s, t)
    ensures s.nodes.Keys == t.nodes.Keys
  {
  }

  lemma FrameCampaign(s: State, t: State, id: CampaignId)
    requires CampaignsOk(s) && Grown(s, t) && id in s.campaigns && id in t.campaigns
    requires t.campaigns[id] == s.campaigns[id] && t.nodes != map[]
    ensures CampaignOk(t, id)
  {
    SameQuorum(s, t);
    assert CampaignOk(s, id);
  }

  // ----- starting a campaign

  lemma CampaigningIsNew(s: State, v: Addr)
    requires CampaignsOk(s) && v in s.nodes
    ensures CampaignId(v, s.nodes[v].term + 1) !in s.campaigns
  {
    var mine := CampaignId(v, s.nodes[v].term + 1);
    assert mine in s.campaigns ==> CampaignOk(s, mine);
  }

  lemma CampaigningKeeps(s: State, v: Addr)
    requires ElectionInv(s) && v in s.nodes
    ensures ElectionInv(Campaigning(s, v))
  {
    var t := Campaigning(s, v);
    CampaigningOk(s, v);
    CampaigningGrants(s, v);
    CampaigningGrown(s, v);
    CampaigningRoles(s, v);
    hide Campaigning, Grown, GrantOk, CampaignsOk, GrantCarried, RolesOk;
    GrantsKept(s, t);
    EntersOnceKept(s, t);
  }

  lemma CampaigningGrown(s: State, v: Addr)
    requires v in s.nodes
    ensures Grown(s, Campaigning(s, v)) && Campaigning(s, v).nodes != map[]
  {
    assert v in Campaigning(s, v).nodes;
  }

  lemma CampaigningRoles(s: State, v: Addr)
    requires CampaignsOk(s) && RolesOk(s) && v in s.nodes
    ensures RolesOk(Campaigning(s, v))
  {
    CampaigningIsNew(s, v);
    hide CampaignOk, LogLength;
    RolesKept(s, Campaigning(s, v));
  }

  lemma CampaigningOk(s: State, v: Addr)
    requires CampaignsOk(s) && v in s.nodes
    ensures CampaignsOk(Campaigning(s, v))
  {
    var t := Campaigning(s, v);
    var mine := CampaignId(v, s.nodes[v].term + 1);
    CampaigningGrown(s, v);
    NewCampaignOk(s, v);
    hide Campaigning, CampaignOk, Grown, LogLength, CountedVoters;
    CampaignsKept(s, t, mine);
  }

  lemma NewCampaignOk(s: State, v: Addr)
    requires v in s.nodes
    ensures var t, mine := Campaigning(s, v), CampaignId(v, s.nodes[v].term + 1);
            && mine in t.campaigns && t.campaigns == s.campaigns[mine := t.campaigns[mine]]
            && t.nodes != map[] && CampaignOk(t, mine)
  {
    var t, mine := Campaigning(s, v), CampaignId(v, s.nodes[v].term + 1);
    assert t.nodes[v].log == s.nodes[v].log;
    hide LogLength, QuorumOf;
    assert CountedVoters(t.campaigns[mine]) == {};
  }

  lemma CampaigningGrants(s: State, v: Addr)
    requires CampaignsOk(s) && GrantsOk(s) && v in s.nodes
    ensures var t := Campaigning(s, v);
            forall id, p :: HasGranted(t, id, p) ==>
              GrantCarried(s, t, id, p) && (EnteredFor(t, id, p) ==> EnteredFor(s, id, p))
  {
    var t := Campaigning(s, v);
    CampaigningIsNew(s, v);
    forall id, p | HasGranted(t, id, p)
      ensures GrantCarried(s, t, id, p)
    {
      assert id != CampaignId(v, s.nodes[v].term + 1);
      assert HasGranted(s, id, p);
      assert GrantOk(s, id, p);
    }
  }

  // ----- voting

  lemma VotingKeeps(s: State, id: CampaignId, p: Addr)
    requires ElectionInv(s) && VoteCallIs(s, id, p) && s.campaigns[id].calls[p] == VoteSent
    ensures ElectionInv(Voting(s, id, p))
  {
    var t := Voting(s, id, p);
    VotingNodes(s, id, p);
    SameQuorum(s, t);
    VotingOk(s, id, p);
    VotingGrants(s, id, p);
    CampaignsKept(s, t, id);
    GrantsKept(s, t);
    VotingEnters(s, id, p);
    VotingRoles(s, id, p);
  }

  lemma VotingNodes(s: State, id: CampaignId, p: Addr)
    requires VoteCallIs(s, id, p)
    ensures Grown(s, Voting(s, id, p))
  {
    var req := RequestVote(id.term, id.candidate, s.campaigns[id].logIndex);
    VoteMeaning(s.nodes.Keys, s.nodes[p], req);
    NodeMoves(s, Voting(s, id, p), p, OnRequestVote(s.nodes.Keys, s.nodes[p], req).0);
    ProgressGrows(s, Voting(s, id, p));
  }

  lemma VotingOk(s: State, id: CampaignId, p: Addr)
    requires CampaignsOk(s) && VoteCallIs(s, id, p) && s.campaigns[id].calls[p] == VoteSent
    requires Grown(s, Voting(s, id, p)) && Voting(s, id, p).nodes != map[]
    ensures CampaignOk(Voting(s, id, p), id)
  {
    VotingCall(s, id, p);
    hide Voting;
    SameCampaignOk(s, Voting(s, id, p), id);
  }

  lemma VotingCall(s: State, id: CampaignId, p: Addr)
    requires VoteCallIs(s, id, p) && s.campaigns[id].calls[p] == VoteSent
    ensures var t := Voting(s, id, p); id in t.campaigns && CountsAlike(s.campaigns[id], t.campaigns[id])
  {
    hide LogLength, OnRequestVote;
    var c, d := s.campaigns[id], Voting(s, id, p).campaigns[id];
    assert d == c.(calls := c.calls[p := d.calls[p]]);
    UncountedCall(c, p, d.calls[p]);
  }

  /** Nothing the tally is about has changed. */
  ghost predicate CountsAlike(c: Campaign, d: Campaign) {
    && d.logIndex == c.logIndex && d.tally == c.tally && d.status == c.status
    && d.calls.Keys == c.calls.Keys && CountedVoters(d) == CountedVoters(c)
    && (RepliesAreGrants(c) ==> RepliesAreGrants(d))
  }

  lemma SameCampaignOk(s: State, t: State, id: CampaignId)
    requires CampaignsOk(s) && id in s.campaigns && Grown(s, t) && t.nodes != map[]
    requires id in t.campaigns && CountsAlike(s.campaigns[id], t.campaigns[id])
    ensures CampaignOk(t, id)
  {
    SameQuorum(s, t);
    assert CampaignOk(s, id);
    hide LogLength, CountedVoters, RepliesAreGrants, QuorumOf;
  }

  lemma UncountedCall(c: Campaign, p: Addr, call: VoteCall)
    requires p in c.calls && c.calls[p] == VoteSent && call.VoteHandled?
    requires call.reply != Heard && (call.grant.Some? <==> call.reply != Withheld)
    ensures CountsAlike(c, c.(calls := c.calls[p := call]))
  {
    assert c.calls[p := call].Keys == c.calls.Keys;
  }

  lemma VotingGrants(s: State, id: CampaignId, p: Addr)
    requires CampaignsOk(s) && VoteCallIs(s, id, p) && s.campaigns[id].calls[p] == VoteSent
    ensures var t := Voting(s, id, p);
            && (forall k, q :: HasGranted(t, k, q) && (k, q) != (id, p) ==> GrantCarried(s, t, k, q))
            && (HasGranted(t, id, p) ==> GrantOk(t, id, p))
  {
    var t := Voting(s, id, p);
    VoteMeaning(s.nodes.Keys, s.nodes[p], RequestVote(id.term, id.candidate, s.campaigns[id].logIndex));
    var own := CampaignId(p, id.term);
    if own in s.campaigns { assert CampaignOk(s, own); }
    forall k, q | HasGranted(t, k, q) && (k, q) != (id, p)
      ensures GrantCarried(s, t, k, q)
    {
      assert HasGranted(s, k, q);
    }
  }

  /** Entering a term by voting means not having voted or campaigned in it yet. */
  lemma VotingEnters(s: State, id: CampaignId, p: Addr)
    requires GrantsOk(s) && EntersOnce(s) && VoteCallIs(s, id, p) && s.campaigns[id].calls[p] == VoteSent
    ensures EntersOnce(Voting(s, id, p))
  {
    var t := Voting(s, id, p);
    VoteMeaning(s.nodes.Keys, s.nodes[p], RequestVote(id.term, id.candidate, s.campaigns[id].logIndex));
    forall k, q | EnteredFor(t, k, q) && (k, q) != (id, p)
      ensures EnteredFor(s, k, q) && (q == p && EnteredFor(t, id, p) ==> k.term != id.term)
    {
      assert HasGranted(s, k, q);
      assert GrantOk(s, k, q);
    }
  }

  lemma VotingRoles(s: State, id: CampaignId, p: Addr)
    requires RolesOk(s) && VoteCallIs(s, id, p)
    ensures RolesOk(Voting(s, id, p))
  {
    var t := Voting(s, id, p);
    VoteMeaning(s.nodes.Keys, s.nodes[p], RequestVote(id.term, id.candidate, s.campaigns[id].logIndex));
    assert t.nodes == s.nodes[p := t.nodes[p]];
    assert forall k :: WonCampaign(s, k) ==> WonCampaign(t, k);
    assert s.campaigns.Keys <= t.campaigns.Keys;
    hide LogLength, OnRequestVote, Voting, WonCampaign;
    OneRoleKept(s, t, p);
  }

  /** One node has at most stood down. */
  lemma OneRoleKept(s: State, t: State, v: Addr)
    requires RolesOk(s) && v in s.nodes && v in t.nodes && t.nodes == s.nodes[v := t.nodes[v]]
    requires s.campaigns.Keys <= t.campaigns.Keys && forall id :: WonCampaign(s, id) ==> WonCampaign(t, id)
    requires t.nodes[v].role == LEADER ==> s.nodes[v].role == LEADER
    requires t.nodes[v].electing == s.nodes[v].electing
    ensures RolesOk(t)
  {
    hide RolesOk, WonCampaign;
    RolesKept(s, t);
  }

  // ----- counting

  /** Updating the tally, status or counted marks of one campaign. */
  lemma TallyKeeps(s: State, t: State, id: CampaignId)
    requires ElectionInv(s) && id in s.campaigns && id in t.campaigns && t.nodes == s.nodes
    requires t.campaigns == s.campaigns[id := t.campaigns[id]] && CampaignOk(t, id)
    requires t.campaigns[id].logIndex == s.campaigns[id].logIndex
    requires s.campaigns[id].status == Passed ==> t.campaigns[id].status == Passed
    requires forall p :: HasGranted(t, id, p) ==> HasGranted(s, id, p) && GrantOf(t, id, p) == GrantOf(s, id, p)
    ensures ElectionInv(t)
  {
    hide CampaignOk, GrantOk, LogLength;
    CampaignsKept(s, t, id);
    hide CampaignsOk;
    forall k, p | HasGranted(t, k, p)
      ensures GrantCarried(s, t, k, p)
    {
      assert HasGranted(s, k, p);
    }
    GrantsKept(s, t);
    EntersOnceKept(s, t);
    RolesKept(s, t);
  }

  lemma VoteCountedKeeps(s: State, id: CampaignId, p: Addr)
    requires ElectionInv(s) && VoteCallIs(s, id, p) && s.campaigns[id].status == Tallying
    requires s.campaigns[id].calls[p].VoteHandled? && s.campaigns[id].calls[p].reply == InFlight
    ensures ElectionInv(VoteCounted(s, id, p))
  {
    var t := VoteCounted(s, id, p);
    HeardCall(s.campaigns[id], t.campaigns[id], p);
    VoteCountedOk(s, id, p);
    hide CampaignOk, GrantOk, QuorumOf, CountedVoters, Granters, RepliesAreGrants, ElectionInv;
    TallyKeeps(s, t, id);
  }

  lemma HeardCall(c: Campaign, d: Campaign, p: Addr)
    requires p in c.calls && c.calls[p].VoteHandled? && c.calls[p].reply == InFlight
    requires d.calls == c.calls[p := c.calls[p].(reply := Heard)]
    ensures d.calls.Keys == c.calls.Keys && (RepliesAreGrants(c) ==> RepliesAreGrants(d))
    ensures p !in CountedVoters(c) && CountedVoters(d) == CountedVoters(c) + {p}
    ensures Granters(d) == Granters(c) && forall q :: q in Granters(c) ==> d.calls[q].grant == c.calls[q].grant
  {
  }

  lemma VoteCountedOk(s: State, id: CampaignId, p: Addr)
    requires CampaignsOk(s) && VoteCallIs(s, id, p)
    requires s.campaigns[id].calls[p].VoteHandled? && s.campaigns[id].calls[p].reply == InFlight
    ensures CampaignOk(VoteCounted(s, id, p), id)
  {
    assert CampaignOk(s, id);
    HeardCall(s.campaigns[id], VoteCounted(s, id, p).campaigns[id], p);
    hide LogLength, CountedVoters, RepliesAreGrants;
  }

  lemma ElectionResultKeeps(s: State, v: Addr)
    requires ElectionInv(s) && Enabled(s, TakeElectionResult(v))
    ensures ElectionInv(ElectionResult(s, v))
  {
    ElectionResultRoles(s, v);
    ElectionResultNodes(s, v);
    hide CampaignsOk, GrantsOk, EntersOnce, RolesOk, ElectionResult, Enabled;
    SameStateButRole(s, ElectionResult(s, v));
  }

  lemma ElectionResultNodes(s: State, v: Addr)
    requires Enabled(s, TakeElectionResult(v))
    ensures var t := ElectionResult(s, v);
            && t.campaigns == s.campaigns && s.nodes.Keys == t.nodes.Keys
            && forall u :: u in s.nodes ==> t.nodes[u].log == s.nodes[u].log && t.nodes[u].term == s.nodes[u].term
  {
  }

  lemma ElectionResultRoles(s: State, v: Addr)
    requires RolesOk(s) && Enabled(s, TakeElectionResult(v))
    ensures RolesOk(ElectionResult(s, v))
  {
    var t := ElectionResult(s, v);
    if t.nodes[v].role == LEADER && s.nodes[v].role != LEADER {
      assert WonCampaign(t, CampaignId(v, s.nodes[v].electing.value));
    }
    assert t.nodes == s.nodes[v := t.nodes[v]] && t.nodes[v].electing == None;
    hide RolesOk, ElectionResult, Enabled;
    RolesKept(s, t);
  }

  lemma SameStateButRole(s: State, t: State)
    requires CampaignsOk(s) && GrantsOk(s) && EntersOnce(s)
    requires t.campaigns == s.campaigns && s.nodes.Keys == t.nodes.Keys
    requires forall v :: v in s.nodes ==> t.nodes[v].log == s.nodes[v].log && t.nodes[v].term == s.nodes[v].term
    ensures CampaignsOk(t) && GrantsOk(t) && EntersOnce(t)
  {
    assert Grown(s, t);
    SameQuorum(s, t);
    hide CampaignsOk, GrantsOk, EntersOnce, Grown;
    SameCampaignsFrame(s, t);
  }

  lemma ElectionStepKeeps(s: State, step: Step)
    requires ElectionInv(s) && Enabled(s, step) && ElectionStep(step)
    ensures ElectionInv(Apply(s, step))
  {
    hide ElectionInv, NodesProgress;
    if step.BecomeCandidate? || step.TakeNewLeader? || step.TakeNewTerm? {
      RoleStepKeeps(s, step);
    } else {
      match step
      case StartCampaign(v) => CampaigningKeeps(s, v);
      case HandleVoteRequest(id, p) => VotingKeeps(s, id, p);
      case CountVote(id, p) => VoteCountedKeeps(s, id, p);
      case ElectionTimeout(id) => TimeoutKeeps(s, id);
      case TakeElectionResult(v) => ElectionResultKeeps(s, v);
    }
  }

  lemma TimeoutKeeps(s: State, id: CampaignId)
    requires ElectionInv(s) && Enabled(s, ElectionTimeout(id))
    ensures ElectionInv(Apply(s, ElectionTimeout(id)))
  {
    assert CampaignOk(s, id);
    TallyKeeps(s, Apply(s, ElectionTimeout(id)), id);
  }

  /** A node that leaves its role for another one than leader, its term and log unchanged. */
  lemma StandDownKeeps(s: State, v: Addr, n: Node)
    requires ElectionInv(s) && v in s.nodes
    requires n.role != LEADER && n.term == s.nodes[v].term && n.log == s.nodes[v].log
    requires n.electing in {None, s.nodes[v].electing}
    ensures ElectionInv(SetNode(s, v, n))
  {
    NodeMoves(s, SetNode(s, v, n), v, n);
    hide ElectionInv, NodesProgress;
    ElectionFrame(s, SetNode(s, v, n));
  }

  lemma RoleStepKeeps(s: State, step: Step)
    requires ElectionInv(s) && Enabled(s, step)
    requires step.BecomeCandidate? || step.TakeNewLeader? || step.TakeNewTerm?
    ensures ElectionInv(Apply(s, step))
  {
    hide ElectionInv;
    var v := step.v;
    StandDownKeeps(s, v, Apply(s, step).nodes[v]);
  }

  /** Replication steps leave campaigns, roles and pending elections alone. */
  ghost predicate ElectionsUntouched(s: State, t: State) {
    && NodesProgress(s, t) && t.campaigns == s.campaigns
    && forall v :: v in s.nodes ==> t.nodes[v].role == s.nodes[v].role && t.nodes[v].electing == s.nodes[v].electing
  }

  lemma AppendingUntouched(s: State, p: Addr, req: AppendEntry, conn: Conn, newId: nat, lookup: Option<Addr>)
    requires p in s.nodes
    ensures ElectionsUntouched(s, Appending(s, p, req, conn, newId, lookup))
  {
    AppendingNodes(s, p, req, conn, newId, lookup);
    AppendingProgress(s, p, req, conn, newId, lookup);
  }

  lemma ReplicationUntouched(s: State, step: Step)
    requires Enabled(s, step) && !ElectionStep(step)
    ensures ElectionsUntouched(s, Apply(s, step))
  {
    if AppendStep(step) { AppendStepUntouched(s, step); } else { OtherStepUntouched(s, step); }
  }

  lemma AppendStepUntouched(s: State, step: Step)
    requires Enabled(s, step) && AppendStep(step)
    ensures ElectionsUntouched(s, Apply(s, step))
  {
    match step
    case HandleHeartbeat(beat, p, newId, lookup) =>
      AppendingUntouched(s, p, AppendEntry(beat.term, beat.leader, beat.logIndex, EMPTY_CMD), NoConn, newId, lookup);
    case HandleRoundAppend(rid, p, newId, lookup) =>
      var r := s.rounds[rid];
      AppendingUntouched(SetCall(s, rid, p, Working), p, AppendEntry(r.term, r.leader, r.logIndex, r.cmd),
                         RoundConn(rid, p), newId, lookup);
    case HandleWrite(w, newId, lookup) =>
      var wr := s.writes[w];
      AppendingUntouched(s.(writes := s.writes[w := wr.(status := WriteWorking)]), wr.target,
                         AppendEntry(wr.term, wr.target, wr.logIndex, wr.cmd), WriteConn(w), newId, lookup);
  }

  lemma OtherStepUntouched(s: State, step: Step)
    requires Enabled(s, step) && !ElectionStep(step) && !AppendStep(step)
    ensures ElectionsUntouched(s, Apply(s, step))
  {
    hide Apply, Enabled;
    OtherStepProgress(s, step);
    if StoringStep(step) { StoringUntouched(s, step); } else { QuietUntouched(s, step); }
  }

  lemma StoringUntouched(s: State, step: Step)
    requires Enabled(s, step) && StoringStep(step)
    ensures Apply(s, step).campaigns == s.campaigns
    ensures Apply(s, step).nodes.Keys == s.nodes.Keys
    ensures forall v :: v in s.nodes ==> Apply(s, step).nodes[v].role == s.nodes[v].role
                                         && Apply(s, step).nodes[v].electing == s.nodes[v].electing
  {
    StoringStepNodes(s, step);
    hide Apply, Enabled, StoredBy;
  }

  lemma QuietUntouched(s: State, step: Step)
    requires Enabled(s, step) && QuietStep(step)
    ensures Apply(s, step).campaigns == s.campaigns
    ensures Apply(s, step).nodes.Keys == s.nodes.Keys
    ensures forall v :: v in s.nodes ==> Apply(s, step).nodes[v].role == s.nodes[v].role
                                         && Apply(s, step).nodes[v].electing == s.nodes[v].electing
  {
    QuietStepNodes(s, step);
    hide Apply, Enabled;
  }

  lemma StepKeepsElection(s: State, step: Step)
    requires ElectionInv(s) && Enabled(s, step)
    ensures ElectionInv(Apply(s, step))
  {
    hide Apply, Enabled;
    if ElectionStep(step) {
      ElectionStepKeeps(s, step);
    } else {
      ReplicationUntouched(s, step);
      ElectionFrame(s, Apply(s, step));
    }
  }

  lemma {:induction false} ElectionAlways(members: set<Addr>, trace: seq<State>, steps: seq<Step>, i: nat)
    requires Run(members, trace, steps) && i < |trace|
    ensures ElectionInv(trace[i])
  {
    hide Apply, Enabled;
    if i == 0 {
      InitElection(members);
    } else {
      ElectionAlways(members, trace, steps, i - 1);
      StepKeepsElection(trace[i - 1], steps[i - 1]);
    }
  }
}
