/**
 * One node: the handlers and loops that update its term, role, log and routing table, each proved to
 * compute the step function the protocol is made of. Replies and timeouts are parameters.
 */
module RaftNode {
  import opened Basics
  import opened NodeSteps
  import opened Routing
  import Q = Quorum

  // ----- what the loops compute

  /** Whether `quorum` replies come before the first timeout; at least one reply is always needed. */
  ghost predicate VotesHeard(quorum: nat, events: seq<bool>) {
    var needed := if quorum == 0 then 1 else quorum;
    needed <= |events| && forall i :: 0 <= i < needed ==> events[i]
  }

  /** Whether after some reply, and before the first timeout, the replies heard hold a quorum of confirmations. */
  ghost predicate ConfirmsHeard(quorum: nat, replies: seq<Option<bool>>) {
    exists n :: 0 < n <= |replies| && None !in replies[..n] && multiset(replies[..n])[Some(true)] >= quorum
  }

  /**
   * The log after fetching `missing` entries one by one, each answer being for the index after the last
   * entry then held, and whether all of them arrived. A missing answer is a timeout.
   */
  function CaughtUp(log: Log, missing: nat, answers: seq<Option<FetchedEntry>>): (r: (Log, bool))
    ensures log <= r.0
    decreases missing
  {
    if missing == 0 then (log, true)
    else if answers == [] || answers[0] == None || !Accepts(CountedLength(log) + 1, answers[0].value) then (log, false)
    else CaughtUp(log + [answers[0].value.newObject], missing - 1, answers[1..])
  }

  /** How many fetches in a row were answered. */
  function Answered(answers: seq<Option<FetchedEntry>>, missing: nat): (n: nat)
    ensures n <= missing
  {
    if missing == 0 || answers == [] || answers[0] == None then 0 else 1 + Answered(answers[1..], missing - 1)
  }

  /** The answers a leader with log `theirs` gives to a node asking from length `start` on. */
  ghost predicate Honest(answers: seq<Option<FetchedEntry>>, theirs: Log, start: nat) {
    forall n :: 0 <= n < |answers| && answers[n].Some? ==>
      start + n < |theirs| && answers[n].value == FetchedEntry(start + n + 1, theirs[start + n])
  }

  /**
   * From a prefix of the leader's log, catching up leaves exactly one more entry per answered fetch:
   * a prefix always, the leader's first |log| + missing entries when all are answered, and a
   * confirmation only then.
   */
  lemma {:induction false} CatchUpIsCorrect(log: Log, theirs: Log, missing: nat, answers: seq<Option<FetchedEntry>>)
    requires log <= theirs && EMPTY_CMD !in theirs && Honest(answers, theirs, |log|)
    ensures |log| + Answered(answers, missing) <= |theirs|
    ensures CaughtUp(log, missing, answers).0 == theirs[..|log| + Answered(answers, missing)]
    ensures CaughtUp(log, missing, answers).1 <==> Answered(answers, missing) == missing
    decreases missing
  {
    CountedLengthIsLength(log);
    if missing == 0 || answers == [] || answers[0] == None {
    } else {
      var x := answers[0].value.newObject;
      assert x == theirs[|log|] && x in theirs;
      PrefixExtension(log, theirs, x);
      forall n | 0 <= n < |answers[1..]| && answers[1..][n].Some?
        ensures |log| + 1 + n < |theirs| && answers[1..][n].value == FetchedEntry(|log| + 1 + n + 1, theirs[|log| + 1 + n])
      {
        assert answers[1..][n] == answers[n + 1];
      }
      CatchUpIsCorrect(log + [x], theirs, missing - 1, answers[1..]);
    }
  }

  /** Whatever is answered, a completed catch-up has gained what was missing, so a confirmation is true. */
  lemma {:induction false} CatchUpReaches(log: Log, missing: nat, answers: seq<Option<FetchedEntry>>)
    ensures CaughtUp(log, missing, answers).1 ==>
      CountedLength(CaughtUp(log, missing, answers).0) == CountedLength(log) + missing
    decreases missing
  {
    if missing == 0 || answers == [] || answers[0] == None || !Accepts(CountedLength(log) + 1, answers[0].value) {
    } else {
      CountedLengthAppend(log, answers[0].value.newObject);
      CatchUpReaches(log + [answers[0].value.newObject], missing - 1, answers[1..]);
    }
  }

  // ----- the node

  class RaftNode {
    const peers: PeerRouting
    var role: RaftStatus
    var term: int
    var quorum: nat
    var commitLog: Log
    var electing: Option<int>
    var newLeaderSignals: nat
    var newTermSignals: nat
    var toCluster: multiset<KubeCmd>
    var received: multiset<KubeCmd>

    ghost predicate Valid()
      reads this, peers, peers.own, peers.table.Values
    {
      peers.Valid() && peers.own.addr !in peers.table && "" !in peers.table
    }

    /** The node as the protocol sees it. */
    ghost function View(): (n: Node)
      reads this, peers, peers.own, peers.table.Values
    {
      Node(term, role, commitLog, peers.Leaders(), electing, newLeaderSignals, newTermSignals, toCluster, received)
    }

    constructor (ip: Addr)
      ensures Valid() && fresh(peers) && fresh(peers.own) && View() == FRESH_NODE && peers.own.addr == ip
      ensures peers.table == map[] && !peers.active
    {
      var table := new PeerRouting(ip);
      peers := table;
      role, term, quorum, commitLog, electing := MEMBER, 0, 0, [], None;
      newLeaderSignals, newTermSignals, toCluster, received := 0, 0, multiset{}, multiset{};
    }

    // ----- the log

    method GetLengthLog() returns (count: nat)
      ensures count == CountedLength(commitLog)
    {
      count := 0;
      for n := 0 to |commitLog|
        invariant count == CountedLength(commitLog[..n])
      {
        assert commitLog[..n + 1][..n] == commitLog[..n];
        if commitLog[n] != EMPTY_CMD {
          count := count + 1;
        }
      }
      assert commitLog[..|commitLog|] == commitLog;
    }

    method AddCommit(x: KubeCmd)
      modifies this`commitLog, this`toCluster
      ensures View() == NodeSteps.AddCommit(old(View()), x)
    {
      commitLog := if commitLog == [] then [x] else commitLog + [x];
      toCluster := toCluster + multiset{x};
    }

    // ----- elections

    /** From here on the membership is fixed, and with it the quorum. */
    method LockMembership()
      requires Valid()
      modifies this`quorum, peers`active
      ensures Valid() && peers.active && quorum == Q.Quorum(|peers.table|) && View() == old(View())
    {
      hide PeerRouting.Leaders;
      quorum := peers.LockRoutingTableEntries();
    }

    /** The addresses requests go to: the padded list without its blanks. */
    method Targets() returns (targets: seq<Addr>)
      requires Valid()
      ensures multiset(targets) == multiset(peers.table.Keys)
    {
      var members := peers.GetPeersAddress();
      targets := [];
      for n := 0 to |members|
        invariant forall a :: multiset(targets)[a] == if a == "" then 0 else multiset(members[..n])[a]
      {
        assert members[..n + 1] == members[..n] + [members[n]];
        if members[n] != "" {
          targets := targets + [members[n]];
        }
      }
      assert members[..|members|] == members;
      assert |peers.table.Keys| == |peers.table|;
      OneRequestPerPeer(members, peers.table.Keys);
      forall a
        ensures multiset(targets)[a] == multiset(peers.table.Keys)[a]
      {
      }
    }

    /** A new campaign: the next term, and one request with the log's length to every peer. */
    method StartCampaign() returns (requests: seq<(Addr, RequestVote)>)
      requires Valid() && role == CANDIDATE && electing == None
      modifies this`term, this`electing
      ensures View() == BeginCampaign(old(View()))
      ensures forall k :: 0 <= k < |requests| ==>
        requests[k].1 == RequestVote(old(term) + 1, peers.own.addr, CountedLength(old(commitLog)))
      ensures multiset(seq(|requests|, k requires 0 <= k < |requests| => requests[k].0)) == multiset(peers.table.Keys)
    {
      term := term + 1;
      electing := Some(term);
      var targets := Targets();
      var logIndex := GetLengthLog();
      requests := [];
      for n := 0 to |targets|
        invariant |requests| == n
        invariant forall k :: 0 <= k < n ==> requests[k] == (targets[k], RequestVote(term, peers.own.addr, logIndex))
      {
        requests := requests + [(targets[n], RequestVote(term, peers.own.addr, logIndex))];
      }
      assert seq(|requests|, k requires 0 <= k < |requests| => requests[k].0) == targets;
    }

    /** Counts replies until the quorum or a timeout. What a reply says is not looked at. */
    method TallyVotes(events: seq<bool>) returns (won: bool)
      ensures won <==> VotesHeard(quorum, events)
    {
      var numVotes := 0;
      while numVotes < |events|
        invariant numVotes <= |events| && (numVotes > 0 ==> numVotes < quorum)
        invariant forall i :: 0 <= i < numVotes ==> events[i]
      {
        if !events[numVotes] {
          return false;
        }
        numVotes := numVotes + 1;
        if numVotes >= quorum {
          return true;
        }
      }
      return false;
    }

    method TakeElectionResult(won: bool)
      requires electing.Some?
      modifies this`role, this`electing
      ensures View() == ConcludeElection(old(View()), won)
    {
      if won {
        role := LEADER;
      }
      electing := None;
    }

    /** The main loop, waiting for an election result, takes a handler's signal instead. */
    method TakeNewLeader()
      requires electing.Some? && newLeaderSignals > 0
      modifies this`role, this`electing, this`newLeaderSignals
      ensures View() == YieldToCandidate(old(View()))
    {
      newLeaderSignals := newLeaderSignals - 1;
      role := MEMBER;
      electing := None;
    }

    // ----- handlers

    /** Requests from addresses outside the table are dropped; others renew their sender's time to live. */
    method Admit(caller: Addr, now: int) returns (known: bool)
      requires Valid()
      modifies peers.table.Values
      ensures Valid() && View() == old(View())
      ensures known <==> caller in peers.table
      ensures forall a :: a in peers.table ==>
        peers.table[a].ttl == (if a == caller then now + LEADER_TTL else old(peers.table[a].ttl))
        && peers.table[a].active == (a == caller || old(peers.table[a].active))
    {
      known := peers.IsPeer(caller);
      if known {
        var ok := peers.UpdateTTL(caller, now);
        assert peers.Leaders() == old(peers.Leaders());
      }
    }

    method HandleRequestVote(caller: Addr, now: int, data: RequestVote) returns (answer: VoteAnswer)
      requires Valid()
      modifies this`term, this`role, this`newTermSignals, this`newLeaderSignals, peers.own`role, peers.table.Values
      ensures Valid()
      ensures caller !in peers.table ==> answer == NoVote && View() == old(View())
      ensures caller in peers.table ==> (View(), answer) == OnRequestVote(peers.Known(), old(View()), data)
      ensures forall a :: a in peers.table ==>
        peers.table[a].ttl == (if a == caller then now + LEADER_TTL else old(peers.table[a].ttl))
        && peers.table[a].active == (a == caller || old(peers.table[a].active))
    {
      answer := NoVote;
      var known := Admit(caller, now);
      if known {
        answer := DecideVote(data);
      }
    }

    method MarkAsLeader(addr: Addr)
      requires Valid()
      modifies peers.own`role, peers.table.Values`role
      ensures Valid() && View() == MarkLeader(peers.Known(), old(View()), addr)
    {
      var ok := peers.MakeLeader(addr);
    }

    method DecideVote(data: RequestVote) returns (answer: VoteAnswer)
      requires Valid()
      modifies this`term, this`role, this`newTermSignals, this`newLeaderSignals, peers.own`role, peers.table.Values`role
      ensures Valid()
      ensures (View(), answer) == OnRequestVote(peers.Known(), old(View()), data)
    {
      hide CountedLength;
      answer := NoVote;
      var length := GetLengthLog();
      if data.term > term {
        answer := VoteInNewTerm(data, length);
      } else if data.term == term && data.logIndex > length {
        MarkAsLeader(data.candidateAddr);
        if role == CANDIDATE {
          newLeaderSignals := newLeaderSignals + 1;
        }
        answer := Vote(false);
      }
    }

    method VoteInNewTerm(data: RequestVote, length: nat) returns (answer: VoteAnswer)
      requires Valid() && data.term > term && length == CountedLength(commitLog)
      modifies this`term, this`role, this`newTermSignals, peers.own`role, peers.table.Values`role
      ensures Valid()
      ensures (View(), answer) == OnRequestVote(peers.Known(), old(View()), data)
    {
      hide CountedLength;
      term := data.term;
      role := MEMBER;
      newTermSignals := newTermSignals + 1;
      if data.logIndex < length {
        peers.WipeLeader();
        answer := NoVote;
      } else {
        MarkAsLeader(data.candidateAddr);
        answer := Vote(true);
      }
    }

    /** The synchronous part of an append: what to do, and for a catch-up the leader to fetch from. */
    method HandleAppendEntry(caller: Addr, now: int, data: AppendEntry)
      returns (action: AppendAction, leader: Option<Addr>)
      requires Valid()
      modifies this`term, this`newTermSignals, this`newLeaderSignals, peers.own`role, peers.table.Values
      ensures Valid()
      ensures caller !in peers.table ==> action == Silent && View() == old(View())
      ensures caller in peers.table ==> (View(), action) == OnAppendEntry(peers.Known(), old(View()), data)
      ensures action.CatchUp? ==> LeaderLookup(View(), peers.own.addr, leader)
      ensures forall a :: a in peers.table ==>
        peers.table[a].ttl == (if a == caller then now + LEADER_TTL else old(peers.table[a].ttl))
        && peers.table[a].active == (a == caller || old(peers.table[a].active))
    {
      action, leader := Silent, None;
      var known := Admit(caller, now);
      if known {
        action := DecideAppend(data);
        if action.CatchUp? {
          leader := peers.GetLeaderAddr();
        }
      }
    }

    method DecideAppend(data: AppendEntry) returns (action: AppendAction)
      requires Valid()
      modifies this`term, this`newTermSignals, this`newLeaderSignals, peers.own`role, peers.table.Values`role
      ensures Valid()
      ensures (View(), action) == OnAppendEntry(peers.Known(), old(View()), data)
    {
      hide CountedLength;
      action := Silent;
      var length := GetLengthLog();
      if data.term >= term && data.logIndex > length && role == CANDIDATE {
        term := data.term;
        newLeaderSignals := newLeaderSignals + 1;
        MarkAsLeader(data.leaderAddr);
      } else if data.term > term {
        term := data.term;
        newTermSignals := newTermSignals + 1;
      } else if role == LEADER && data.newObject != EMPTY_CMD {
        action := if data.logIndex == length then AskQuorum else Answer(false);
      } else if length == data.logIndex {
        action := if data.newObject == EMPTY_CMD then Silent else Answer(true);
      } else {
        action := CatchUp(if data.logIndex > length then data.logIndex - length else 0);
      }
    }

    /**
     * Asks the leader looked up before for entry after entry, always in the term of the start; the first
     * timeout or wrong answer ends it without a confirmation. A request that cannot be sent is one that is
     * not answered. Nothing else is taken to store entries on this node meanwhile.
     */
    method FetchMissing(missing: nat, leader: Option<Addr>, answers: seq<Option<FetchedEntry>>)
      returns (confirmed: bool, requests: seq<(Option<Addr>, FetchEntry)>)
      requires Valid()
      modifies this`commitLog, this`toCluster
      ensures (commitLog, confirmed) == CaughtUp(old(commitLog), missing, answers)
      ensures View() == old(View()).(log := commitLog, toCluster := toCluster)
      ensures old(Conserved(View())) ==> Conserved(View())
      ensures |requests| == |commitLog| - |old(commitLog)| + (if confirmed then 0 else 1)
      ensures forall k :: 0 <= k < |requests| ==>
        requests[k] == (leader, FetchEntry(term, CountedLength(old(commitLog)) + k + 1))
    {
      hide CountedLength;
      requests := [];
      for n := 0 to missing
        invariant n <= |answers|
        invariant CaughtUp(old(commitLog), missing, answers) == CaughtUp(commitLog, missing - n, answers[n..])
        invariant View() == old(View()).(log := commitLog, toCluster := toCluster)
        invariant old(Conserved(View())) ==> Conserved(View())
        invariant |requests| == n && |commitLog| == |old(commitLog)| + n
        invariant CountedLength(commitLog) == CountedLength(old(commitLog)) + n
        invariant forall k :: 0 <= k < n ==> requests[k] == (leader, FetchEntry(term, CountedLength(old(commitLog)) + k + 1))
      {
        var length := GetLengthLog();
        var fetchIndex := length + 1;
        requests := requests + [(leader, FetchEntry(term, fetchIndex))];
        if n >= |answers| || answers[n] == None {
          return false, requests;
        }
        var entry := answers[n].value;
        if entry.newObject == EMPTY_CMD || entry.logIndex != fetchIndex {
          return false, requests;
        }
        assert answers[n..][1..] == answers[n + 1..];
        if old(Conserved(View())) { AddCommitConserves(View(), entry.newObject); }
        CountedLengthAppend(commitLog, entry.newObject);
        AddCommit(entry.newObject);
      }
      return true, requests;
    }

    method HandleFetch(caller: Addr, now: int, data: FetchEntry) returns (reply: Option<FetchedEntry>)
      requires Valid()
      modifies peers.table.Values
      ensures Valid() && View() == old(View())
      ensures reply == if caller in peers.table then OnFetch(View(), data) else None
      ensures forall a :: a in peers.table ==>
        peers.table[a].ttl == (if a == caller then now + LEADER_TTL else old(peers.table[a].ttl))
        && peers.table[a].active == (a == caller || old(peers.table[a].active))
    {
      reply := None;
      var known := Admit(caller, now);
      if !known || data.term > term {
        return;
      }
      var length := GetLengthLog();
      if role == LEADER && data.logIndex <= length {
        var item := if data.logIndex == 0 then EMPTY_CMD else commitLog[data.logIndex - 1];
        reply := Some(FetchedEntry(data.logIndex, item));
      }
    }

    // ----- commits

    /**
     * One request per peer asking it to confirm that its log reaches this node's length. A heartbeat is
     * the same message with the empty command, sent without waiting for replies.
     */
    method RequestAddObject(x: KubeCmd) returns (requests: seq<(Addr, AppendEntry)>)
      requires Valid()
      ensures forall k :: 0 <= k < |requests| ==>
        requests[k].1 == AppendEntry(term, peers.own.addr, CountedLength(commitLog), x)
      ensures multiset(seq(|requests|, k requires 0 <= k < |requests| => requests[k].0)) == multiset(peers.table.Keys)
    {
      var targets := Targets();
      var logIndex := GetLengthLog();
      requests := [];
      for n := 0 to |targets|
        invariant |requests| == n
        invariant forall k :: 0 <= k < n ==> requests[k] == (targets[k], AppendEntry(term, peers.own.addr, logIndex, x))
      {
        requests := requests + [(targets[n], AppendEntry(term, peers.own.addr, logIndex, x))];
      }
      assert seq(|requests|, k requires 0 <= k < |requests| => requests[k].0) == targets;
    }

    /** Counts confirmations; unlike votes, a reply that denies is not counted. */
    method TallyConfirms(replies: seq<Option<bool>>) returns (accepted: bool)
      ensures accepted <==> ConfirmsHeard(quorum, replies)
    {
      var numVotes := 0;
      for n := 0 to |replies|
        invariant numVotes == multiset(replies[..n])[Some(true)]
        invariant None !in replies[..n]
        invariant n > 0 ==> numVotes < quorum
      {
        assert replies[..n + 1] == replies[..n] + [replies[n]];
        if replies[n] == None {
          NoMoreConfirms(quorum, replies, n);
          return false;
        }
        if replies[n] == Some(true) {
          numVotes := numVotes + 1;
        }
        if numVotes >= quorum {
          assert None !in replies[..n + 1];
          return true;
        }
      }
      if |replies| > 0 { NoMoreConfirms(quorum, replies, |replies|); }
      return false;
    }

    /**
     * An object handed to this node. A leader stores it on a quorum of confirmations. A member whose
     * marked leader still has time asks the address it looks up, with its own term and length, and stores
     * the object when that request is confirmed. A candidate refuses.
     */
    method CommitObject(x: KubeCmd, now: int, replies: seq<Option<bool>>, leaderReply: Option<bool>)
      returns (stored: bool, request: Option<(Addr, AppendEntry)>)
      requires Valid()
      modifies this`commitLog, this`toCluster, peers.table.Values
      ensures Valid()
      ensures commitLog == if stored then old(commitLog) + [x] else old(commitLog)
      ensures toCluster == if stored then old(toCluster) + multiset{x} else old(toCluster)
      ensures role == LEADER ==>
        (stored <==> ConfirmsHeard(quorum, replies))
        && View() == if stored then NodeSteps.AddCommit(old(View()), x) else old(View())
      ensures role == CANDIDATE ==> !stored && View() == old(View())
      ensures role == MEMBER ==> (stored <==> request.Some? && leaderReply == Some(true))
      ensures request.Some? ==>
        && role == MEMBER
        && request.value.1 == AppendEntry(term, request.value.0, CountedLength(old(commitLog)), x)
        && LeaderLookup(View(), peers.own.addr, Some(request.value.0))
        && exists a :: a in peers.table && old(peers.table[a].role) == LEADER && peers.table[a].ttl >= now
      ensures role == MEMBER
              && (exists a :: a in peers.table && old(peers.table[a].role) == LEADER)
              && (forall a :: a in peers.table && old(peers.table[a].role) == LEADER ==> old(peers.table[a].ttl) >= now)
              ==> request.Some?
    {
      stored, request := false, None;
      if role == LEADER {
        stored := TallyConfirms(replies);
        if stored {
          AddCommit(x);
        }
      } else if role == MEMBER {
        request := AskLeader(x, now);
        if request.Some? && leaderReply == Some(true) {
          AddCommit(x);
          stored := true;
        }
      }
    }

    /** The member's request to its leader, if some marked peer is found to have time left. */
    method AskLeader(x: KubeCmd, now: int) returns (request: Option<(Addr, AppendEntry)>)
      requires Valid()
      modifies peers.table.Values
      ensures Valid() && forall a :: a in peers.table ==> peers.table[a].ttl == old(peers.table[a].ttl)
      ensures request.Some? ==>
        && request.value.1 == AppendEntry(term, request.value.0, CountedLength(commitLog), x)
        && LeaderLookup(View(), peers.own.addr, Some(request.value.0))
        && exists a :: a in peers.table && old(peers.table[a].role) == LEADER && peers.table[a].ttl >= now
      ensures (exists a :: a in peers.table && old(peers.table[a].role) == LEADER)
              && (forall a :: a in peers.table && old(peers.table[a].role) == LEADER ==> old(peers.table[a].ttl) >= now)
              ==> request.Some?
    {
      request := None;
      var ttl, who := peers.GetLeaderTimeout(now);
      if ttl.Remaining? {
        var found := peers.GetLeaderAddr();
        assert who.value in peers.Leaders();
        var length := GetLengthLog();
        request := Some((found.value, AppendEntry(term, found.value, length, x)));
      }
    }

    /** The cluster client takes one pending command. */
    method ClusterReceives(x: KubeCmd)
      requires x in toCluster
      modifies this`toCluster, this`received
      ensures View() == HandedToCluster(old(View()), x)
      ensures old(Conserved(View())) ==> Conserved(View())
    {
      toCluster, received := toCluster - multiset{x}, received + multiset{x};
      assert old(toCluster) == toCluster + multiset{x};
    }
  }

  /** If the count stayed below the quorum up to a timeout or the end, it was never reached. */
  lemma NoMoreConfirms(quorum: nat, replies: seq<Option<bool>>, n: nat)
    requires n <= |replies| && (n == |replies| || replies[n] == None)
    requires n > 0 ==> multiset(replies[..n])[Some(true)] < quorum
    ensures !ConfirmsHeard(quorum, replies)
  {
    forall m | 0 < m <= |replies|
      ensures None in replies[..m] || multiset(replies[..m])[Some(true)] < quorum
    {
      if m <= n {
        assert replies[..n] == replies[..m] + replies[m..n];
      } else {
        assert replies[..m][n] == None;
      }
    }
  }
}
