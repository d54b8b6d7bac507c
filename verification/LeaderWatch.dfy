/** Waiting for the leader to fall silent: a wait that re-arms itself, and what it amounts to. */
module LeaderWatch {
  import opened Basics
  import opened NodeSteps
  import opened Routing
  import opened RaftNode

  datatype Message = Append(append: AppendEntry) | Fetch(fetch: FetchEntry) | VoteCall(vote: RequestVote)

  /** A message from some address arriving at a moment. */
  datatype Contact = Contact(time: int, from: Addr, message: Message)

  ghost predicate Ordered(contacts: seq<Contact>) {
    forall i, j :: 0 <= i < j < |contacts| ==> contacts[i].time <= contacts[j].time
  }

  // ----- the specification: twenty seconds since the last contact

  /** When the leader was last heard of up to moment t, given what had been heard before the contacts. */
  ghost function LastHeard(before: int, contacts: seq<Contact>, leader: Addr, t: int): (last: int)
    decreases |contacts|
  {
    if contacts == [] then before
    else
      var latest := contacts[|contacts| - 1];
      if latest.time <= t && latest.from == leader then latest.time
      else LastHeard(before, contacts[..|contacts| - 1], leader, t)
  }

  ghost predicate Silent(before: int, contacts: seq<Contact>, leader: Addr, t: int) {
    t - LastHeard(before, contacts, leader, t) >= LEADER_TTL
  }

  /** The first moment, from `start` on, at which the leader has been silent for the whole period. */
  ghost predicate FirstSilence(before: int, contacts: seq<Contact>, leader: Addr, start: int, t: int) {
    && start <= t && Silent(before, contacts, leader, t)
    && forall earlier :: start <= earlier < t ==> !Silent(before, contacts, leader, earlier)
  }

  /** There is at most one such moment. */
  lemma FirstSilenceIsUnique(before: int, contacts: seq<Contact>, leader: Addr, start: int, t: int, u: int)
    requires FirstSilence(before, contacts, leader, start, t) && FirstSilence(before, contacts, leader, start, u)
    ensures t == u
  {
    assert t < u ==> !Silent(before, contacts, leader, t);
    assert u < t ==> !Silent(before, contacts, leader, u);
  }

  /** The contacts of one sender. */
  ghost function ContactsFrom(contacts: seq<Contact>, leader: Addr): (r: seq<Contact>) {
    if contacts == [] then []
    else
      var init, latest := ContactsFrom(contacts[..|contacts| - 1], leader), contacts[|contacts| - 1];
      if latest.from == leader then init + [latest] else init
  }

  lemma {:induction false} OnlyLeaderIsHeard(before: int, contacts: seq<Contact>, leader: Addr, t: int)
    ensures LastHeard(before, contacts, leader, t) == LastHeard(before, ContactsFrom(contacts, leader), leader, t)
    decreases |contacts|
  {
    if contacts == [] {
    } else {
      var init := contacts[..|contacts| - 1];
      OnlyLeaderIsHeard(before, init, leader, t);
      var kept := ContactsFrom(init, leader);
      assert (kept + [contacts[|contacts| - 1]])[..|kept|] == kept;
    }
  }

  /** Contacts of other peers neither shorten nor lengthen the wait. */
  lemma OnlyLeaderMatters(before: int, contacts: seq<Contact>, leader: Addr, start: int, t: int, u: int)
    requires FirstSilence(before, contacts, leader, start, t)
    requires FirstSilence(before, ContactsFrom(contacts, leader), leader, start, u)
    ensures t == u
  {
    forall moment
      ensures Silent(before, contacts, leader, moment) <==> Silent(before, ContactsFrom(contacts, leader), leader, moment)
    {
      OnlyLeaderIsHeard(before, contacts, leader, moment);
    }
    hide Silent;
    FirstSilenceIsUnique(before, contacts, leader, start, t, u);
  }

  // ----- a leader that keeps in touch

  /** The moment of the leader's last contact of all. */
  ghost function LastContact(before: int, contacts: seq<Contact>, leader: Addr): (last: int)
    decreases |contacts|
  {
    if contacts == [] then before
    else if contacts[|contacts| - 1].from == leader then contacts[|contacts| - 1].time
    else LastContact(before, contacts[..|contacts| - 1], leader)
  }

  /** Each contact of the leader comes less than the period after the one before. */
  ghost predicate KeepsInTouch(before: int, contacts: seq<Contact>, leader: Addr)
    decreases |contacts|
  {
    contacts == []
    || var init, latest := contacts[..|contacts| - 1], contacts[|contacts| - 1];
       && KeepsInTouch(before, init, leader)
       && (latest.from == leader ==> latest.time < LastContact(before, init, leader) + LEADER_TTL)
  }

  lemma {:induction false} InTouchIsHeard(before: int, contacts: seq<Contact>, leader: Addr, t: int)
    requires KeepsInTouch(before, contacts, leader) && t < LastContact(before, contacts, leader) + LEADER_TTL
    ensures !Silent(before, contacts, leader, t)
    decreases |contacts|
  {
    if contacts == [] {
    } else {
      var init, latest := contacts[..|contacts| - 1], contacts[|contacts| - 1];
      if latest.from != leader || latest.time > t {
        InTouchIsHeard(before, init, leader, t);
      }
    }
  }

  lemma {:induction false} AllHeardInTheEnd(before: int, contacts: seq<Contact>, leader: Addr, t: int)
    requires forall k :: 0 <= k < |contacts| && contacts[k].from == leader ==> contacts[k].time <= t
    ensures LastHeard(before, contacts, leader, t) == LastContact(before, contacts, leader)
    decreases |contacts|
  {
    if contacts == [] {
    } else {
      AllHeardInTheEnd(before, contacts[..|contacts| - 1], leader, t);
    }
  }

  lemma {:induction false} NoneLater(before: int, contacts: seq<Contact>, leader: Addr, k: nat)
    requires Ordered(contacts) && k < |contacts| && contacts[k].from == leader
    ensures contacts[k].time <= LastContact(before, contacts, leader)
    decreases |contacts|
  {
    if k < |contacts| - 1 && contacts[|contacts| - 1].from != leader {
      NoneLater(before, contacts[..|contacts| - 1], leader, k);
    }
  }

  /** The wait outlasts a leader that keeps in touch: it ends a full period after that leader's last contact. */
  lemma InTouchIsAwaited(before: int, contacts: seq<Contact>, leader: Addr, start: int, end: int)
    requires Ordered(contacts) && KeepsInTouch(before, contacts, leader)
    requires FirstSilence(before, contacts, leader, start, end)
    requires start <= LastContact(before, contacts, leader) + LEADER_TTL
    ensures end == LastContact(before, contacts, leader) + LEADER_TTL
  {
    var due := LastContact(before, contacts, leader) + LEADER_TTL;
    forall k | 0 <= k < |contacts| && contacts[k].from == leader
      ensures contacts[k].time <= due
    {
      NoneLater(before, contacts, leader, k);
    }
    AllHeardInTheEnd(before, contacts, leader, due);
    if end < due { InTouchIsHeard(before, contacts, leader, end); }
    assert due < end ==> !Silent(before, contacts, leader, due);
  }

  // ----- facts about the last contact

  /** Contacts after t do not matter at t. */
  lemma {:induction false} LaterContactsIgnored(before: int, contacts: seq<Contact>, i: nat, leader: Addr, t: int)
    requires i <= |contacts| && forall k :: i <= k < |contacts| ==> contacts[k].time > t
    ensures LastHeard(before, contacts, leader, t) == LastHeard(before, contacts[..i], leader, t)
    decreases |contacts|
  {
    if i == |contacts| {
      assert contacts[..i] == contacts;
    } else {
      LaterContactsIgnored(before, contacts[..|contacts| - 1], i, leader, t);
      assert contacts[..|contacts| - 1][..i] == contacts[..i];
    }
  }

  /** Once all of a list has happened, waiting longer does not change who was heard last. */
  lemma {:induction false} SettledContacts(before: int, contacts: seq<Contact>, leader: Addr, t: int, u: int)
    requires forall k :: 0 <= k < |contacts| ==> contacts[k].time <= t && contacts[k].time <= u
    ensures LastHeard(before, contacts, leader, t) == LastHeard(before, contacts, leader, u)
    decreases |contacts|
  {
    if contacts == [] {
    } else {
      SettledContacts(before, contacts[..|contacts| - 1], leader, t, u);
    }
  }

  /** A later moment never sees an earlier last contact. */
  lemma {:induction false} HeardNoEarlier(before: int, contacts: seq<Contact>, leader: Addr, t: int, u: int)
    requires Ordered(contacts) && t <= u && forall k :: 0 <= k < |contacts| ==> before <= contacts[k].time
    ensures before <= LastHeard(before, contacts, leader, t) <= LastHeard(before, contacts, leader, u)
    decreases |contacts|
  {
    if contacts == [] {
    } else {
      var init := contacts[..|contacts| - 1];
      HeardNoEarlier(before, init, leader, t, u);
      HeardAtMostLatest(before, init, leader, t, contacts[|contacts| - 1].time);
    }
  }

  lemma {:induction false} HeardAtMostLatest(before: int, contacts: seq<Contact>, leader: Addr, t: int, bound: int)
    requires before <= bound && forall k :: 0 <= k < |contacts| ==> contacts[k].time <= bound
    ensures LastHeard(before, contacts, leader, t) <= bound
    decreases |contacts|
  {
    if contacts == [] {
    } else {
      HeardAtMostLatest(before, contacts[..|contacts| - 1], leader, t, bound);
    }
  }

  // ----- the code

  /** The table has one marked peer, which is `leader`. */
  ghost predicate SoleLeader(peers: PeerRouting, leader: Addr)
    reads peers, peers.table.Values
  {
    && leader in peers.table && peers.table[leader].role == LEADER
    && forall a :: a in peers.table && a != leader ==> peers.table[a].role != LEADER
  }

  lemma HeardNext(before: int, contacts: seq<Contact>, next: nat, leader: Addr, t: int)
    requires next < |contacts| && contacts[next].time <= t
    ensures LastHeard(before, contacts[..next + 1], leader, t)
            == if contacts[next].from == leader then contacts[next].time else LastHeard(before, contacts[..next], leader, t)
  {
    assert contacts[..next + 1][..next] == contacts[..next];
  }

  /** To a member of this term and length the message changes no leader mark: only a vote request could. */
  predicate LeavesMarks(message: Message, term: int, length: nat) {
    message.VoteCall? ==>
      message.vote.term < term || (message.vote.term == term && message.vote.logIndex <= length)
  }

  ghost predicate AllLeaveMarks(node: RaftNode, contacts: seq<Contact>)
    reads node
  {
    forall k :: 0 <= k < |contacts| ==> LeavesMarks(contacts[k].message, node.term, CountedLength(node.commitLog))
  }

  /** A message reaches its handler; whatever it is, it renews its sender's time to live and nobody else's. */
  method Deliver(node: RaftNode, c: Contact)
    requires node.Valid() && node.role == MEMBER && LeavesMarks(c.message, node.term, CountedLength(node.commitLog))
    modifies node`term, node`role, node`newTermSignals, node`newLeaderSignals, node.peers.own`role, node.peers.table.Values
    ensures node.Valid() && node.role == MEMBER && node.term >= old(node.term)
    ensures forall a :: a in node.peers.table ==>
      node.peers.table[a].ttl == (if a == c.from then c.time + LEADER_TTL else old(node.peers.table[a].ttl))
    ensures forall a :: a in node.peers.table ==>
      (node.peers.table[a].role == LEADER <==> old(node.peers.table[a].role) == LEADER)
  {
    hide CountedLength, OnAppendEntry, OnRequestVote, OnFetch, RaftNode.View;
    ViewFacts(node);
    MemberKeepsMarks(node.peers.Known(), node.View(), c.message);
    ghost var known, before := node.peers.Known(), node.View();
    match c.message {
      case Append(data) => var action, leader := node.HandleAppendEntry(c.from, c.time, data);
      case Fetch(data) => var reply := node.HandleFetch(c.from, c.time, data);
      case VoteCall(data) => var answer := node.HandleRequestVote(c.from, c.time, data);
    }
    ViewFacts(node);
    assert node.peers.Known() == known;
    assert node.View().leaders == before.leaders;
  }

  /** What a member becomes by handling a message that leaves the marks alone. */
  lemma MemberKeepsMarks(known: set<Addr>, n: Node, message: Message)
    requires n.role == MEMBER && LeavesMarks(message, n.term, LogLength(n))
    ensures message.Append? ==>
              var after := OnAppendEntry(known, n, message.append).0;
              after.leaders == n.leaders && after.role == MEMBER && after.term >= n.term
    ensures message.VoteCall? ==> OnRequestVote(known, n, message.vote).0 == n
  {
    hide CountedLength;
  }

  lemma ViewFacts(node: RaftNode)
    requires node.Valid()
    ensures node.View().role == node.role && node.View().term == node.term && node.View().log == node.commitLog
    ensures forall a :: a in node.peers.table ==> (a in node.View().leaders <==> node.peers.table[a].role == LEADER)
  {
  }

  /** The contacts that arrive up to `until`, through the handlers. */
  method Receive(node: RaftNode, ghost leader: Addr, ghost before: int, contacts: seq<Contact>, from: nat, until: int)
    returns (next: nat)
    requires node.Valid() && node.role == MEMBER && AllLeaveMarks(node, contacts)
    requires SoleLeader(node.peers, leader) && Ordered(contacts) && from <= |contacts|
    requires node.peers.table[leader].ttl == LastHeard(before, contacts[..from], leader, until) + LEADER_TTL
    requires forall k :: 0 <= k < from ==> contacts[k].time <= until
    modifies node`term, node`role, node`newTermSignals, node`newLeaderSignals, node.peers.own`role, node.peers.table.Values
    ensures node.Valid() && node.role == MEMBER && AllLeaveMarks(node, contacts) && SoleLeader(node.peers, leader)
    ensures from <= next <= |contacts|
    ensures forall k :: 0 <= k < next ==> contacts[k].time <= until
    ensures forall k :: next <= k < |contacts| ==> contacts[k].time > until
    ensures node.peers.table[leader].ttl == LastHeard(before, contacts[..next], leader, until) + LEADER_TTL
    ensures next == from ==> node.peers.table[leader].ttl == old(node.peers.table[leader].ttl)
  {
    hide LastHeard, CountedLength;
    next := from;
    while next < |contacts| && contacts[next].time <= until
      invariant from <= next <= |contacts|
      invariant node.Valid() && node.role == MEMBER && AllLeaveMarks(node, contacts) && SoleLeader(node.peers, leader)
      invariant forall k :: 0 <= k < next ==> contacts[k].time <= until
      invariant node.peers.table[leader].ttl == LastHeard(before, contacts[..next], leader, until) + LEADER_TTL
      invariant next == from ==> node.peers.table[leader].ttl == old(node.peers.table[leader].ttl)
    {
      HeardNext(before, contacts, next, leader, until);
      Deliver(node, contacts[next]);
      next := next + 1;
    }
  }

  /**
   * Waits out the leader's time to live, looks again, and waits for what remains if the leader was
   * heard meanwhile. Timers are ideal: each fires exactly when it is due, after the contacts due by then.
   * Each further wait is caused by a contact that had not arrived before, so the recursion ends.
   */
  method AwaitLeaderTTL(node: RaftNode, ghost leader: Addr, ghost before: int, ghost start: int,
                        contacts: seq<Contact>, from: nat, now: int, timeout: int)
    returns (end: int)
    requires node.Valid() && node.role == MEMBER && AllLeaveMarks(node, contacts)
    requires SoleLeader(node.peers, leader) && Ordered(contacts) && from <= |contacts|
    requires forall k :: 0 <= k < |contacts| ==> before <= contacts[k].time
    requires forall k :: 0 <= k < from ==> contacts[k].time <= now
    requires start <= now && timeout >= 0
    requires node.peers.table[leader].ttl == now + timeout == LastHeard(before, contacts[..from], leader, now) + LEADER_TTL
    requires forall earlier :: start <= earlier < now ==> !Silent(before, contacts, leader, earlier)
    requires forall k :: from <= k < |contacts| ==> contacts[k].time > now
    modifies node`term, node`role, node`newTermSignals, node`newLeaderSignals, node.peers.own`role, node.peers.table.Values
    ensures node.Valid() && node.role == MEMBER
    ensures FirstSilence(before, contacts, leader, start, end)
    decreases |contacts| - from
  {
    var due := now + timeout;
    ghost var heard := LastHeard(before, contacts[..from], leader, now);
    StillHeardUntilDue(before, contacts, from, leader, now, due);
    SettledContacts(before, contacts[..from], leader, now, due);
    var next := Receive(node, leader, before, contacts, from, due);
    LaterContactsIgnored(before, contacts, next, leader, due);
    var over, remaining, who := node.peers.CheckLeaderTimeout(due);
    assert who == Some(leader);
    if over {
      end := due;
    } else {
      end := AwaitLeaderTTL(node, leader, before, start, contacts, next, due, remaining);
    }
  }

  /** Until the time to live known now runs out, the leader has not been silent for the period. */
  lemma StillHeardUntilDue(before: int, contacts: seq<Contact>, from: nat, leader: Addr, now: int, due: int)
    requires Ordered(contacts) && from <= |contacts|
    requires forall k :: 0 <= k < |contacts| ==> before <= contacts[k].time
    requires forall k :: from <= k < |contacts| ==> contacts[k].time > now
    requires due == LastHeard(before, contacts[..from], leader, now) + LEADER_TTL
    ensures forall moment :: now <= moment < due ==> !Silent(before, contacts, leader, moment)
  {
    LaterContactsIgnored(before, contacts, from, leader, now);
    forall moment | now <= moment < due
      ensures !Silent(before, contacts, leader, moment)
    {
      HeardNoEarlier(before, contacts, leader, now, moment);
    }
  }

  /**
   * Called as a member at moment `now`, the leader last heard of at `before`: with a marked leader it
   * returns at the first moment from now on at which that leader has been silent for twenty seconds;
   * without one it returns at once.
   */
  method WatchLeader(node: RaftNode, ghost leader: Option<Addr>, ghost before: int, contacts: seq<Contact>, now: int)
    returns (end: int)
    requires node.Valid() && node.role == MEMBER && AllLeaveMarks(node, contacts) && Ordered(contacts) && before <= now
    requires forall k :: 0 <= k < |contacts| ==> contacts[k].time > now
    requires match leader
             case None => forall a :: a in node.peers.table ==> node.peers.table[a].role != LEADER
             case Some(l) => SoleLeader(node.peers, l) && node.peers.table[l].ttl == before + LEADER_TTL
    modifies node`term, node`role, node`newTermSignals, node`newLeaderSignals, node.peers.own`role, node.peers.table.Values
    ensures node.Valid() && node.role == MEMBER
    ensures match leader
            case None => end == now
            case Some(l) =>
              && FirstSilence(before, contacts, l, now, end)
              && (KeepsInTouch(before, contacts, l) && now <= LastContact(before, contacts, l) + LEADER_TTL ==>
                    end == LastContact(before, contacts, l) + LEADER_TTL)
  {
    var ttl, who := node.peers.GetLeaderTimeout(now);
    if leader.Some? {
      assert who == leader;
      LaterContactsIgnored(before, contacts, 0, leader.value, now);
      assert contacts[..0] == [];
    }
    match ttl {
      case NoLeader => end := now;
      case Expired => end := now;
      case Remaining(ns) =>
        end := AwaitLeaderTTL(node, leader.value, before, now, contacts, 0, now, ns);
    }
    if leader.Some? && KeepsInTouch(before, contacts, leader.value) && now <= LastContact(before, contacts, leader.value) + LEADER_TTL {
      InTouchIsAwaited(before, contacts, leader.value, now, end);
    }
  }
}
