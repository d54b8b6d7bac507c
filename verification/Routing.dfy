/** The routing table: peers, the leader marks on them, and their time to live. Times are in nanoseconds. */
module Routing {
  import opened Basics
  import Q = Quorum

  const SECOND := 1_000_000_000
  const LEADER_TTL := 20 * SECOND
  /** A remaining time below this counts as a timeout. */
  const TIME_RANGE_HEARTBEAT := 1

  class Peer {
    const addr: Addr
    const host: string
    var ttl: int
    var active: bool
    var role: RaftStatus
    var term: int

    /** A peer never heard of has the zero time as its ttl, long before any present moment. */
    constructor (addr: Addr, host: string)
      ensures this.addr == addr && role == MEMBER && !active && term == 0 && ttl == 0
    {
      this.addr := addr;
      this.host := host;
      ttl, active, role, term := 0, false, MEMBER, 0;
    }

    predicate IsLeader()
      reads this
    {
      role == LEADER
    }

    method DeactivatePeer()
      modifies this`active, this`role
      ensures !active && role == MEMBER
    {
      active := false;
      role := MEMBER;
    }

    /** Reading the remaining time demotes a peer whose time has run out. */
    method GetTimeRemaining(now: int) returns (remaining: int)
      modifies this`active, this`role
      ensures remaining == ttl - now
      ensures if remaining < 0 then !active && role == MEMBER else active == old(active) && role == old(role)
    {
      remaining := ttl - now;
      if remaining < 0 {
        DeactivatePeer();
      }
    }
  }

  datatype LeaderTimeout = NoLeader | Expired | Remaining(ns: int)

  class PeerRouting {
    const own: Peer
    var table: map<Addr, Peer>
    var active: bool

    ghost predicate Valid()
      reads this, own, table.Values
    {
      && (forall a :: a in table ==> table[a].addr == a && table[a] != own)
      && (forall a, b :: a in table && b in table && a != b ==> table[a] != table[b])
    }

    /** Everything a caller can learn from the table. */
    ghost function Leaders(): (r: set<Addr>)
      reads this, own, table.Values
    {
      (set a | a in table && table[a].role == LEADER) + (if own.role == LEADER then {own.addr} else {})
    }

    ghost function Known(): (r: set<Addr>)
      reads this, own
    {
      table.Keys + {own.addr}
    }

    constructor (hostAddress: Addr)
      ensures Valid() && fresh(own) && own.addr == hostAddress
      ensures table == map[] && !active && Leaders() == {}
    {
      var me := new Peer(hostAddress, "SELF");
      own := me;
      table := map[];
      active := false;
    }

    /** Adds a peer once, and only before the table is locked. */
    method AddPeer(addr: Addr, contact: string) returns (ok: bool)
      requires Valid()
      modifies this`table
      ensures Valid()
      ensures ok <==> !active && addr !in old(table)
      ensures !ok ==> table == old(table)
      ensures ok ==> table.Keys == old(table).Keys + {addr} && fresh(table[addr]) && table[addr].role == MEMBER
                     && forall a :: a in old(table) ==> table[a] == old(table)[a]
    {
      if active || addr in table {
        return false;
      }
      var peer := new Peer(addr, contact);
      table := table[addr := peer];
      return true;
    }

    method LockRoutingTableEntries() returns (quorum: nat)
      modifies this`active
      ensures active && quorum == Q.Quorum(|table|)
      ensures table == old(table) && Leaders() == old(Leaders())
    {
      active := true;
      quorum := (|table| + 1) / 2;
    }

    predicate IsPeer(addr: Addr)
      reads this
    {
      addr in table
    }

    /** As many blanks as there are peers, followed by every peer exactly once, in no particular order. */
    method GetPeersAddress() returns (addresses: seq<Addr>)
      ensures |addresses| == 2 * |table|
      ensures forall k :: 0 <= k < |table| ==> addresses[k] == ""
      ensures multiset(addresses[|table|..]) == multiset(table.Keys)
    {
      addresses := seq(|table|, _ => "");
      var rest := table.Keys;
      ghost var n := |table|;
      while rest != {}
        invariant rest <= table.Keys && n == |table| <= |addresses|
        invariant |addresses| + |rest| == 2 * n
        invariant forall k :: 0 <= k < n ==> addresses[k] == ""
        invariant multiset(addresses[n..]) + multiset(rest) == multiset(table.Keys)
        decreases rest
      {
        var a :| a in rest;
        assert (addresses + [a])[n..] == addresses[n..] + [a];
        assert multiset(rest) == multiset(rest - {a}) + multiset{a};
        addresses, rest := addresses + [a], rest - {a};
      }
    }

    method GetLeaderAddr() returns (found: Option<Addr>)
      requires Valid()
      ensures match found
              case None => Leaders() == {}
              case Some(a) => a in Leaders() && (own.role == LEADER ==> a == own.addr)
    {
      if own.IsLeader() {
        return Some(own.addr);
      }
      var rest := table.Keys;
      while rest != {}
        invariant rest <= table.Keys
        invariant forall a :: a in table && a !in rest ==> table[a].role != LEADER
        decreases rest
      {
        var a :| a in rest;
        if table[a].IsLeader() {
          return Some(a);
        }
        rest := rest - {a};
      }
      return None;
    }

    /** Some marked peer's remaining time; a marked peer found out of time is demoted. */
    method GetLeaderTimeout(now: int) returns (result: LeaderTimeout, ghost who: Option<Addr>)
      requires Valid()
      modifies table.Values
      ensures Valid() && table == old(table)
      ensures forall a :: a in table ==> table[a].ttl == old(table[a].ttl) && table[a].term == old(table[a].term)
      ensures forall a :: a in table && who != Some(a) ==> table[a].role == old(table[a].role) && table[a].active == old(table[a].active)
      ensures match who
              case None => result == NoLeader && (forall a :: a in table ==> old(table[a].role) != LEADER)
              case Some(a) =>
                && a in table && old(table[a].role) == LEADER
                && (if table[a].ttl < now then result == Expired && table[a].role == MEMBER
                    else result == Remaining(table[a].ttl - now) && table[a].role == LEADER)
    {
      var rest := table.Keys;
      while rest != {}
        invariant rest <= table.Keys && table == old(table)
        invariant forall a :: a in table && a !in rest ==> old(table[a].role) != LEADER
        invariant forall a :: a in table ==> unchanged(table[a])
        decreases rest
      {
        var a :| a in rest;
        if table[a].IsLeader() {
          var remaining := table[a].GetTimeRemaining(now);
          return if remaining < 0 then Expired else Remaining(remaining), Some(a);
        }
        rest := rest - {a};
      }
      return NoLeader, None;
    }

    /** Whether the wait is over, and otherwise for how much longer to wait. */
    method CheckLeaderTimeout(now: int) returns (timeout: bool, next: int, ghost who: Option<Addr>)
      requires Valid()
      modifies table.Values
      ensures Valid() && table == old(table)
      ensures forall a :: a in table ==> table[a].ttl == old(table[a].ttl)
      ensures forall a :: a in table && who != Some(a) ==> table[a].role == old(table[a].role)
      ensures match who
              case None => timeout && (forall a :: a in table ==> old(table[a].role) != LEADER)
              case Some(a) =>
                && a in table && old(table[a].role) == LEADER
                && (timeout <==> table[a].ttl < now + TIME_RANGE_HEARTBEAT)
                && (!timeout ==> next == table[a].ttl - now && table[a].role == LEADER)
    {
      var result;
      result, who := GetLeaderTimeout(now);
      match result
      case NoLeader => timeout, next := true, 0;
      case Expired => timeout, next := true, 0;
      case Remaining(ns) =>
        if ns < TIME_RANGE_HEARTBEAT {
          timeout, next := true, 0;
        } else {
          timeout, next := false, ns;
        }
    }

    /** Any message from a known peer gives it a full period again. */
    method UpdateTTL(addr: Addr, now: int) returns (ok: bool)
      requires Valid()
      modifies if addr in table then {table[addr]} else {}
      ensures Valid()
      ensures ok <==> addr in table
      ensures ok ==> table[addr].ttl == now + LEADER_TTL && table[addr].active && table[addr].role == old(table[addr].role)
    {
      if addr in table {
        table[addr].ttl := now + LEADER_TTL;
        table[addr].active := true;
        return true;
      }
      return false;
    }

    /** Marks one known address; marks on others stay. */
    method MakeLeader(addr: Addr) returns (ok: bool)
      requires Valid() && own.addr !in table
      modifies own`role, table.Values`role
      ensures Valid()
      ensures ok <==> addr in Known()
      ensures Leaders() == if addr in Known() then old(Leaders()) + {addr} else old(Leaders())
    {
      if addr in table {
        table[addr].role := LEADER;
        return true;
      }
      if own.addr == addr {
        own.role := LEADER;
        return true;
      }
      return false;
    }

    /** Removes every leader mark. */
    method WipeLeader()
      requires Valid()
      modifies own`role, table.Values`role
      ensures Valid() && Leaders() == {}
    {
      own.role := MEMBER;
      var rest := table.Keys;
      while rest != {}
        invariant rest <= table.Keys && Valid() && own.role == MEMBER
        invariant forall a :: a in table && a !in rest ==> table[a].role == MEMBER
        decreases rest
      {
        var a :| a in rest;
        table[a].role := MEMBER;
        rest := rest - {a};
      }
    }
  }

  /**
   * Senders skip blanks, so although the list is padded every peer is sent exactly one request and
   * nobody else any: an address occurs among the non-blank entries once if it is a peer, else never.
   */
  lemma OneRequestPerPeer(addresses: seq<Addr>, peers: set<Addr>)
    requires |peers| <= |addresses| && (forall k :: 0 <= k < |peers| ==> addresses[k] == "")
    requires multiset(addresses[|peers|..]) == multiset(peers) && "" !in peers
    ensures forall a :: a != "" ==> multiset(addresses)[a] == if a in peers then 1 else 0
  {
    assert addresses == addresses[..|peers|] + addresses[|peers|..];
    forall a | a != ""
      ensures multiset(addresses[..|peers|])[a] == 0
    {
      assert a !in addresses[..|peers|];
    }
  }
}
