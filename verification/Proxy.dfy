/** Peer and node selection in the proxy: an in-place shuffle followed by a scan for a usable address. */
module Proxy {
  import opened Basics
  import opened Shuffle

  /** The swap loop; `choices[n]` stands for the random draw made at position n. */
  method ShuffleInPlace(a: array<string>, choices: seq<nat>)
    requires |choices| == a.Length && ChoiceVector(choices)
    modifies a
    ensures a[..] == Shuffled(old(a[..]), choices)
  {
    ghost var start := a[..];
    assert choices[..0] == [];
    for n := 0 to a.Length
      invariant a[..] == Shuffled(start, choices[..n])
    {
      var i := choices[n];
      a[n], a[i] := a[i], a[n];
      assert choices[..n + 1][..n] == choices[..n];
    }
    assert choices[..a.Length] == choices;
  }

  /** The scan that skips padding; "" when there is nothing else. */
  method FindNonEmpty(a: array<string>) returns (pick: string)
    ensures pick == FirstNonEmpty(a[..])
  {
    for n := 0 to a.Length
      invariant FirstNonEmpty(a[..]) == FirstNonEmpty(a[n..])
    {
      if a[n] != "" {
        return a[n];
      }
      assert a[n..][1..] == a[n + 1..];
    }
    pick := "";
  }

  class Proxy {
    var peerNodes: array<string>
    var activeClusterNodes: seq<string>

    /** Keeps every address it is given, blanks and repetitions included. */
    constructor (peers: seq<string>)
      ensures fresh(peerNodes) && peerNodes[..] == peers && activeClusterNodes == []
    {
      var nodes := new string[|peers|](k requires 0 <= k < |peers| => peers[k]);
      peerNodes := nodes;
      activeClusterNodes := [];
      new;
      assert peerNodes[..] == peers;
    }

    method GetRandomPeerAddr(choices: seq<nat>) returns (peer: string)
      requires |choices| == peerNodes.Length && ChoiceVector(choices)
      modifies peerNodes
      ensures peerNodes[..] == Shuffled(old(peerNodes[..]), choices)
      ensures peer == FirstNonEmpty(peerNodes[..])
      ensures multiset(peerNodes[..]) == multiset(old(peerNodes[..]))
      ensures peer != "" <==> exists k :: 0 <= k < peerNodes.Length && old(peerNodes[k]) != ""
      ensures peer != "" ==> peer in old(peerNodes[..])
    {
      ghost var before := peerNodes[..];
      ShuffleInPlace(peerNodes, choices);
      peer := FindNonEmpty(peerNodes);
      ShuffledIsPermutation(before, choices);
      PickSurvivesPermutation(before, peerNodes[..]);
    }

    /**
     * Shuffles a copy of the node list and contacts the first usable node only: whatever that node
     * answers is the result, no other node is tried. `reply` stands for the network.
     */
    method ForwardToCluster(choices: seq<nat>, reply: string -> Option<string>) returns (answer: Option<string>)
      requires |choices| == |activeClusterNodes| && ChoiceVector(choices)
      ensures var node := FirstNonEmpty(Shuffled(activeClusterNodes, choices));
              answer == if node == "" then None else reply(node)
      ensures (forall node :: node in activeClusterNodes && node != "" ==> reply(node).Some?)
              && (exists k :: 0 <= k < |activeClusterNodes| && activeClusterNodes[k] != "")
              ==> answer.Some?
    {
      var nodes := new string[|activeClusterNodes|](k requires 0 <= k < |activeClusterNodes| reads this => activeClusterNodes[k]);
      assert nodes[..] == activeClusterNodes;
      ShuffleInPlace(nodes, choices);
      var node := FindNonEmpty(nodes);
      ShuffledIsPermutation(activeClusterNodes, choices);
      PickSurvivesPermutation(activeClusterNodes, nodes[..]);
      answer := if node == "" then None else reply(node);
    }
  }

  lemma PickSurvivesPermutation(before: seq<string>, after: seq<string>)
    requires multiset(before) == multiset(after)
    ensures FirstNonEmpty(after) != "" <==> exists k :: 0 <= k < |before| && before[k] != ""
    ensures FirstNonEmpty(after) != "" ==> FirstNonEmpty(after) in before
  {
    PickIsUsable(after);
    if k :| 0 <= k < |before| && before[k] != "" {
      assert before[k] in multiset(before);
      assert before[k] in after;
    }
    if k :| 0 <= k < |after| && after[k] != "" {
      assert after[k] in multiset(after);
      assert after[k] in before;
    }
    if FirstNonEmpty(after) != "" {
      assert FirstNonEmpty(after) in multiset(after);
    }
  }

  /** The peer list after a run of selections, each with its own draws. */
  ghost function AfterSelections(peers: seq<string>, draws: seq<seq<nat>>): (r: seq<string>)
    requires forall d :: d in draws ==> |d| == |peers| && ChoiceVector(d)
    ensures |r| == |peers|
    decreases |draws|
  {
    if draws == [] then peers
    else Shuffled(AfterSelections(peers, draws[..|draws| - 1]), draws[|draws| - 1])
  }

  /** However often peers were selected before, none is lost and a usable one is found iff there was one. */
  lemma {:induction false} SelectionsNeverLosePeers(peers: seq<string>, draws: seq<seq<nat>>)
    requires forall d :: d in draws ==> |d| == |peers| && ChoiceVector(d)
    ensures multiset(AfterSelections(peers, draws)) == multiset(peers)
    ensures FirstNonEmpty(AfterSelections(peers, draws)) != "" <==> exists k :: 0 <= k < |peers| && peers[k] != ""
    ensures FirstNonEmpty(AfterSelections(peers, draws)) != "" ==> FirstNonEmpty(AfterSelections(peers, draws)) in peers
    decreases |draws|
  {
    if draws == [] {
    } else {
      var earlier := draws[..|draws| - 1];
      SelectionsNeverLosePeers(peers, earlier);
      ShuffledIsPermutation(AfterSelections(peers, earlier), draws[|draws| - 1]);
    }
    PickSurvivesPermutation(peers, AfterSelections(peers, draws));
  }
}
