/** The swap loop shared by peer and node selection, as a function of the random choices it draws. */
module Shuffle {

  /** One draw per position: the n-th draw is any index up to n. */
  ghost predicate ChoiceVector(choices: seq<nat>) {
    forall n :: 0 <= n < |choices| ==> choices[n] <= n
  }

  function Swap<T>(s: seq<T>, i: nat, j: nat): (r: seq<T>)
    requires i < |s| && j < |s|
    ensures |r| == |s|
  {
    s[i := s[j]][j := s[i]]
  }

  /** The list after the first |choices| rounds of the loop. */
  ghost function Shuffled<T>(s: seq<T>, choices: seq<nat>): (r: seq<T>)
    requires |choices| <= |s| && ChoiceVector(choices)
    ensures |r| == |s|
    decreases |choices|
  {
    if choices == [] then s
    else
      var n := |choices| - 1;
      Swap(Shuffled(s, choices[..n]), n, choices[n])
  }

  ghost predicate Distinct<T>(s: seq<T>) {
    forall i, j :: 0 <= i < j < |s| ==> s[i] != s[j]
  }

  lemma SwapIsPermutation<T>(s: seq<T>, i: nat, j: nat)
    requires i < |s| && j < |s|
    ensures multiset(Swap(s, i, j)) == multiset(s)
    ensures Swap(Swap(s, i, j), i, j) == s
  {
  }

  lemma {:induction false} ShuffledIsPermutation<T>(s: seq<T>, choices: seq<nat>)
    requires |choices| <= |s| && ChoiceVector(choices)
    ensures multiset(Shuffled(s, choices)) == multiset(s)
    decreases |choices|
  {
    if choices == [] {
    } else {
      var n := |choices| - 1;
      ShuffledIsPermutation(s, choices[..n]);
      SwapIsPermutation(Shuffled(s, choices[..n]), n, choices[n]);
    }
  }

  /** Positions the loop has not reached yet hold what they held at the start. */
  lemma {:induction false} UnreachedUnchanged<T>(s: seq<T>, choices: seq<nat>, k: nat)
    requires |choices| <= k < |s| && ChoiceVector(choices)
    ensures Shuffled(s, choices)[k] == s[k]
    decreases |choices|
  {
    if choices == [] {
    } else {
      UnreachedUnchanged(s, choices[..|choices| - 1], k);
    }
  }

  /** A round puts the next entry where the draw says, and what was there in the entry's own place. */
  lemma LastRound<T>(s: seq<T>, choices: seq<nat>, k: nat)
    requires 0 < |choices| <= |s| && ChoiceVector(choices) && k < |s|
    ensures var n := |choices| - 1; var i, before := choices[n], Shuffled(s, choices[..n]);
            Shuffled(s, choices)[k] == if k == i then s[n] else if k == n then before[i] else before[k]
  {
    UnreachedUnchanged(s, choices[..|choices| - 1], |choices| - 1);
  }

  lemma ShuffledTail<T>(s: seq<T>, choices: seq<nat>)
    requires |choices| <= |s| && ChoiceVector(choices)
    ensures Shuffled(s, choices)[|choices|..] == s[|choices|..]
  {
    forall k | |choices| <= k < |s|
      ensures Shuffled(s, choices)[k] == s[k]
    {
      UnreachedUnchanged(s, choices, k);
    }
  }

  /** Reads the draws back from a final arrangement: the last entry still in play tells where it went. */
  ghost function Recovered<T>(s: seq<T>, final: seq<T>, rounds: nat): (choices: seq<nat>)
    requires |final| == |s| && rounds <= |s|
    requires multiset(final) == multiset(s) && final[rounds..] == s[rounds..]
    ensures |choices| == rounds && ChoiceVector(choices)
    decreases rounds
  {
    if rounds == 0 then []
    else
      var n := rounds - 1;
      EntryStillInPlay(s, final, rounds);
      var i: nat :| i < rounds && final[i] == s[n];
      var before := Swap(final, n, i);
      SwapIsPermutation(final, n, i);
      SwapFixesEntry(s, final, n, i);
      Recovered(s, before, n) + [i]
  }

  lemma EntryStillInPlay<T>(s: seq<T>, final: seq<T>, rounds: nat)
    requires |final| == |s| && 0 < rounds <= |s|
    requires multiset(final) == multiset(s) && final[rounds..] == s[rounds..]
    ensures exists i: nat :: i < rounds && final[i] == s[rounds - 1]
  {
    assert s == s[..rounds] + s[rounds..] && final == final[..rounds] + final[rounds..];
    assert multiset(s[..rounds]) == multiset(s) - multiset(s[rounds..]);
    assert multiset(final[..rounds]) == multiset(final) - multiset(final[rounds..]);
    assert s[..rounds][rounds - 1] in multiset(s[..rounds]);
    assert s[rounds - 1] in final[..rounds];
  }

  lemma SwapFixesEntry<T>(s: seq<T>, final: seq<T>, n: nat, i: nat)
    requires |final| == |s| && i <= n < |s|
    requires final[n + 1..] == s[n + 1..] && final[i] == s[n]
    ensures Swap(final, n, i)[n..] == s[n..]
  {
    forall k | n <= k < |s|
      ensures Swap(final, n, i)[k] == s[k]
    {
      if k > n { assert final[n + 1..][k - n - 1] == s[n + 1..][k - n - 1]; }
    }
  }

  /** Every arrangement is produced by some draws, repeated entries included. */
  lemma {:induction false} EveryArrangementArises<T>(s: seq<T>, final: seq<T>, rounds: nat)
    requires |final| == |s| && rounds <= |s|
    requires multiset(final) == multiset(s) && final[rounds..] == s[rounds..]
    ensures Shuffled(s, Recovered(s, final, rounds)) == final
    decreases rounds
  {
    if rounds == 0 {
      assert final[0..] == final && s[0..] == s;
    } else {
      var choices := Recovered(s, final, rounds);
      var n := rounds - 1;
      var i := choices[n];
      assert final[i] == s[n] && choices[..n] == Recovered(s, Swap(final, n, i), n) by {
        LastRecovered(s, final, rounds);
      }
      SwapIsPermutation(final, n, i);
      SwapFixesEntry(s, final, n, i);
      EveryArrangementArises(s, Swap(final, n, i), n);
    }
  }

  lemma LastRecovered<T>(s: seq<T>, final: seq<T>, rounds: nat)
    requires |final| == |s| && 0 < rounds <= |s|
    requires multiset(final) == multiset(s) && final[rounds..] == s[rounds..]
    ensures var choices := Recovered(s, final, rounds); var n := rounds - 1; var i := choices[n];
            && final[i] == s[n]
            && multiset(Swap(final, n, i)) == multiset(s) && Swap(final, n, i)[n..] == s[n..]
            && choices[..n] == Recovered(s, Swap(final, n, i), n)
  {
    EntryStillInPlay(s, final, rounds);
    var n := rounds - 1;
    var i: nat :| i < rounds && final[i] == s[n] && Recovered(s, final, rounds)[n] == i;
    SwapIsPermutation(final, n, i);
    SwapFixesEntry(s, final, n, i);
  }

  /** For distinct entries the draws can be read back, so different draws give different lists. */
  lemma {:induction false} DrawsAreRecovered<T>(s: seq<T>, choices: seq<nat>)
    requires |choices| <= |s| && ChoiceVector(choices) && Distinct(s)
    ensures multiset(Shuffled(s, choices)) == multiset(s)
    ensures Shuffled(s, choices)[|choices|..] == s[|choices|..]
    ensures Recovered(s, Shuffled(s, choices), |choices|) == choices
    decreases |choices|
  {
    ShuffledIsPermutation(s, choices);
    ShuffledTail(s, choices);
    if choices == [] {
    } else {
      var n := |choices| - 1;
      var final := Shuffled(s, choices);
      var before := Shuffled(s, choices[..n]);
      DrawsAreRecovered(s, choices[..n]);
      UnreachedUnchanged(s, choices[..n], n);
      assert final[choices[n]] == s[n];
      LastRecovered(s, final, n + 1);
      var i := Recovered(s, final, n + 1)[n];
      DistinctIsPermutationInvariant(s, final);
      assert i == choices[n];
      SwapIsPermutation(before, n, i);
      assert Swap(final, n, i) == before;
      var r := Recovered(s, final, n + 1);
      assert r == r[..n] + [r[n]] && choices == choices[..n] + [choices[n]];
    }
  }

  lemma {:induction false} DistinctIsPermutationInvariant<T>(s: seq<T>, t: seq<T>)
    requires multiset(s) == multiset(t) && Distinct(s)
    ensures Distinct(t)
  {
    forall i, j | 0 <= i < j < |t|
      ensures t[i] != t[j]
    {
      if t[i] == t[j] {
        assert t == t[..i] + [t[i]] + t[i + 1..j] + [t[j]] + t[j + 1..];
        assert multiset(t)[t[i]] >= 2;
        DistinctCount(s, t[i]);
        assert false;
      }
    }
  }

  lemma {:induction false} DistinctCount<T>(s: seq<T>, x: T)
    requires Distinct(s)
    ensures multiset(s)[x] <= 1
  {
    if s == [] {
    } else {
      assert s == [s[0]] + s[1..];
      DistinctCount(s[1..], x);
      if x == s[0] { assert x !in s[1..]; }
    }
  }

  /** The loop is an unbiased shuffle: over distinct entries, draws and arrangements correspond one to one. */
  lemma ShuffleIsBijection<T>(s: seq<T>, choices: seq<nat>, others: seq<nat>, final: seq<T>)
    requires Distinct(s)
    requires |choices| == |s| && ChoiceVector(choices)
    requires |others| == |s| && ChoiceVector(others)
    requires multiset(final) == multiset(s)
    ensures Shuffled(s, choices) == Shuffled(s, others) ==> choices == others
    ensures exists draws: seq<nat> :: |draws| == |s| && ChoiceVector(draws) && Shuffled(s, draws) == final
  {
    DrawsAreRecovered(s, choices);
    DrawsAreRecovered(s, others);
    assert |multiset(final)| == |final| && |multiset(s)| == |s|;
    EveryArrangementArises(s, final, |s|);
    assert ChoiceVector(Recovered(s, final, |s|));
  }

  // ----- picking the first usable entry

  /** The first entry that is not padding, or "" when all are. */
  function FirstNonEmpty(s: seq<string>): (pick: string)
  {
    if s == [] then "" else if s[0] != "" then s[0] else FirstNonEmpty(s[1..])
  }

  /** The pick is usable exactly when anything is, and then it is the first that is. */
  lemma {:induction false} PickIsUsable(s: seq<string>)
    ensures FirstNonEmpty(s) != "" <==> exists i :: 0 <= i < |s| && s[i] != ""
    ensures FirstNonEmpty(s) != "" ==>
              exists i :: 0 <= i < |s| && s[i] == FirstNonEmpty(s) && forall j :: 0 <= j < i ==> s[j] == ""
    ensures FirstNonEmpty(s) != "" ==> FirstNonEmpty(s) in s
  {
    if s == [] {
    } else if s[0] == "" {
      PickIsUsable(s[1..]);
      if i :| 0 < i < |s| && s[i] != "" { assert s[1..][i - 1] != ""; }
      if FirstNonEmpty(s) != "" {
        var i :| 0 <= i < |s[1..]| && s[1..][i] == FirstNonEmpty(s[1..]) && forall j :: 0 <= j < i ==> s[1..][j] == "";
        assert forall j :: 0 <= j < i + 1 ==> s[j] == (if j == 0 then "" else s[1..][j - 1]);
        assert s[i + 1] == FirstNonEmpty(s);
      }
    }
  }

  // ----- fairness of the pick among positions, padding and repeated addresses included

  ghost function Positions(n: nat): (r: seq<nat>)
    ensures |r| == n && Distinct(r)
    ensures forall k :: 0 <= k < n ==> r[k] == k
  {
    seq(n, k => k)
  }

  ghost predicate AllBelow(positions: seq<nat>, n: nat) {
    forall k :: 0 <= k < |positions| ==> positions[k] < n
  }

  ghost function AtPositions(s: seq<string>, positions: seq<nat>): (r: seq<string>)
    requires AllBelow(positions, |s|)
    ensures |r| == |positions|
  {
    seq(|positions|, k requires 0 <= k < |positions| => s[positions[k]])
  }

  lemma PermutedPositionsBelow(n: nat, positions: seq<nat>)
    requires multiset(positions) == multiset(Positions(n))
    ensures AllBelow(positions, n)
  {
    forall k | 0 <= k < |positions|
      ensures positions[k] < n
    {
      assert positions[k] in multiset(positions);
      assert positions[k] in Positions(n);
    }
  }

  /** Shuffling a list is shuffling its positions. */
  lemma {:induction false} ShuffledByPositions(s: seq<string>, choices: seq<nat>)
    requires |choices| <= |s| && ChoiceVector(choices)
    ensures AllBelow(Shuffled(Positions(|s|), choices), |s|)
    ensures Shuffled(s, choices) == AtPositions(s, Shuffled(Positions(|s|), choices))
    decreases |choices|
  {
    ShuffledIsPermutation(Positions(|s|), choices);
    PermutedPositionsBelow(|s|, Shuffled(Positions(|s|), choices));
    if choices == [] {
    } else {
      ShuffledByPositions(s, choices[..|choices| - 1]);
    }
  }

  /** The position in the original list from which the pick is taken; |s| when every entry is padding. */
  ghost function PickedPosition(s: seq<string>, positions: seq<nat>): (p: nat)
    requires AllBelow(positions, |s|)
  {
    if positions == [] then |s|
    else if s[positions[0]] != "" then positions[0]
    else PickedPosition(s, positions[1..])
  }

  lemma {:induction false} PickFromPosition(s: seq<string>, positions: seq<nat>)
    requires AllBelow(positions, |s|)
    ensures var p := PickedPosition(s, positions);
            FirstNonEmpty(AtPositions(s, positions)) == if p < |s| then s[p] else ""
  {
    if positions == [] {
    } else {
      PickFromPosition(s, positions[1..]);
      assert AtPositions(s, positions)[1..] == AtPositions(s, positions[1..]);
    }
  }

  ghost function Exchanged(p: nat, x: nat, y: nat): nat {
    if p == x then y else if p == y then x else p
  }

  ghost function ExchangedAll(positions: seq<nat>, x: nat, y: nat): (r: seq<nat>)
    ensures |r| == |positions|
  {
    seq(|positions|, k requires 0 <= k < |positions| => Exchanged(positions[k], x, y))
  }

  lemma {:induction false} ExchangedCount(positions: seq<nat>, x: nat, y: nat, p: nat)
    ensures multiset(ExchangedAll(positions, x, y))[p] == multiset(positions)[Exchanged(p, x, y)]
  {
    if positions == [] {
    } else {
      ExchangedCount(positions[1..], x, y, p);
      assert positions == [positions[0]] + positions[1..];
      var e := ExchangedAll(positions, x, y);
      assert e[1..] == ExchangedAll(positions[1..], x, y);
      assert e == [e[0]] + e[1..];
    }
  }

  lemma ExchangedIsPermutation(n: nat, positions: seq<nat>, x: nat, y: nat)
    requires x < n && y < n && multiset(positions) == multiset(Positions(n))
    ensures multiset(ExchangedAll(positions, x, y)) == multiset(Positions(n))
  {
    forall p
      ensures multiset(ExchangedAll(positions, x, y))[p] == multiset(Positions(n))[p]
    {
      if p >= 0 {
        ExchangedCount(positions, x, y, p);
        PositionCount(n, p);
        PositionCount(n, Exchanged(p, x, y));
      }
    }
  }

  lemma PositionCount(n: nat, p: nat)
    ensures multiset(Positions(n))[p] == if p < n then 1 else 0
  {
    DistinctCount(Positions(n), p);
    if p < n {
      assert Positions(n)[p] == p;
      assert p in multiset(Positions(n));
    } else {
      assert p !in Positions(n);
    }
  }

  lemma {:induction false} ExchangedPick(s: seq<string>, positions: seq<nat>, x: nat, y: nat)
    requires AllBelow(positions, |s|) && x < |s| && y < |s| && s[x] != "" && s[y] != ""
    ensures AllBelow(ExchangedAll(positions, x, y), |s|)
    ensures PickedPosition(s, ExchangedAll(positions, x, y)) == Exchanged(PickedPosition(s, positions), x, y)
  {
    var e := ExchangedAll(positions, x, y);
    if positions == [] {
    } else {
      ExchangedPick(s, positions[1..], x, y);
      assert e[1..] == ExchangedAll(positions[1..], x, y);
      assert e == [e[0]] + e[1..];
    }
  }

  /** The draws whose arrangement is that of `choices` with positions x and y exchanged. */
  ghost function ExchangedDraws(n: nat, choices: seq<nat>, x: nat, y: nat): (r: seq<nat>)
    requires |choices| == n && ChoiceVector(choices) && x < n && y < n
    ensures |r| == n && ChoiceVector(r)
  {
    var positions := Shuffled(Positions(n), choices);
    ShuffledIsPermutation(Positions(n), choices);
    ExchangedIsPermutation(n, positions, x, y);
    Recovered(Positions(n), ExchangedAll(positions, x, y), n)
  }

  /**
   * The pick is fair. For any two usable positions there is a pairing of the draws with each other
   * (it is its own inverse) under which picking from one position becomes picking from the other,
   * so exactly as many draws lead to one as to the other, whatever padding or repetition the list has.
   */
  lemma PickIsFair(s: seq<string>, choices: seq<nat>, x: nat, y: nat)
    requires |choices| == |s| && ChoiceVector(choices)
    requires x < |s| && y < |s| && s[x] != "" && s[y] != ""
    ensures var paired := ExchangedDraws(|s|, choices, x, y);
            var mine := Shuffled(Positions(|s|), choices);
            var theirs := Shuffled(Positions(|s|), paired);
            && ExchangedDraws(|s|, paired, x, y) == choices
            && AllBelow(mine, |s|) && AllBelow(theirs, |s|)
            && (PickedPosition(s, mine) == x <==> PickedPosition(s, theirs) == y)
            && PickedPosition(s, mine) < |s|
            && FirstNonEmpty(Shuffled(s, choices)) == s[PickedPosition(s, mine)]
  {
    var n := |s|;
    var paired := ExchangedDraws(n, choices, x, y);
    var mine := Shuffled(Positions(n), choices);
    ShuffledIsPermutation(Positions(n), choices);
    ExchangedIsPermutation(n, mine, x, y);
    EveryArrangementArises(Positions(n), ExchangedAll(mine, x, y), n);
    var theirs := Shuffled(Positions(n), paired);
    assert theirs == ExchangedAll(mine, x, y);
    assert ExchangedAll(theirs, x, y) == mine;
    DrawsAreRecovered(Positions(n), choices);
    ShuffledByPositions(s, choices);
    ExchangedPick(s, mine, x, y);
    PickFromPosition(s, mine);
    SomethingPicked(s, mine, x);
  }

  lemma {:induction false} SomethingPicked(s: seq<string>, positions: seq<nat>, x: nat)
    requires AllBelow(positions, |s|) && x < |s| && s[x] != ""
    requires multiset(positions) == multiset(Positions(|s|))
    ensures PickedPosition(s, positions) < |s|
  {
    PositionCount(|s|, x);
    assert x in multiset(positions);
    PickedExists(s, positions, x);
  }

  lemma {:induction false} PickedExists(s: seq<string>, positions: seq<nat>, x: nat)
    requires AllBelow(positions, |s|) && x in positions && x < |s| && s[x] != ""
    ensures PickedPosition(s, positions) < |s|
  {
    if s[positions[0]] == "" {
      assert positions == [positions[0]] + positions[1..];
      PickedExists(s, positions[1..], x);
    }
  }
}
