/** Values shared by every part of the model: addresses, roles, commands and commit logs. */
module Basics {

  type Addr = string

  datatype Option<+T> = None | Some(value: T)

  datatype RaftStatus = LEADER | CANDIDATE | MEMBER

  /** A Kubernetes command. Only equality and the zero value of the struct matter to the protocol. */
  datatype KubeCmd = KubeCmd(kind: int, deployment: string, service: string)

  const EMPTY_CMD := KubeCmd(0, "", "")

  type Log = seq<KubeCmd>

  /** The length a node believes its log has: entries equal to the zero command are not counted. */
  function CountedLength(log: Log): (n: nat)
    ensures n <= |log|
  {
    if log == [] then 0
    else CountedLength(log[..|log| - 1]) + (if log[|log| - 1] != EMPTY_CMD then 1 else 0)
  }

  lemma CountedLengthAppend(log: Log, x: KubeCmd)
    ensures CountedLength(log + [x]) == CountedLength(log) + (if x != EMPTY_CMD then 1 else 0)
  {
    assert (log + [x])[..|log|] == log;
  }

  lemma {:induction false} CountedLengthMonotone(short: Log, long: Log)
    requires short <= long
    ensures CountedLength(short) <= CountedLength(long)
    decreases |long|
  {
    if short == long {
    } else {
      CountedLengthMonotone(short, long[..|long| - 1]);
    }
  }

  /** The counted length is the real length exactly when no zero command was ever stored. */
  lemma {:induction false} CountedLengthIsLength(log: Log)
    ensures CountedLength(log) == |log| <==> EMPTY_CMD !in log
  {
    if log == [] {
    } else {
      var init := log[..|log| - 1];
      assert log == init + [log[|log| - 1]];
      CountedLengthIsLength(init);
    }
  }

  /** Extending a prefix by one entry stays a prefix exactly when the entry is the next one. */
  lemma PrefixExtension(short: Log, long: Log, x: KubeCmd)
    requires short <= long
    ensures short + [x] <= long <==> |short| < |long| && long[|short|] == x
  {
    if |short| < |long| {
      assert long[..|short| + 1] == short + [long[|short|]];
      assert (short + [x])[|short|] == x;
    }
  }
}
