/** Concatenating a sequence of blocks, and where each block lands in the result. */
module Seqs {

  /** The blocks joined end to end, in order. */
  function Flatten<T>(xss: seq<seq<T>>): seq<T>
    decreases |xss|
  {
    if xss == [] then [] else xss[0] + Flatten(xss[1..])
  }

  /** The total length of the first `i` blocks: where block `i` starts in `Flatten(xss)`. */
  function Before<T>(xss: seq<seq<T>>, i: nat): nat
    requires i <= |xss|
  {
    if i == 0 then 0 else Before(xss, i - 1) + |xss[i - 1]|
  }

  lemma {:induction false} BeforeShift<T>(xss: seq<seq<T>>, i: nat)
    requires 1 <= i <= |xss|
    ensures Before(xss, i) == |xss[0]| + Before(xss[1..], i - 1)
  {
    if i > 1 {
      BeforeShift(xss, i - 1);
    }
  }

  lemma {:induction false} FlattenLength<T>(xss: seq<seq<T>>)
    ensures |Flatten(xss)| == Before(xss, |xss|)
  {
    if xss != [] {
      FlattenLength(xss[1..]);
      BeforeShift(xss, |xss|);
    }
  }

  /** Element `k` of block `i` sits at `Before(xss, i) + k` of the flattened sequence. */
  lemma {:induction false} FlattenAt<T>(xss: seq<seq<T>>, i: nat, k: nat)
    requires i < |xss| && k < |xss[i]|
    ensures Before(xss, i) + k < |Flatten(xss)|
    ensures Flatten(xss)[Before(xss, i) + k] == xss[i][k]
  {
    if i > 0 {
      FlattenAt(xss[1..], i - 1, k);
      BeforeShift(xss, i);
    }
  }

  /** Everything in the flattened sequence comes from one of the blocks. */
  lemma {:induction false} FlattenMembers<T>(xss: seq<seq<T>>, x: T)
    requires x in Flatten(xss)
    ensures exists i :: 0 <= i < |xss| && x in xss[i]
  {
    if x !in xss[0] {
      FlattenMembers(xss[1..], x);
      var i :| 0 <= i < |xss[1..]| && x in xss[1..][i];
      assert x in xss[i + 1];
    }
  }

  /** Flattening blocks of one element each gives back those elements. */
  lemma FlattenSingletons<T>(xss: seq<seq<T>>)
    requires forall i :: 0 <= i < |xss| ==> |xss[i]| == 1
    ensures Flatten(xss) == seq(|xss|, i requires 0 <= i < |xss| => xss[i][0])
  {
    assert forall i :: 0 <= i <= |xss| ==> Before(xss, i) == i by {
      forall i | 0 <= i <= |xss| ensures Before(xss, i) == i {
        BeforeCounts(xss, i);
      }
    }
    FlattenLength(xss);
    forall i | 0 <= i < |xss| ensures Flatten(xss)[i] == xss[i][0] {
      FlattenAt(xss, i, 0);
    }
  }

  lemma {:induction false} BeforeCounts<T>(xss: seq<seq<T>>, i: nat)
    requires i <= |xss|
    requires forall j :: 0 <= j < |xss| ==> |xss[j]| == 1
    ensures Before(xss, i) == i
  {
    if i > 0 {
      BeforeCounts(xss, i - 1);
    }
  }
}
