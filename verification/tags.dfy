/** The tag records the mapper emits, and facts about lists of them. */
module Tags {
  import opened Wrappers
  import opened Seqs

  datatype Kind = Speaker | Timestamp | Topic | TopicSummary | Sentiments | Chapter | Entities

  /** A value in a tag's `value` mapping: copied text or a copied number. */
  datatype Datum = Str(s: string) | Num(x: real)

  /** One tag: its kind, optional name, optional value mapping and optional offsets. */
  datatype Tag = Tag(
    kind: Kind,
    name: Option<string>,
    value: Option<map<string, Datum>>,
    startIdx: Option<int>,
    endIdx: Option<int>)

  /** The kinds whose tags carry character offsets. */
  predicate IsAnchoredKind(k: Kind) {
    k.Speaker? || k.Timestamp? || k.Topic? || k.Sentiments?
  }

  predicate AnchoredAt(t: Tag, start: int, end: int) {
    t.startIdx == Some(start) && t.endIdx == Some(end)
  }

  predicate Unanchored(t: Tag) {
    t.startIdx == None && t.endIdx == None
  }

  /** The offset invariant of a tag: anchored kinds have 0 <= start <= end, the
      document-level kinds have no offsets at all. */
  predicate WellFormed(t: Tag) {
    if IsAnchoredKind(t.kind) then
      t.startIdx.Some? && t.endIdx.Some? && 0 <= t.startIdx.value <= t.endIdx.value
    else
      Unanchored(t)
  }

  /** Every tag of the list is of kind `k` and well formed. */
  predicate Uniform(tags: seq<Tag>, k: Kind) {
    forall i :: 0 <= i < |tags| ==> tags[i].kind == k && WellFormed(tags[i])
  }

  /** The tags of kind `k`, in their original order. */
  function OfKind(tags: seq<Tag>, k: Kind): (r: seq<Tag>)
    ensures |r| <= |tags|
    decreases |tags|
  {
    if tags == [] then []
    else (if tags[0].kind == k then [tags[0]] else []) + OfKind(tags[1..], k)
  }

  lemma {:induction false} OfKindAppend(a: seq<Tag>, b: seq<Tag>, k: Kind)
    ensures OfKind(a + b, k) == OfKind(a, k) + OfKind(b, k)
    decreases |a|
  {
    if a != [] {
      assert (a + b)[1..] == a[1..] + b;
      OfKindAppend(a[1..], b, k);
    } else {
      assert a + b == b;
    }
  }

  /** Filtering a list that holds only kind `k` keeps all of it; one without kind `k`, none. */
  lemma {:induction false} OfKindAllOrNothing(tags: seq<Tag>, k: Kind)
    ensures (forall t :: t in tags ==> t.kind == k) ==> OfKind(tags, k) == tags
    ensures (forall t :: t in tags ==> t.kind != k) ==> OfKind(tags, k) == []
    decreases |tags|
  {
    if tags != [] {
      OfKindAllOrNothing(tags[1..], k);
      assert forall t :: t in tags[1..] ==> t in tags;
    }
  }

  /** Filtering a flattened list is flattening the filtered blocks. */
  lemma {:induction false} OfKindFlatten(xss: seq<seq<Tag>>, k: Kind)
    ensures OfKind(Flatten(xss), k)
         == Flatten(seq(|xss|, i requires 0 <= i < |xss| => OfKind(xss[i], k)))
    decreases |xss|
  {
    var filtered := seq(|xss|, i requires 0 <= i < |xss| => OfKind(xss[i], k));
    if xss != [] {
      OfKindAppend(xss[0], Flatten(xss[1..]), k);
      OfKindFlatten(xss[1..], k);
      assert filtered[1..] == seq(|xss[1..]|, i requires 0 <= i < |xss[1..]| => OfKind(xss[1..][i], k));
    }
  }

  /** The position of each kind in the block's fixed category order; speaker and
      timestamp tags share the first place because they are interleaved. */
  function Rank(k: Kind): nat {
    match k
    case Speaker => 0
    case Timestamp => 0
    case Topic => 1
    case TopicSummary => 2
    case Sentiments => 3
    case Chapter => 4
    case Entities => 5
  }

  predicate RankedBy(tags: seq<Tag>) {
    forall i, j :: 0 <= i < j < |tags| ==> Rank(tags[i].kind) <= Rank(tags[j].kind)
  }

  predicate RanksAtMost(tags: seq<Tag>, r: nat) {
    forall t :: t in tags ==> Rank(t.kind) <= r
  }

  /** Appending a list of rank-`r` tags to a ranked list of ranks at most `r` keeps it ranked. */
  lemma RankedAppend(a: seq<Tag>, b: seq<Tag>, r: nat)
    requires RankedBy(a) && RanksAtMost(a, r)
    requires forall t :: t in b ==> Rank(t.kind) == r
    ensures RankedBy(a + b) && RanksAtMost(a + b, r)
  {
    forall i, j | 0 <= i < j < |a + b|
      ensures Rank((a + b)[i].kind) <= Rank((a + b)[j].kind)
    {
      if j < |a| {
        assert (a + b)[i] == a[i] && (a + b)[j] == a[j];
      } else if i < |a| {
        assert (a + b)[i] == a[i] && a[i] in a;
        assert (a + b)[j] == b[j - |a|] && b[j - |a|] in b;
      } else {
        assert (a + b)[i] == b[i - |a|] && b[i - |a|] in b;
        assert (a + b)[j] == b[j - |a|] && b[j - |a|] in b;
      }
    }
  }
}
