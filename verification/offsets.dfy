/**
 The offset scheme shared by the four span-anchored tag kinds.

 A cursor starts at a given position; each fragment gets the span
 [cursor, cursor + |text|) and the cursor then moves past the text and one
 separator character. The spans therefore locate the fragments in the pseudo-text
 obtained by joining the fragment texts with single spaces; that pseudo-text is
 never compared with the transcript the service returned.
 */
module Offsets {

  /** A half-open character range [start, end). */
  datatype Span = Span(start: int, end: int)

  /** Reference definition: the sum over j < i of |texts[j]| + 1, i.e. where fragment `i`
      starts when every earlier fragment is followed by one separator. */
  function Offset(texts: seq<string>, i: nat): (r: nat)
    requires i <= |texts|
    ensures r >= i
  {
    if i == 0 then 0 else Offset(texts, i - 1) + |texts[i - 1]| + 1
  }

  /** The cursor fold: one span per fragment, in fragment order. */
  function Layout(texts: seq<string>, cursor: int): (spans: seq<Span>)
    ensures |spans| == |texts|
    decreases |texts|
  {
    if texts == [] then []
    else [Span(cursor, cursor + |texts[0]|)] + Layout(texts[1..], cursor + |texts[0]| + 1)
  }

  lemma {:induction false} OffsetShift(texts: seq<string>, i: nat)
    requires 1 <= i <= |texts|
    ensures Offset(texts, i) == |texts[0]| + 1 + Offset(texts[1..], i - 1)
  {
    if i > 1 {
      OffsetShift(texts, i - 1);
    }
  }

  /** The fold agrees with the closed form: span `i` starts `Offset(texts, i)` after the cursor. */
  lemma {:induction false} LayoutClosedForm(texts: seq<string>, cursor: int, i: nat)
    requires i < |texts|
    ensures Layout(texts, cursor)[i]
         == Span(cursor + Offset(texts, i), cursor + Offset(texts, i) + |texts[i]|)
  {
    if i > 0 {
      LayoutClosedForm(texts[1..], cursor + |texts[0]| + 1, i - 1);
      OffsetShift(texts, i);
    }
  }

  lemma LayoutAt(texts: seq<string>, cursor: int)
    ensures forall i :: 0 <= i < |texts| ==>
      Layout(texts, cursor)[i] == Span(cursor + Offset(texts, i), cursor + Offset(texts, i) + |texts[i]|)
  {
    forall i | 0 <= i < |texts|
      ensures Layout(texts, cursor)[i] == Span(cursor + Offset(texts, i), cursor + Offset(texts, i) + |texts[i]|)
    {
      LayoutClosedForm(texts, cursor, i);
    }
  }

  /** The spans start at the cursor, are as wide as their fragments, and leave exactly one
      character between consecutive fragments. */
  lemma LayoutContiguous(texts: seq<string>, cursor: int)
    ensures var spans := Layout(texts, cursor);
      && (0 < |spans| ==> spans[0].start == cursor)
      && (forall i :: 0 <= i < |spans| ==> cursor <= spans[i].start <= spans[i].end)
      && (forall i :: 0 <= i < |spans| ==> spans[i].end - spans[i].start == |texts[i]|)
      && (forall i, j :: 0 <= i && j == i + 1 && j < |spans| ==> spans[i].end + 1 == spans[j].start)
  {
    LayoutAt(texts, cursor);
  }

  /** The pseudo-text the spans index into: the fragments joined by single spaces. */
  function Join(texts: seq<string>): string
    decreases |texts|
  {
    if |texts| == 0 then ""
    else if |texts| == 1 then texts[0]
    else texts[0] + " " + Join(texts[1..])
  }

  /** The pseudo-text ends where the last span ends. */
  lemma {:induction false} JoinLength(texts: seq<string>)
    requires |texts| > 0
    ensures |Join(texts)| == Offset(texts, |texts|) - 1
    decreases |texts|
  {
    if |texts| > 1 {
      JoinLength(texts[1..]);
      OffsetShift(texts, |texts|);
    }
  }

  /** The span of fragment `i` cuts exactly that fragment out of the joined pseudo-text,
      and a space follows it unless it is the last one. */
  lemma {:induction false} JoinLocates(texts: seq<string>, i: nat)
    requires i < |texts|
    ensures Offset(texts, i) + |texts[i]| <= |Join(texts)|
    ensures Join(texts)[Offset(texts, i)..Offset(texts, i) + |texts[i]|] == texts[i]
    ensures i + 1 < |texts| ==>
      Offset(texts, i) + |texts[i]| < |Join(texts)| && Join(texts)[Offset(texts, i) + |texts[i]|] == ' '
    decreases |texts|
  {
    if |texts| > 1 {
      var head := texts[0] + " ";
      var tail := Join(texts[1..]);
      assert Join(texts) == head + tail;
      if i == 0 {
        assert (head + tail)[..|texts[0]|] == texts[0];
      } else {
        JoinLocates(texts[1..], i - 1);
        OffsetShift(texts, i);
        var s := Offset(texts[1..], i - 1);
        var e := s + |texts[i]|;
        assert (head + tail)[|head| + s..|head| + e] == tail[s..e];
        if i + 1 < |texts| {
          assert (head + tail)[|head| + e] == tail[e];
        }
      }
    }
  }
}
