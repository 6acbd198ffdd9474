/** The text edits of deploy/concurrency_smoke.py: the reverse splice of `candidate_config`. */
module Splice {

  /** A replacement of text[start..end]. */
  datatype Edit = Edit(start: nat, end: nat, replacement: string)

  predicate Fits(e: Edit, text: string) {
    e.start <= e.end <= |text|
  }

  predicate Before(e: Edit, f: Edit) {
    e.end <= f.start && e.start < f.start
  }

  /** Edits of distinct places: any two are one before the other. */
  predicate Separate(edits: set<Edit>, text: string) {
    && (forall e | e in edits :: Fits(e, text))
    && (forall e, f | e in edits && f in edits && e != f :: Before(e, f) || Before(f, e))
  }

  predicate Ascending(edits: seq<Edit>, text: string) {
    && (forall i | 0 <= i < |edits| :: Fits(edits[i], text))
    && (forall i, j | 0 <= i < j < |edits| :: Before(edits[i], edits[j]))
  }

  lemma Rest(edits: seq<Edit>, text: string)
    requires Ascending(edits, text) && edits != []
    ensures Fits(edits[0], text) && (forall e | e in edits[1..] :: edits[0].end <= e.start)
    ensures Ascending(edits[1..], text) && (|edits| > 1 ==> edits[0].end <= edits[1..][0].start)
  {
    assert forall i | 0 <= i < |edits| - 1 :: edits[1..][i] == edits[i + 1];
  }

  /**
   The reference: all edits at once. The text before the first edit, its replacement, the text between it
   and the next one, and so on; every position refers to the original text.
   */
  function Substitute(text: string, edits: seq<Edit>, from: nat): string
    requires Ascending(edits, text) && from <= |text| && (edits != [] ==> from <= edits[0].start)
    decreases |edits|
  {
    if edits == [] then text[from..]
    else
      Rest(edits, text);
      text[from..edits[0].start] + edits[0].replacement + Substitute(text, edits[1..], edits[0].end)
  }

  /** What follows the first replacement. */
  function Tail(text: string, edits: seq<Edit>): string
    requires Ascending(edits, text) && edits != []
  {
    Rest(edits, text);
    Substitute(text, edits[1..], edits[0].end)
  }

  lemma Unfold(text: string, edits: seq<Edit>, from: nat)
    requires Ascending(edits, text) && edits != [] && from <= edits[0].start
    ensures edits[0].start <= |text|
    ensures Substitute(text, edits, from) == text[from..edits[0].start] + (edits[0].replacement + Tail(text, edits))
  {
    var head, tail := text[from..edits[0].start], Tail(text, edits);
    assert head + edits[0].replacement + tail == head + (edits[0].replacement + tail);
  }

  lemma {:induction false} SubstituteSkips(text: string, edits: seq<Edit>, from: nat, to: nat)
    requires Ascending(edits, text) && from <= to <= |text| && (edits != [] ==> to <= edits[0].start)
    ensures Substitute(text, edits, from) == text[from..to] + Substitute(text, edits, to)
  {
    if edits == [] {
      SliceJoins(text, from, to, |text|);
      assert text[from..|text|] == text[from..] && text[to..|text|] == text[to..];
    } else {
      var at := edits[0].start;
      SliceJoins(text, from, to, at);
      Unfold(text, edits, from);
      Unfold(text, edits, to);
      hide Substitute, Ascending;
      var tail := edits[0].replacement + Tail(text, edits);
      assert Substitute(text, edits, from) == (text[from..to] + text[to..at]) + tail;
      assert (text[from..to] + text[to..at]) + tail == text[from..to] + (text[to..at] + tail);
    }
  }

  lemma SliceJoins(text: string, from: nat, mid: nat, to: nat)
    requires from <= mid <= to <= |text|
    ensures text[from..to] == text[from..mid] + text[mid..to]
  {
  }

  lemma {:induction false} Greatest(edits: set<Edit>, text: string) returns (e: Edit)
    requires edits != {} && Separate(edits, text)
    ensures e in edits && forall f | f in edits && f != e :: Before(f, e)
  {
    var x :| x in edits;
    if edits == {x} {
      e := x;
    } else {
      var rest := Greatest(edits - {x}, text);
      assert Before(rest, x) || Before(x, rest);
      e := if Before(rest, x) then x else rest;
      forall f | f in edits && f != e ensures Before(f, e) {
        if f != x && f != rest {
          assert f in edits - {x} && Before(f, rest);
        }
      }
    }
  }

  /** The splice loop over the edits in descending order is the simultaneous substitution. */
  method Apply(text: string, edits: set<Edit>) returns (result: string, order: seq<Edit>)
    requires Separate(edits, text)
    ensures Ascending(order, text) && (forall e :: e in order <==> e in edits) && |order| == |edits|
    ensures result == Substitute(text, order, 0)
  {
    result, order := text, [];
    var todo := edits;
    ghost var low: nat := |text|;
    while todo != {}
      invariant todo <= edits && low <= |text|
      invariant Ascending(order, text) && (order != [] ==> low == order[0].start)
      invariant (forall e :: e in order <==> e in edits - todo) && |order| == |edits| - |todo|
      invariant forall e, f | e in todo && f in order :: Before(e, f)
      invariant forall e | e in todo :: e.end <= low
      invariant result == text[..low] + Substitute(text, order, low)
    {
      ghost var top := Greatest(todo, text);
      assert forall f | f in todo :: f.start <= top.start;
      var e :| e in todo && forall f | f in todo :: f.start <= e.start;
      assert e == top;
      Splices(text, order, low, e, result);
      result := result[..e.start] + e.replacement + result[e.end..];
      order, low := [e] + order, e.start;
      todo := todo - {e};
    }
    SubstituteSkips(text, order, 0, low);
  }

  lemma Cut(text: string, low: nat, tail: string, at: nat)
    requires at <= low <= |text|
    ensures (text[..low] + tail)[..at] == text[..at] && (text[..low] + tail)[at..] == text[at..low] + tail
  {
  }

  lemma Prepended(text: string, order: seq<Edit>, e: Edit)
    requires Ascending(order, text) && Fits(e, text) && (order != [] ==> e.end <= order[0].start)
    requires forall f | f in order :: Before(e, f)
    ensures Ascending([e] + order, text)
    ensures Substitute(text, [e] + order, e.start) == e.replacement + Substitute(text, order, e.end)
  {
    var longer := [e] + order;
    assert forall i | 0 < i < |longer| :: longer[i] == order[i - 1] && longer[i] in order;
    assert longer[1..] == order && text[e.start..e.start] == "";
    Unfold(text, longer, e.start);
    hide Substitute;
  }

  lemma Splices(text: string, order: seq<Edit>, low: nat, e: Edit, result: string)
    requires Ascending(order, text) && low <= |text| && (order != [] ==> low == order[0].start)
    requires Fits(e, text) && e.end <= low && forall f | f in order :: Before(e, f)
    requires result == text[..low] + Substitute(text, order, low)
    ensures Ascending([e] + order, text) && e.end <= |result|
    ensures result[..e.start] + e.replacement + result[e.end..]
            == text[..e.start] + Substitute(text, [e] + order, e.start)
  {
    hide Substitute, Ascending;
    Prepended(text, order, e);
    SubstituteSkips(text, order, e.end, low);
    var tail := Substitute(text, order, low);
    Cut(text, low, tail, e.start);
    Cut(text, low, tail, e.end);
  }

  // ---- the text outside the edits ----

  /** How far the edits before a position move it. */
  function Shift(edits: seq<Edit>, p: nat): int {
    if edits == [] then 0
    else
      (if edits[0].end <= p then |edits[0].replacement| - (edits[0].end - edits[0].start) else 0) + Shift(edits[1..], p)
  }

  predicate Outside(edits: seq<Edit>, p: nat) {
    forall e | e in edits :: p < e.start || e.end <= p
  }

  lemma InTail(head: string, tail: string, i: int)
    requires 0 <= i < |tail|
    ensures (head + tail)[|head| + i] == tail[i]
  {
  }

  lemma InHead(head: string, tail: string, i: int)
    requires 0 <= i < |head|
    ensures (head + tail)[i] == head[i]
  {
  }

  lemma {:induction false} NoShift(edits: seq<Edit>, text: string, p: nat)
    requires Ascending(edits, text) && forall e | e in edits :: p < e.start
    ensures Shift(edits, p) == 0
  {
    if edits != [] {
      Rest(edits, text);
      NoShift(edits[1..], text, p);
    }
  }

  /** The character stands before the first edit. */
  lemma UntouchedBefore(text: string, edits: seq<Edit>, from: nat, p: nat)
    requires Ascending(edits, text) && edits != [] && from <= p < edits[0].start && Outside(edits, p)
    ensures Shift(edits, p) == 0 && p - from < |Substitute(text, edits, from)|
    ensures Substitute(text, edits, from)[p - from] == text[p]
  {
    Unfold(text, edits, from);
    hide Substitute;
    forall e | e in edits ensures p < e.start {
      assert edits == [edits[0]] + edits[1..];
      Rest(edits, text);
    }
    NoShift(edits, text, p);
    InHead(text[from..edits[0].start], edits[0].replacement + Tail(text, edits), p - from);
  }

  /** The character stands after the first edit, where the rest has it at position i. */
  lemma UntouchedAfter(text: string, edits: seq<Edit>, from: nat, i: int)
    requires Ascending(edits, text) && edits != [] && from <= edits[0].start && 0 <= i < |Tail(text, edits)|
    ensures var n := edits[0].start - from + |edits[0].replacement| + i;
            0 <= n < |Substitute(text, edits, from)| && Substitute(text, edits, from)[n] == Tail(text, edits)[i]
  {
    Unfold(text, edits, from);
    hide Substitute, Ascending, Tail;
    InTail(edits[0].replacement, Tail(text, edits), i);
    InTail(text[from..edits[0].start], edits[0].replacement + Tail(text, edits), |edits[0].replacement| + i);
  }

  lemma RestOutside(edits: seq<Edit>, text: string, p: nat)
    requires Ascending(edits, text) && edits != [] && edits[0].start <= p && Outside(edits, p)
    ensures edits[0].end <= p && Ascending(edits[1..], text) && Outside(edits[1..], p)
    ensures |edits| > 1 ==> edits[0].end <= edits[1..][0].start
    ensures Shift(edits, p) == |edits[0].replacement| - (edits[0].end - edits[0].start) + Shift(edits[1..], p)
    ensures Fits(edits[0], text) && Tail(text, edits) == Substitute(text, edits[1..], edits[0].end)
  {
    assert edits[0] in edits && forall e | e in edits[1..] :: e in edits;
    Rest(edits, text);
  }

  /** Every character outside the edits is still there, in its place among the others. */
  lemma {:induction false} Untouched(text: string, edits: seq<Edit>, from: nat, p: nat)
    requires Ascending(edits, text) && from <= p < |text| && (edits != [] ==> from <= edits[0].start)
    requires Outside(edits, p)
    ensures 0 <= p - from + Shift(edits, p) < |Substitute(text, edits, from)|
    ensures Substitute(text, edits, from)[p - from + Shift(edits, p)] == text[p]
    decreases |edits|
  {
    hide Substitute, Ascending, Shift, Outside;
    if edits == [] {
      UntouchedByNone(text, edits, from, p);
    } else if p < edits[0].start {
      UntouchedBefore(text, edits, from, p);
    } else {
      RestOutside(edits, text, p);
      Untouched(text, edits[1..], edits[0].end, p);
      UntouchedAfter(text, edits, from, p - edits[0].end + Shift(edits[1..], p));
    }
  }

  lemma UntouchedByNone(text: string, edits: seq<Edit>, from: nat, p: nat)
    requires edits == [] && Ascending(edits, text) && from <= p < |text|
    ensures Shift(edits, p) == 0 && p - from < |Substitute(text, edits, from)|
    ensures Substitute(text, edits, from)[p - from] == text[p]
  {
  }
}
