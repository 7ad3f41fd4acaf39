/** What renumbering a picking's moves means, and the next sequence a new
    line gets: `_reset_sequence` and `_compute_max_line_sequence` of
    stock.picking, stated on the lines' values. */
module Resequence {
  import opened Records

  /** Number of persisted (real id) lines in `ls`. */
  function PersistedCount(ls: seq<Line>): nat
  {
    if ls == [] then 0
    else PersistedCount(ls[..|ls| - 1]) + (if ls[|ls| - 1].id.RealId? then 1 else 0)
  }

  /** Sequences of the persisted lines of `ls`, in iteration order. */
  function PersistedSequences(ls: seq<Line>): seq<int>
  {
    if ls == [] then []
    else PersistedSequences(ls[..|ls| - 1])
         + (if ls[|ls| - 1].id.RealId? then [ls[|ls| - 1].sequence] else [])
  }

  /** [1, 2, ..., n]. */
  function OneTo(n: nat): (r: seq<int>)
    ensures |r| == n
    ensures forall k :: 0 <= k < n ==> r[k] == k + 1
  {
    if n == 0 then [] else OneTo(n - 1) + [n]
  }

  /** A persisted line takes number `n` (and its stored mirror with it);
      a virtual line is left as it is. */
  function Renumber(l: Line, n: int): Line
  {
    if l.id.RealId? then l.(sequence := n, sequence2 := n) else l
  }

  /** The lines after one renumbering pass: each persisted line gets one
      more than the number of persisted lines before it. */
  function Renumbered(ls: seq<Line>): (r: seq<Line>)
    ensures |r| == |ls|
    ensures forall i :: 0 <= i < |ls| ==> r[i].id == ls[i].id
    ensures forall i :: 0 <= i < |ls| && ls[i].id.NewId? ==> r[i] == ls[i]
    ensures forall i :: 0 <= i < |ls| && ls[i].id.RealId? ==> r[i].sequence2 == r[i].sequence
    ensures Mirrored(ls) ==> Mirrored(r)
  {
    if ls == [] then []
    else
      var init, last := ls[..|ls| - 1], ls[|ls| - 1];
      Renumbered(init) + [Renumber(last, PersistedCount(init) + 1)]
  }

  /** Two line lists that agree on ids, and on everything about their
      virtual lines, differ at most in the numbers a pass overwrites. */
  predicate SameUpToNumbering(x: seq<Line>, y: seq<Line>)
  {
    |x| == |y| &&
    forall i :: 0 <= i < |x| ==> x[i].id == y[i].id && (x[i].id.NewId? ==> x[i] == y[i])
  }

  lemma {:induction false} SameIdsSameCount(x: seq<Line>, y: seq<Line>)
    requires |x| == |y|
    requires forall i :: 0 <= i < |x| ==> x[i].id == y[i].id
    ensures PersistedCount(x) == PersistedCount(y)
  {
    if x != [] {
      SameIdsSameCount(x[..|x| - 1], y[..|y| - 1]);
    }
  }

  /** The pass reads nothing but ids: it cannot tell apart lists that
      differ only in the numbers it overwrites. */
  lemma {:induction false} RenumberedDependsOnIds(x: seq<Line>, y: seq<Line>)
    requires SameUpToNumbering(x, y)
    ensures Renumbered(x) == Renumbered(y)
  {
    if x != [] {
      var xi, yi := x[..|x| - 1], y[..|y| - 1];
      assert SameUpToNumbering(xi, yi);
      RenumberedDependsOnIds(xi, yi);
      SameIdsSameCount(xi, yi);
    }
  }

  /** A second pass changes nothing. */
  lemma {:induction false} RenumberedIdempotent(ls: seq<Line>)
    ensures Renumbered(Renumbered(ls)) == Renumbered(ls)
  {
    RenumberedDependsOnIds(Renumbered(ls), ls);
  }

  /** `Renumbered` unfolded at a list with a line appended; stated apart
      so that the proofs using it stay small. */
  lemma {:induction false} RenumberedSnoc(ls: seq<Line>, l: Line)
    ensures Renumbered(ls + [l]) == Renumbered(ls) + [Renumber(l, PersistedCount(ls) + 1)]
  {
    InitOfSnoc(ls, l);
  }

  /** Slicing off an appended line gives the list back; stated apart so
      that the lemmas using it stay small. */
  lemma {:induction false} InitOfSnoc(ls: seq<Line>, l: Line)
    ensures (ls + [l])[..|ls|] == ls
  {
  }

  /** The persisted lines carry exactly 1, 2, ..., N in iteration order,
      N being their number: no number is skipped or used twice, whatever
      virtual lines sit between them. */
  lemma {:induction false} PersistedNumbering(ls: seq<Line>)
    ensures PersistedSequences(Renumbered(ls)) == OneTo(PersistedCount(ls))
  {
    if ls != [] {
      var init, last := ls[..|ls| - 1], ls[|ls| - 1];
      assert ls == init + [last];
      PersistedNumbering(init);
      RenumberedSnoc(init, last);
      InitOfSnoc(Renumbered(init), Renumber(last, PersistedCount(init) + 1));
    }
  }

  lemma {:induction false} AllPersistedCount(ls: seq<Line>)
    requires forall i :: 0 <= i < |ls| ==> ls[i].id.RealId?
    ensures PersistedCount(ls) == |ls|
  {
    if ls != [] {
      AllPersistedCount(ls[..|ls| - 1]);
    }
  }

  /** Largest sequence among non-empty `ls`. */
  function MaxSequence(ls: seq<Line>): (m: int)
    requires ls != []
    ensures forall i :: 0 <= i < |ls| ==> ls[i].sequence <= m
    ensures exists i :: 0 <= i < |ls| && ls[i].sequence == m
  {
    if |ls| == 1 then ls[0].sequence
    else
      var m' := MaxSequence(ls[1..]);
      assert forall i :: 1 <= i < |ls| ==> ls[i] == ls[1..][i - 1];
      if ls[0].sequence >= m' then ls[0].sequence else m'
  }

  /** `max_line_sequence`: one more than the largest line sequence, with
      an empty picking counting as largest sequence 0. */
  function NextSequence(ls: seq<Line>): (r: int)
    ensures ls == [] ==> r == 1
    ensures forall i :: 0 <= i < |ls| ==> ls[i].sequence < r
    ensures ls != [] ==> exists i :: 0 <= i < |ls| && ls[i].sequence == r - 1
    ensures r >= 1 <==> ls == [] || exists i :: 0 <= i < |ls| && ls[i].sequence >= 0
  {
    (if ls == [] then 0 else MaxSequence(ls)) + 1
  }

  /** With every line saved, a pass numbers them by position. */
  lemma {:induction false} AllPersistedNumbers(ls: seq<Line>)
    requires forall i :: 0 <= i < |ls| ==> ls[i].id.RealId?
    ensures forall i :: 0 <= i < |ls| ==> Renumbered(ls)[i].sequence == i + 1
  {
    if ls != [] {
      var init := ls[..|ls| - 1];
      AllPersistedNumbers(init);
      AllPersistedCount(init);
    }
  }

  /** Once a picking whose lines are all saved has been renumbered, the
      next sequence offered to a new line is N + 1. */
  lemma {:induction false} NextSequenceAfterReset(ls: seq<Line>)
    requires forall i :: 0 <= i < |ls| ==> ls[i].id.RealId?
    ensures NextSequence(Renumbered(ls)) == |ls| + 1
  {
    var r := Renumbered(ls);
    AllPersistedNumbers(ls);
    if ls != [] {
      assert r[|ls| - 1].sequence == |ls|;
    }
  }
}
