/** `_get_aggregated_product_quantities` of stock.move.line: the rows the
    base method aggregated get the `sequence2` of a move line that falls
    under their key. The base aggregation and the line key computation are
    outside this model; they come in as the incoming map and `lineKey`. */
module Aggregation {
  import opened Records

  /** A value in an aggregated row: the `sequence2` this code writes, or
      one of the base method's values, which it never looks at. */
  datatype Value = IntValue(n: int) | Opaque(id: int)

  type Row = map<string, Value>

  const Sequence2Key := "sequence2"

  /** A move line and its move (`move_id`), which may be empty. */
  datatype MoveLine = MoveLine(id: int, move: Option<Line>)

  /** `move_line.move_id.sequence2`: an empty move reads as 0. */
  function MoveSequence2(ml: MoveLine): int
  {
    match ml.move
    case Some(m) => m.sequence2
    case None => 0
  }

  /** Index of the last move line of `mls` whose key is `k`, if any. */
  function LastWithKey<K(==)>(mls: seq<MoveLine>, lineKey: MoveLine -> K, k: K): (r: Option<nat>)
    ensures r.Some? ==> r.value < |mls| && lineKey(mls[r.value]) == k
    ensures r.Some? ==> forall j :: r.value < j < |mls| ==> lineKey(mls[j]) != k
    ensures r.None? ==> forall j :: 0 <= j < |mls| ==> lineKey(mls[j]) != k
  {
    if mls == [] then None
    else if lineKey(mls[|mls| - 1]) == k then Some(|mls| - 1)
    else LastWithKey(mls[..|mls| - 1], lineKey, k)
  }

  /** A row as the annotation leaves it: with the `sequence2` of the last
      move line under its key, or as it was when no move line has that key. */
  function AnnotatedRow<K(==)>(row: Row, mls: seq<MoveLine>, lineKey: MoveLine -> K, k: K): Row
  {
    match LastWithKey(mls, lineKey, k)
    case None => row
    case Some(j) => row[Sequence2Key := IntValue(MoveSequence2(mls[j]))]
  }

  /** One more move line: it overwrites the `sequence2` of its own key's
      row, whatever an earlier line wrote there, and no other row. */
  lemma {:induction false} AnnotatedRowStep<K>(row: Row, mls: seq<MoveLine>, i: nat, lineKey: MoveLine -> K, k: K)
    requires i < |mls|
    ensures AnnotatedRow(row, mls[..i + 1], lineKey, k) ==
      if lineKey(mls[i]) == k
      then AnnotatedRow(row, mls[..i], lineKey, k)[Sequence2Key := IntValue(MoveSequence2(mls[i]))]
      else AnnotatedRow(row, mls[..i], lineKey, k)
  {
    assert mls[..i + 1][..i] == mls[..i];
    if lineKey(mls[i]) == k {
      var v := IntValue(MoveSequence2(mls[i]));
      match LastWithKey(mls[..i], lineKey, k)
      case None =>
      case Some(j) =>
        var w := IntValue(MoveSequence2(mls[..i][j]));
        assert row[Sequence2Key := w][Sequence2Key := v] == row[Sequence2Key := v];
    }
  }

  /** The loop over the move lines: a line whose key already has a row
      overwrites that row's `sequence2`; a line without a row adds none. */
  method AnnotateSequences<K(==)>(aggregated: map<K, Row>, moveLines: seq<MoveLine>, lineKey: MoveLine -> K)
    returns (result: map<K, Row>)
    ensures result.Keys == aggregated.Keys
    ensures forall k :: k in aggregated ==> result[k] == AnnotatedRow(aggregated[k], moveLines, lineKey, k)
  {
    result := aggregated;
    var i := 0;
    while i < |moveLines|
      invariant 0 <= i <= |moveLines|
      invariant result.Keys == aggregated.Keys
      invariant forall k :: k in aggregated ==> result[k] == AnnotatedRow(aggregated[k], moveLines[..i], lineKey, k)
    {
      var key := lineKey(moveLines[i]);
      forall k | k in aggregated
        ensures AnnotatedRow(aggregated[k], moveLines[..i + 1], lineKey, k) ==
          if key == k then result[k][Sequence2Key := IntValue(MoveSequence2(moveLines[i]))] else result[k]
      {
        AnnotatedRowStep(aggregated[k], moveLines, i, lineKey, k);
      }
      if key in result {
        result := result[key := result[key][Sequence2Key := IntValue(MoveSequence2(moveLines[i]))]];
      }
      i := i + 1;
    }
    assert moveLines[..i] == moveLines;
  }
}
