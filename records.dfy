/** Records shared by the stock move, move line and picking models. */
module Records {

  datatype Option<+T> = None | Some(value: T)

  /** A record id: a real database id (an integer) or a virtual id of a
      record not saved yet, which may shadow a saved record (its origin). */
  datatype RecordId = RealId(value: int) | NewId(origin: Option<int>)

  /** A stock move as far as line numbering is concerned: its id, the
      hidden `sequence` and the stored related copy `sequence2`. */
  datatype Line = Line(id: RecordId, sequence: int, sequence2: int)

  /** Default of the re-defined `sequence` field of a stock move. */
  const DefaultSequence := 9999

  /** The invariant the stored related field keeps: `sequence2` reads back
      as `sequence` on every line. */
  predicate Mirrored(ls: seq<Line>)
  {
    forall i :: 0 <= i < |ls| ==> ls[i].sequence2 == ls[i].sequence
  }

  /** The values a move is created with: its new database id, and the
      `sequence` given in the creation values, if any. */
  datatype NewMove = NewMove(id: int, sequence: Option<int>)

  /** The move that creation stores: a persisted line whose sequence is the
      given one or the field default, mirrored into `sequence2`. */
  function Created(m: NewMove): Line
  {
    var s := match m.sequence case Some(s) => s case None => DefaultSequence;
    Line(RealId(m.id), s, s)
  }

  function CreatedLines(ms: seq<NewMove>): (ls: seq<Line>)
    ensures |ls| == |ms| && Mirrored(ls)
  {
    seq(|ms|, i requires 0 <= i < |ms| => Created(ms[i]))
  }
}
