/** stock.picking and the creation hook of stock.move: the picking's move
    list is renumbered in place, and creating a move triggers that unless
    the `keep_line_sequence` flag of the call context is set, which copy
    and validation always set. */
module StockPicking {
  import opened Records
  import opened Resequence

  /** A transfer and its `move_ids_without_package`, in iteration order. */
  class Picking {
    var lines: seq<Line>

    ghost predicate Valid()
      reads this
    {
      Mirrored(lines)
    }

    constructor (lines: seq<Line>)
      requires Mirrored(lines)
      ensures Valid() && this.lines == lines
    {
      this.lines := lines;
    }

    /** `_reset_sequence`: walk the lines with a counter starting at 1;
        each persisted line takes the counter, which then moves on. */
    method ResetSequence()
      requires Valid()
      modifies this
      ensures Valid()
      ensures lines == Renumbered(old(lines))
    {
      var current := 1;
      var i := 0;
      while i < |lines|
        invariant 0 <= i <= |lines| == |old(lines)|
        invariant current == PersistedCount(old(lines)[..i]) + 1
        invariant lines[..i] == Renumbered(old(lines)[..i])
        invariant lines[i..] == old(lines)[i..]
      {
        assert old(lines)[..i + 1][..i] == old(lines)[..i];
        assert old(lines)[i] == lines[i];
        if lines[i].id.RealId? {
          // writing `sequence` recomputes the stored related `sequence2`
          lines := lines[i := lines[i].(sequence := current, sequence2 := current)];
          current := current + 1;
        }
        i := i + 1;
      }
      assert lines == lines[..i] && old(lines) == old(lines)[..i];
    }
  }

  /** The picking's lines after a move is created in it: appended, then
      renumbered unless the numbering is to be kept. */
  function AfterCreate(lines: seq<Line>, move: Line, keepLineSequence: bool): seq<Line>
  {
    if keepLineSequence then lines + [move] else Renumbered(lines + [move])
  }

  /** The lines after creating `moves` one by one under the same flag. */
  function CreateSeries(lines: seq<Line>, moves: seq<Line>, keepLineSequence: bool): seq<Line>
    decreases |moves|
  {
    if moves == [] then lines
    else CreateSeries(AfterCreate(lines, moves[0], keepLineSequence), moves[1..], keepLineSequence)
  }

  /** Under the flag, created moves are appended with the sequences they
      were created with, and the earlier lines are untouched. */
  lemma {:induction false} CreateSeriesKeeping(lines: seq<Line>, moves: seq<Line>)
    ensures CreateSeries(lines, moves, true) == lines + moves
    decreases |moves|
  {
    if moves != [] {
      CreateSeriesKeeping(lines + [moves[0]], moves[1..]);
      assert lines + [moves[0]] + moves[1..] == lines + moves;
    }
  }

  /** A renumbering pass ahead of more appended lines is subsumed by the
      pass that follows them. */
  lemma {:induction false} RenumberedAbsorbs(a: seq<Line>, b: seq<Line>)
    ensures Renumbered(Renumbered(a) + b) == Renumbered(a + b)
  {
    RenumberedDependsOnIds(Renumbered(a) + b, a + b);
  }

  /** Without the flag, creating one or more moves leaves the picking as
      one renumbering pass over old and new lines would: the moves lose
      the sequences they were created with. */
  lemma {:induction false} CreateSeriesRenumbering(lines: seq<Line>, moves: seq<Line>)
    requires moves != []
    ensures CreateSeries(lines, moves, false) == Renumbered(lines + moves)
    decreases |moves|
  {
    var first, rest := lines + [moves[0]], moves[1..];
    assert first + rest == lines + moves;
    if rest == [] {
      assert moves == [moves[0]];
    } else {
      var next := Renumbered(first);
      CreateSeriesRenumbering(next, rest);
      RenumberedAbsorbs(first, rest);
      CreateSeriesFirst(lines, moves, false);
    }
  }

  /** One creation step of a series, stated apart so that the proof above
      stays small. */
  lemma {:induction false} CreateSeriesFirst(lines: seq<Line>, moves: seq<Line>, keepLineSequence: bool)
    requires moves != []
    ensures CreateSeries(lines, moves, keepLineSequence)
         == CreateSeries(AfterCreate(lines, moves[0], keepLineSequence), moves[1..], keepLineSequence)
  {
  }

  /** Creating a persisted move without the flag leaves the picking's
      persisted lines numbered 1..N+1, the new move included. */
  lemma {:induction false} CreateWithoutFlagNumbersAll(lines: seq<Line>, values: NewMove)
    ensures PersistedSequences(AfterCreate(lines, Created(values), false))
         == OneTo(PersistedCount(lines) + 1)
  {
    var all := lines + [Created(values)];
    assert all[..|all| - 1] == lines;
    PersistedNumbering(all);
  }

  /** `StockMove.create`: store the move in its picking (if any), then
      renumber the picking unless `keep_line_sequence` is set. */
  method CreateMove(picking: Picking?, values: NewMove, keepLineSequence: bool) returns (move: RecordId)
    requires picking != null ==> picking.Valid()
    modifies picking
    ensures move == RealId(values.id)
    ensures picking != null ==> picking.Valid()
    ensures picking != null ==>
      picking.lines == AfterCreate(old(picking.lines), Created(values), keepLineSequence)
  {
    move := RealId(values.id);
    if picking != null {
      picking.lines := picking.lines + [Created(values)];
      if !keepLineSequence {
        picking.ResetSequence();
      }
    }
  }

  /** The framework's creation of moves inside an operation: each move in
      turn goes through `CreateMove` under the operation's flag. */
  method CreateMoves(picking: Picking, moves: seq<NewMove>, keepLineSequence: bool)
    requires picking.Valid()
    modifies picking
    ensures picking.Valid()
    ensures picking.lines == CreateSeries(old(picking.lines), CreatedLines(moves), keepLineSequence)
  {
    var i := 0;
    while i < |moves|
      invariant 0 <= i <= |moves|
      invariant picking.Valid()
      invariant CreateSeries(picking.lines, CreatedLines(moves)[i..], keepLineSequence)
             == CreateSeries(old(picking.lines), CreatedLines(moves), keepLineSequence)
    {
      var rest := CreatedLines(moves)[i..];
      assert rest[0] == Created(moves[i]) && rest[1..] == CreatedLines(moves)[i + 1..];
      var _ := CreateMove(picking, moves[i], keepLineSequence);
      i := i + 1;
    }
    assert CreatedLines(moves)[i..] == [];
  }

  /** `copy`: the duplicate's moves are created under `keep_line_sequence`,
      so each copy keeps the sequence of the move it copies. `newIds` are
      the ids the database gives the copies. */
  method Copy(src: Picking, newIds: seq<int>) returns (dup: Picking)
    requires src.Valid() && |newIds| == |src.lines|
    ensures fresh(dup) && dup.Valid()
    ensures |dup.lines| == |src.lines|
    ensures forall i :: 0 <= i < |src.lines| ==>
      dup.lines[i] == Line(RealId(newIds[i]), src.lines[i].sequence, src.lines[i].sequence)
  {
    var originals := src.lines;
    var copies := seq(|originals|, i requires 0 <= i < |originals| => NewMove(newIds[i], Some(originals[i].sequence)));
    dup := new Picking([]);
    CreateMoves(dup, copies, true);
    CreateSeriesKeeping([], CreatedLines(copies));
    assert [] + CreatedLines(copies) == CreatedLines(copies);
  }

  /** `button_validate`: the moves that validation splits off are created
      in the validated picking under `keep_line_sequence`, so they keep the
      sequences they were created with and the picking's existing lines
      keep their numbers. */
  method ButtonValidate(picking: Picking, splitMoves: seq<NewMove>)
    requires picking.Valid()
    modifies picking
    ensures picking.Valid()
    ensures picking.lines == old(picking.lines) + CreatedLines(splitMoves)
  {
    CreateMoves(picking, splitMoves, true);
    CreateSeriesKeeping(old(picking.lines), CreatedLines(splitMoves));
  }
}
