# Move-line numbering for stock pickings

A Dafny model of the `stock_picking_line_sequence` extension to the stock
application of an ERP framework. The extension numbers the moves of a
transfer (a *picking*) 1, 2, 3, … and keeps that numbering consistent:

- `_reset_sequence` renumbers the picking's `move_ids_without_package` in
  iteration order. Persisted moves (integer id) take the next number.
  Virtual moves (a `NewId` of a record not saved yet) keep their value and
  use up no number.
- `max_line_sequence` is one more than the largest move sequence, or 1
  for a picking without moves.
- `StockMove.create` renumbers the move's picking unless the call context
  carries `keep_line_sequence`. `copy` and `button_validate` always set
  that flag, so copies and backorders keep the numbers they were created
  with.
- `get_view` puts `'default_sequence': max_line_sequence` at the front of
  the creation context of the move list in form views. The inserted text
  is the field name `max_line_sequence`, not its value; the web client
  evaluates it against the record. `max_line_sequence` is below 1 only
  when every move has a negative sequence, since `max(...) + 1` of negative
  numbers is below 1; the model follows that.
- `_get_aggregated_product_quantities` copies a move's `sequence2` (the
  stored mirror of `sequence`) onto the aggregated row of its key.

Modules:

- `Records` (records.dfy): record ids, move lines, the `sequence2 == sequence`
  invariant and the values a move is created with (default sequence 9999).
- `Resequence` (resequence.dfy): what one renumbering pass yields, stated
  on values (`Renumbered`), its properties, and `NextSequence`.
- `StockPicking` (picking.dfy): the `Picking` class whose `lines` field
  `ResetSequence` rewrites in place. Also the creation hook, and copy and
  validation running with the flag set.
- `PickingView` (view.dfy): the context splice and the form-view patch.
- `Aggregation` (aggregation.dfy): the loop that writes `sequence2` into
  the aggregated rows.

The flag is a boolean parameter. An absent key is `false`. The framework
creates moves during copy and validation; `CreateMoves` stands for that,
sending each move through `CreateMove` under the operation's flag.

## Model

| member | source | states |
|---|---|---|
| `Resequence.Renumbered` | stock_picking_line_sequence/models/stock.py:69-76 | a pass keeps the number of lines, their order and their ids; virtual lines come out unchanged; renumbered lines have `sequence2 == sequence`, and the mirror invariant is preserved |
| `Resequence.PersistedNumbering` | stock_picking_line_sequence/models/stock.py:70-76 | after a pass the persisted lines carry exactly 1..N in iteration order, N being their number, so virtual lines in between make no number skip |
| `Resequence.RenumberedIdempotent` | stock_picking_line_sequence/models/stock.py:69-76 | renumbering twice gives the same lines as renumbering once |
| `Resequence.RenumberedDependsOnIds` | stock_picking_line_sequence/models/stock.py:72-76 | the pass reads only ids: lists that agree on ids and on their virtual lines renumber to the same lines |
| `Resequence.MaxSequence` | stock_picking_line_sequence/models/stock.py:62 | the maximum of a non-empty line list bounds every sequence and is one of them |
| `Resequence.NextSequence` | stock_picking_line_sequence/models/stock.py:60-63 | `max_line_sequence` is 1 with no lines, above every line's sequence, one more than some line's sequence otherwise, and at least 1 exactly when there are no lines or some line's sequence is non-negative |
| `Resequence.NextSequenceAfterReset` | stock_picking_line_sequence/models/stock.py:60-76 | once a picking whose lines are all saved is renumbered, its next sequence is N + 1 |
| `StockPicking.Picking.ResetSequence` | stock_picking_line_sequence/models/stock.py:69-76 | the counter loop leaves the picking's lines equal to `Renumbered` of the old lines and keeps the mirror invariant |
| `StockPicking.CreateMove` | stock_picking_line_sequence/models/stock.py:25-32 | creation appends the new persisted move (sequence from the values, else 9999) to its picking, and renumbers the picking exactly when `keep_line_sequence` is false; a move without a picking changes nothing |
| `StockPicking.CreateWithoutFlagNumbersAll` | stock_picking_line_sequence/models/stock.py:28-31 | creating a move without the flag leaves the persisted lines numbered 1..N+1, the new move included |
| `StockPicking.CreateSeriesKeeping` | stock_picking_line_sequence/models/stock.py:28-31 | under the flag, any number of creations append the moves with the sequences they were created with and leave earlier lines untouched |
| `StockPicking.CreateSeriesRenumbering` | stock_picking_line_sequence/models/stock.py:28-31 | without the flag, creating one or more moves ends as a single renumbering of old and new lines, so the created sequences are lost |
| `StockPicking.RenumberedAbsorbs` | stock_picking_line_sequence/models/stock.py:30-31 | a renumbering before further appended lines is subsumed by the renumbering that follows them |
| `StockPicking.CreateMoves` | stock_picking_line_sequence/models/stock.py:26-31 | moves created one by one under one flag leave the picking as the series of creations defines, mirror invariant kept |
| `StockPicking.Copy` | stock_picking_line_sequence/models/stock.py:78-81 | the copy is a new picking whose i-th line is a persisted move with the i-th new id and the same sequence as the i-th original line |
| `StockPicking.ButtonValidate` | stock_picking_line_sequence/models/stock.py:83-86 | the moves validation splits off are created in the validated picking under the flag, so they are appended with the sequences they were created with and every existing line keeps its number |
| `PickingView.SpliceContext` | stock_picking_line_sequence/models/stock.py:101-102 | the new context starts with `{'default_sequence': max_line_sequence, ` and continues with everything of the old context after its first character |
| `PickingView.SpliceRoundTrip` | stock_picking_line_sequence/models/stock.py:101-102 | for a context written as a dictionary display, removing the spliced entry gives back the original context |
| `PickingView.FirstMoveField` | stock_picking_line_sequence/models/stock.py:98-100 | the lookup yields the first `field` element named `move_ids_without_package`, or nothing when there is none |
| `PickingView.FirstMoveFieldAt` | stock_picking_line_sequence/models/stock.py:98-100 | a matching element with no match before it is the one the lookup yields |
| `PickingView.GetView` | stock_picking_line_sequence/models/stock.py:88-105 | non-form views, results without arch and archs without the field come back unchanged; otherwise only the first matching element changes, and only in its `context` attribute, which becomes the splice of the old one (of `{}` when absent) |
| `PickingView.GetViewInjectsDefault` | stock_picking_line_sequence/models/stock.py:99-103 | in a patched form view the lookup still finds the same element, its context opens with the default entry, and a field without context gets the entry followed by `}` |
| `Aggregation.LastWithKey` | stock_picking_line_sequence/models/stock.py:40-44 | yields the last move line whose key is the given one, or nothing when no line has that key |
| `Aggregation.AnnotatedRowStep` | stock_picking_line_sequence/models/stock.py:40-44 | each further move line overwrites the `sequence2` of its own key's row, whatever an earlier line wrote, and leaves other rows alone |
| `Aggregation.AnnotateSequences` | stock_picking_line_sequence/models/stock.py:38-46 | the loop adds no key and drops none; a row with a contributing line gets that last line's `sequence2` (0 for a line without move) and keeps all its other entries; other rows are unchanged |

## Left out

- stock_picking_partner_note/models/res_config_settings.py is not part of this model: it declares a related Boolean setting and holds no logic.
- The order of `move_ids_without_package` is taken as given. The framework's ordering of moves by `sequence, id` is not modelled. `CreateMove` appends the new move last, which is where its default sequence 9999 usually puts it.
- `_reset_sequence` and `_compute_max_line_sequence` loop over a set of pickings; the model handles one picking, since each picking is treated on its own.
- Integers are unbounded; the database's 32-bit integer column is not modelled.
- The `sequence2` recomputation by the framework is modelled only as the invariant `sequence2 == sequence` that every operation keeps.
- Parsing and re-serialising the arch is not modelled. The arch is the list of its elements in document order, tag and attributes. A form view whose arch lacks the field is re-serialised by the source; the model returns it unchanged.
- The base `get_view`, `_get_aggregated_product_quantities` and `_get_aggregated_properties` are outside calls. Their results are inputs: the view result, the aggregated map and the line-key function.
- What copy and validation do apart from creating moves under the flag is not modelled. This covers the `default` argument of `copy`, states and quantities, and which moves validation splits off (a parameter) and how they then move to a backorder.
- Context keys other than `keep_line_sequence` are not modelled, and the flag's truthiness is reduced to a boolean.
