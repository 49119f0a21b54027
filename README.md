# Periodic table of samples: layout and merge model

`v2.py` fetches a spreadsheet payload and draws it as a periodic table. The payload lists element symbols, and each symbol has a list of samples `{value, state, color}`. The drawing is a 10 × 18 grid of cells, and every element cell is split into four coloured sample quarters. A legend of states sits beside the grid, and clicking a legend item dims every quarter with another state.

This project models the deterministic core of that program and proves properties of it:

- **`Table.dfy`** holds the geometry table `PERIODIC_TABLE`: 118 entries of atomic number, symbol, name, group and period.
  - Facts proved about it:
    - entry `i` is atomic number `i + 1`;
    - coordinates lie in 7 × 18;
    - the lanthanides sit at (6, 3) and the actinides at (7, 3);
    - no two main-block entries share a coordinate.
- **`Positions.dfy`** models `build_position_map`, `build_cell_positions` and `assign_f_block`.
  - It models the (period, group) → atomic number map over the main block, and the two f-block rows.
- **`Merge.dfy`** models `assemble_elements`.
  - It builds the symbol → row map.
  - It normalises samples, back-filling a missing colour from the label → colour mapping.
  - It pads each element to at least four samples.
  - It emits one element per table entry.
- **`Render.dfy`** models the grid part of `render_html`:
  - `sanitize_label`;
  - `render_sample_quarter`;
  - the cell tooltip;
  - the 10 × 18 cell walk, with main block, spacer row, lanthanide row and actinide row.
- **`Legend.dfy`** covers three things:
  - the legend order: the payload's colour → label legend inverted, or else the label → colour mapping;
  - the legend items;
  - the click handler's dimming rule.
- **`Text.dfy`** models the library calls the core uses, on ASCII: `str.strip`, `str.lower`, `str.isalnum`, `str.join`, `str(int)` and `html.escape(s, quote=True)`.
  - It also includes a decoder for the five character references that `html.escape` produces. The decoder stands for what a browser reads back from an attribute.
- **`Wrappers.dfy`** holds `Option`.

The HTML output is modelled structurally:
- A cell is `Empty`, `Spacer` or `Element(z, symbol, tip, quarters)`.
- A quarter is its class list plus the values of its background, `data-state`, `data-tip` and index label, exactly as written into the document, i.e. after `html.escape`.

Behaviour of the code that the model keeps, and that a reader might not expect:

- **Samples are never truncated.** `assemble_elements` keeps every sample of a row and only pads up to four. The cell tooltip lists every sample that has a state or a value. Only the quarters use the first four.
- **`sanitize_label` does not collapse separators.** Each non-alphanumeric character becomes its own dash, and only the outer dashes are stripped. So "da   comprare" gives "da---comprare", not "da-comprare".
- **Tooltips are escaped twice.**
  - Quarter tooltips escape the state and value, join them with " | ", and escape the result again.
  - The cell tooltip escapes the element name as its first line, then escapes the joined lines again.
  - What the page shows therefore still contains entities such as `&amp;` for a state or name with a special character.
- **Resetting (6, 3) and (7, 3) to empty in `build_cell_positions` is redundant.** The f-block skip already leaves them empty, because only lanthanum..lutetium and actinium..lawrencium have those coordinates. `Positions.FBlockAnchorsEmpty` proves this.
- **An element with no payload row is still drawn.** It gets four grey, untagged quarters without tooltips.
- **A payload row whose stripped symbol is empty is ignored.** A later row with the same symbol replaces an earlier one.
- **`color_hex` is the colour unchanged.** Both branches of its conditional give `color`.
- **A state that sanitises to the empty tag behaves like no filter.** Clicking its legend item un-dims every quarter.

Payload representation:
- A JSON member is `Absent`, `Null` or `Str(text)`.
  - `str()` of a missing member is the default "".
  - `str()` of `null` is "None". This matters for `state` and `color`.
  - The sample value maps both `null` and a missing member to "".
- A dictionary is given by its items in order: `labelColors` and `legend` as sequences of pairs. Its lookup takes the first item with the key, which for a JSON object (distinct keys) is its only one.

## Model

| member | source | states |
|---|---|---|
| Table.PeriodicTable | v2.py:104-230 | The 118 entries of PERIODIC_TABLE, field for field; their shape is stated by Table.TableIsChunks, Table.EntryFacts and Table.MainBlockCoordinatesDistinct |
| Table.TableIsChunks | v2.py:104-230 | The table has exactly 118 entries, in period order |
| Table.EntryFacts | v2.py:104-230 | Entry i has atomic number i+1, period 1..7 and group 1..18; lanthanides sit at (6, 3), actinides at (7, 3) |
| Table.AtomicNumbers | v2.py:104-230 | The table is in ascending atomic number: entry i is element i+1 |
| Table.NeighbourFacts | v2.py:104-230 | Consecutive entries advance in row-major (period, group) order, except inside an f-block series where they share the coordinate |
| Table.RankMonotone | v2.py:104-230 | Row-major rank never decreases along the table |
| Table.MainRankStrict | v2.py:104-230 | Every entry after a main-block entry has a strictly larger rank |
| Table.MainBlockCoordinatesDistinct | v2.py:104-230 | No two main-block entries share a (period, group) |
| Positions.PlacedAmong | v2.py:253-260 | The cell (p, g) after the first n entries are written, skipping 57..71 and 89..103, the last write winning; characterised by Positions.PlacedAmongIff |
| Positions.PositionAt | v2.py:247-261 | The finished position map at (p, g); characterised by Positions.PositionAtIff |
| Positions.TableLayout | v2.py:104-230 | The table is numbered 1..118 in order and no two main-block entries share a coordinate |
| Positions.PlacedAmongIff | v2.py:254-260 | Over a table numbered in order without main-block collisions, after the first n entries are written, cell (p, g) holds z exactly when z <= n is a main-block element located at (p, g) |
| Positions.PositionAtIff | v2.py:247-261 | The finished map holds z at (p, g) exactly when z is in 1..118, outside 57..71 and 89..103, and located at (p, g); no f-block z is a value |
| Positions.MainAvoidsAnchors | v2.py:258 | A main-block element never has the coordinate (6, 3) or (7, 3) of a displaced f-block series |
| Positions.FBlockAnchorsEmpty | v2.py:399-403 | (6, 3) and (7, 3) are already empty before the explicit reset |
| Positions.BuildPositionMap | v2.py:233-261 | The keys are exactly periods 1..7 × groups 1..18, and every cell holds the element placed there (or none) |
| Positions.BuildCellPositions | v2.py:384-403 | Same keys and contents as the position map, with (6, 3) and (7, 3) empty; the reset changes nothing |
| Positions.ZsBetween | v2.py:273-274 | The table-order list of atomic numbers lying in a range; stated by Positions.ZsBetweenConsecutive |
| Positions.AssignFBlock | v2.py:264-275 | The lanthanide and actinide lists; stated by Positions.AssignFBlockRows |
| Positions.ZsBetweenConsecutive | v2.py:273-274 | Filtering consecutively numbered entries by a z range yields the consecutive run clipped to the range |
| Positions.AssignFBlockRows | v2.py:264-275 | The two rows are exactly 57..71 and 89..103, ascending, 15 each |
| Text.Strip | v2.py:350 | str.strip(): both ends trimmed of whitespace; characterised by Text.StripCharsSlice and Text.StripCharsIdempotent |
| Text.IsAlnum | v2.py:450 | str.isalnum() on ASCII; used by Render.DashedOnePerChar |
| Text.Join | v2.py:465 | str.join; its start is stated by Render.JoinStartsWithFirstTwo and its use in the quarter tip by Render.QuarterTipTextFacts |
| Text.Esc | v2.py:442-443 | html.escape(s, quote=True); inverted by Text.UnescapeEsc, injective by Text.EscInjective, identity on safe text by Text.EscSafe |
| Text.TrimLeftSuffix | v2.py:367-368 | lstrip keeps a suffix that does not start with a stripped character and removes only stripped characters |
| Text.TrimRightPrefix | v2.py:367-368 | rstrip keeps a prefix that does not end with a stripped character and removes only stripped characters |
| Text.StripCharsSlice | v2.py:367-368 | strip keeps a contiguous slice with only stripped characters cut from either end, and the kept text neither starts nor ends with one |
| Text.StripCharsIdempotent | v2.py:454 | Stripping twice equals stripping once |
| Text.Lower | v2.py:446 | lower() sends each of A..Z into a..z and leaves every other character alone |
| Text.Decimal | v2.py:459 | str(n) of a natural number is a non-empty string of digits |
| Text.EscAppend | v2.py:442-443 | html.escape distributes over concatenation |
| Text.EscSafe | v2.py:442-443 | html.escape leaves text without & < > " ' unchanged |
| Text.UnescapeOneChar | v2.py:442-443 | Decoding the escape of one character gives that character back, whatever follows |
| Text.UnescapeEsc | v2.py:442-443 | Decoding an escaped string gives the string back |
| Text.EscInjective | v2.py:442-443 | Two strings escape alike exactly when they are equal |
| Merge.Get | v2.py:372 | dict.get: the value of the first item with the key, or the default when no item has it |
| Merge.Normalise | v2.py:364-373 | One payload sample normalised; each field stated by Merge.NormaliseFields |
| Merge.NormaliseFields | v2.py:364-373 | Value kept verbatim, or "" for null/missing; state is the payload state stripped: the slice left after cutting whitespace from both ends, starting and ending with no whitespace; colour stripped, and replaced by the mapping's colour for the state (or "") only when the state is non-empty and the colour empty |
| Merge.NormaliseAll | v2.py:363-373 | One normalised sample per payload sample |
| Merge.Key | v2.py:350 | The stripped symbol of a row; used by Merge.LastEntryFound and Merge.BlankRowIgnored |
| Merge.LastEntry | v2.py:349-354 | The last row whose key is the symbol; characterised by Merge.LastEntryFound and Merge.LaterDuplicateWins |
| Merge.Lookup | v2.py:349-360 | sheet_map.get(sym); equals the map built by Merge.BuildSheetMap, ignoring blank keys by Merge.BlankRowIgnored |
| Merge.LastEntryFound | v2.py:349-354 | A symbol is found exactly when some row has it as its stripped symbol, and the row found carries that key |
| Merge.LaterDuplicateWins | v2.py:349-354 | The row used for a symbol is the last row carrying it |
| Merge.BlankRowIgnored | v2.py:350-353 | Inserting a row whose stripped symbol is empty anywhere changes no lookup |
| Merge.Padded | v2.py:377-378 | Padding keeps every sample in order and appends empty samples up to four, never dropping any |
| Merge.MissingSymbolGivesFourEmptySamples | v2.py:374-376 | An element without a payload row gets exactly four empty samples |
| Merge.FoundSymbolKeepsAllSamples | v2.py:359-378 | An element with a row keeps all its normalised samples in order, then empty samples up to four |
| Merge.BuildSheetMap | v2.py:349-354 | The map holds exactly the non-blank stripped symbols, each mapped to the last row carrying it |
| Merge.SamplesFor | v2.py:359-378 | The samples of one element; stated by Merge.FoundSymbolKeepsAllSamples and Merge.MissingSymbolGivesFourEmptySamples |
| Merge.ElementFor | v2.py:355-379 | The element built for one table entry; stated by Merge.MergedShape |
| Merge.CollectSamples | v2.py:357-378 | The per-element loop computes the padded normalised samples of the row found, or four empty samples |
| Merge.MergeOne | v2.py:356-379 | One pass of the element loop yields the table entry's number, symbol and name with the samples merged from the row found for its symbol |
| Merge.MergeAll | v2.py:355-380 | The element loop yields one merged element per table entry, in table order |
| Merge.AssembleElements | v2.py:334-381 | Exactly 118 elements, element i being the merge of table entry i with its payload row |
| Merge.MergedShape | v2.py:334-381 | Element i of the result has atomic number i+1, the table's symbol and name, and at least four samples |
| Render.Sanitize | v2.py:444-454 | sanitize_label; stated by Render.SanitizeShape, Render.SanitizeIdempotent and Render.SanitizeHtmlSafe |
| Render.Dashed | v2.py:446-453 | The dashed label has one character per input character |
| Render.SanitizeLabel | v2.py:444-454 | The loop produces the sanitised tag |
| Render.DashedOnePerChar | v2.py:449-453 | Each alphanumeric character yields its lower-case form, each other character exactly one dash |
| Render.SanitizeShape | v2.py:444-454 | A tag has only a..z, 0..9 and '-', never starts or ends with '-', and is the dashed label with only dashes cut off its ends |
| Render.DashedOfTagChars | v2.py:446-453 | A string of tag characters is its own dashed form |
| Render.SanitizeIdempotent | v2.py:444-454 | Sanitising a tag again changes nothing |
| Render.SanitizeHtmlSafe | v2.py:444-454 | A tag contains no character html.escape rewrites |
| Render.SeparatorRunsKept | v2.py:449-454 | "da   comprare" gives "da---comprare" while "Da Comprare!" gives "da-comprare": runs are not collapsed |
| Render.EscLength | v2.py:442-443 | Escaping never shortens a string |
| Render.DecimalHtmlSafe | v2.py:459 | A decimal number needs no escaping |
| Render.StateTag | v2.py:467-471 | The data-state value of a quarter before escaping: the sanitised state, or empty; stated by Render.QuarterTag |
| Render.QuarterTipText | v2.py:459-465 | The quarter tooltip text; characterised by Render.QuarterTipTextFacts |
| Render.RenderQuarter | v2.py:456-475 | render_sample_quarter; stated by Render.QuarterLook, Render.QuarterTag, Render.QuarterClasses and Render.QuarterTip |
| Render.QuarterLook | v2.py:456-475 | A quarter shows the sample's colour, or #eaeaea when it has none, and the index idx+1 |
| Render.QuarterTag | v2.py:466-474 | A quarter's data-state is the sanitised state, and empty when the state is empty |
| Render.QuarterClasses | v2.py:466-474 | A quarter's classes are "quarter", plus one class "state-" followed by the sanitised state when it has a state; that tag holds no space, so it is a single class |
| Render.QuarterTipTextFacts | v2.py:459-465 | The quarter tooltip is empty exactly when state and value both are; otherwise it decodes to the escaped state and value joined by a space-bar-space separator |
| Render.QuarterTip | v2.py:459-465 | The same, read from the rendered quarter |
| Render.EmptySampleIsNeutral | v2.py:456-475 | An empty sample renders grey, untagged, without tooltip |
| Render.SampleLine | v2.py:507-514 | The tooltip line of one sample, when it has a state or a value; stated by Render.SampleLinesComplete |
| Render.TipLines | v2.py:506-514 | The tooltip lines of an element; stated by Render.SampleLinesComplete, Render.SampleLinesInOrder and Render.CellTipShowsEscapedName |
| Render.CellTip | v2.py:506-515 | The data-tip of an element cell; stated by Render.BuildCellTip and Render.CellTipShowsEscapedName |
| Render.BuildCellTip | v2.py:506-515 | The tooltip loop builds the cell tooltip, which decodes to the tooltip lines joined by newlines |
| Render.SampleLinesComplete | v2.py:507-514 | The tooltip lists a line for every sample with a state or value, not only the first four, and nothing else; order is stated by Render.SampleLinesInOrder |
| Render.SampleLinesPrefix | v2.py:507-514 | The lines of the first m samples are the first lines of the first n samples: later samples only append |
| Render.SampleLineAt | v2.py:507-514 | The line of sample k sits right after the lines of the samples before it |
| Render.SampleLinesInOrder | v2.py:507-514 | When samples k1 < k2 both have a line, the line of k1 comes before the line of k2 |
| Render.SampleLinesAllStated | v2.py:507-514 | When every sample has a state, line k is the line of sample k |
| Render.JoinStartsWithFirstTwo | v2.py:515 | A newline-joined list starts with its first two lines |
| Render.CellTipShowsEscapedName | v2.py:506-515 | The decoded cell tooltip starts with the name still escaped once, then Z=<z> |
| Render.IndexByZ | v2.py:422 | elem_by_z; characterised by Render.IndexByZFacts |
| Render.IndexByZFacts | v2.py:422 | elem_by_z holds exactly the atomic numbers present, each mapped to the last element carrying it |
| Render.IndexOfAssembled | v2.py:422 | Over elements numbered 1, 2, ..., elem_by_z finds element z at position z-1 |
| Render.GridZ | v2.py:478-498 | The atomic number placed at a grid position; stated by Render.PlacedExactlyOnce |
| Render.CellAt | v2.py:478-527 | The cell drawn at a grid position; stated by Render.RenderCell, Render.EveryElementDrawnAtHome and Render.NoElementsNoCells |
| Render.PlacedExactlyOnce | v2.py:478-500 | Each atomic number 1..118 is placed at exactly one grid position (its home), nothing outside 1..118 is placed, and row 8 and columns 1..3 of rows 9-10 place nothing |
| Render.GridZInRange | v2.py:478-498 | Whatever the grid places is an atomic number 1..118 |
| Render.ElementCell | v2.py:516-525 | An element cell carries the element's number, its escaped symbol and one quarter for each of its first four samples |
| Render.GridRow | v2.py:479 | A grid row has 18 cells |
| Render.RenderGrid | v2.py:476-527 | Exactly 180 cells in row-major order, cell (r, c) being the cell specified for that position |
| Render.RenderRow | v2.py:479-527 | The column loop yields the 18 cells of the row |
| Render.RenderCell | v2.py:480-527 | One grid position renders as a spacer on row 8, else the element placed there, else empty |
| Render.AssembledDrawable | v2.py:516-518 | The assembled elements always have the four samples the quarters index |
| Render.EveryElementDrawnAtHome | v2.py:476-527 | Over the assembled elements, element z is drawn at its home position with its own number, symbol and first four samples |
| Render.MissingElementDrawnNeutral | v2.py:374-376 | An element the payload lacks is drawn with four grey, untagged, tooltip-less quarters |
| Render.NoElementsNoCells | v2.py:499-504 | With no elements, the grid holds only spacers and empty cells |
| Legend.LegendOrder | v2.py:426-434 | With a legend member: its pairs in order, each turned into (label, colour); otherwise the label -> colour pairs in order |
| Legend.ItemFor | v2.py:533-538 | The legend item of one pair; stated by Legend.ItemShows |
| Legend.LegendItems | v2.py:529-539 | The legend items in order, empty labels skipped; stated by Legend.LegendItemsComplete and Legend.LegendItemsAppend |
| Legend.LegendItemsAppend | v2.py:529-539 | The legend preserves order: items of a concatenation are the items of each part in turn |
| Legend.RenderLegend | v2.py:529-539 | The legend loop yields one item per pair with a non-empty label, in order |
| Legend.LegendItemsComplete | v2.py:530-532 | Every pair with a non-empty label has its item, every item comes from such a pair, and there are at most as many items as pairs |
| Legend.ItemShows | v2.py:533-538 | An item decodes to its label and colour, and its data-state is the label's tag |
| Legend.LegendTagMatchesQuarter | v2.py:533-538 | A legend item and a quarter with a state carry the same data-state exactly when label and state sanitise alike |
| Legend.Dimmed | v2.py:747-753 | The filtered class of one quarter under the clicked tag; stated by Legend.ClickDims and Legend.UntaggedDimmedByAnyTag |
| Legend.ClickDims | v2.py:743-753 | Clicking an item dims a quarter exactly when the label's tag is non-empty and differs from the quarter's tag |
| Legend.UntaggedDimmedByAnyTag | v2.py:747-750 | Quarters without a state are dimmed by every item with a non-empty tag |

## Left out

- `fetch_sheet_data` (HTTP request, JSON decoding, the payload sanity checks) and `main` (argument parsing, `--dump-json`, writing the output file) are I/O. The model starts from the decoded payload, given as typed values.
- The CSS text and the HTML document framing around the grid and legend are static text. The `elementsData` object is serialised with `json.dumps`, which is a library serialiser. None of them is modelled.
- The JavaScript is DOM plumbing: the popup, the overlay, and the `active` class toggle on legend items. Only the dimming rule is stated, as `Legend.Dimmed`.
- The cell and quarter HTML is represented by attribute values, not by the bytes of the markup.
- `str.strip`, `str.lower` and `str.isalnum` are modelled on ASCII only.
  - Python also strips Unicode spaces such as U+00A0 and U+0085.
  - Python lower-cases non-ASCII letters and keeps them as alphanumeric. For example, `sanitize_label("già")` keeps "à", whereas the model turns it into a dash.
- Non-string JSON values are not modelled in general. Only the four fields the source passes through `str()` (a row's `symbol` and a sample's `value`, `state` and `color`) may hold a number, represented by the text `str()` gives it. A `samples` member that is `null` or not a list makes the source raise, and is not modelled.
- Non-string values in `labelColors` and in the `legend` member are not modelled: the model takes labels and colours as strings. The source uses them as they are, so a numeric legend label `0` is dropped by the empty-label test while the text "0" gets an item, and a numeric colour makes `color.startswith` or `html.escape` raise.
- Render.RenderGrid: requires every element the grid draws to have at least four samples. The source raises an `IndexError` otherwise. The assembled elements always meet this (`Render.AssembledDrawable`).
- Symbol uniqueness within the table is not proved. Lookups are by symbol, and the model is correct whatever the symbols are.
