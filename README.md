# flow-tools pager and converter, modelled in Dafny

flow-tools is a command-line tool that converts tabular data between CSV, XML, Excel XML, JSON and
XLS. It can also page through a dataset in the terminal. This project models the decision logic and
the paging:

- **Exporter** (`exporter_factory.dfy`): `Factory::create`. It resolves the option array against
  the known names, the required keys and the defaults. Then it builds a reader for direction `in` or
  a writer for direction `out`. Unknown directions, unknown types and misspelled or missing options
  are refused with the same exception class. The `switch` statements compare loosely, as PHP's
  `==` does, so a boolean true matches the first case label. A `Product` records which class
  would be constructed and with which arguments, in order.
- **ConvertCommand** (`convert_command.dfy`): the checks `execute` makes before exporting. Types
  are inferred from `--in`/`--out` or from the file extension, and `.xml` is ambiguous. Then come
  the file checks, in their order, and the two factory calls. `parseColumnTypes` turns
  `--excel-column-types` into one type for every column or a column-to-type table. It is a method
  with a loop, proved against a recursive specification.
- **Layout** (`layout.dfy`): the arithmetic of `FullScreenTableHelper`, as functions of the
  helper's state (a `Sheet`). It covers the column widths, how many columns fit between the
  "more columns" markers, the sub-grid handed to the table renderer, cell truncation with PHP
  `substr` semantics, and the blank padding lines.
- **TableHelper** (`table_helper.dfy`): the helper itself, as a class whose setters and `render`
  update its fields in place. Each method is proved to compute what `Layout` says.
- **ShowCommand** (`show_command.dfy`): `interact`. It opens the input and loads at most five
  records. Then it loops: render when asked, read one key byte, act on it. Keys are a sequence of
  bytes and the dataset is a sequence of records read through a forward-only cursor. The loop is
  a method on the helper, proved equal to a recursive specification (`Play`). The properties of
  the loop are proved about that specification, for any drawing function.

Two behaviours of the code are modelled as written:

- Byte 65 (the last byte of the Up-arrow sequence) moves the first shown row one further down.
- `computeNbColsToShow` reads past the last column when the columns from `colOffset` on do not
  fill the screen. The missing header reads as null, and null used as an array key is the empty
  string. Unless some column is named with the empty string, that width is null too, adds 0, and
  the loop never ends. `interact` reaches this state: `ShowCommand.RightScrollHangs` shows that
  three presses of Right on a five-column table, on a 40-character screen, lead to it. The model
  reports such a session with the outcome `Stuck` instead of looping.

## Model

| member | source | states |
|---|---|---|
| Records.GetFound | src/FlowTools/Console/Helper/FullScreenTableHelper.php:100 | a lookup by column name yields the value of a field with that name, or "" (PHP null) when no field has it |
| Records.GetAt | src/FlowTools/Console/Helper/FullScreenTableHelper.php:100 | with distinct column names, looking up the j-th name gives the j-th value |
| Exporter.Resolve | src/FlowTools/Exporter/Factory.php:33-74 | an unknown option name is refused first; then a missing required key (type, direction, filename); otherwise the result has exactly the known keys, the caller's values and the defaults for the rest |
| Exporter.CreateSource | src/FlowTools/Exporter/Factory.php:76-110 | csv builds the CSV reader from filename, delimiter, enclosure, escape and headers; xml builds the XML reader from filename; excel builds the Excel XML reader from filename and headers; boolean true counts as csv; any other type is an invalid argument |
| Exporter.CreateWriter | src/FlowTools/Exporter/Factory.php:112-159 | csv builds the CSV writer from filename, delimiter, enclosure, escape and headers; xml builds the XML writer from filename, main_element and child_element; excel builds the Excel XML writer from filename, headers and columns_type; json builds the JSON writer from filename; xls builds the XLS writer from filename and headers; boolean true counts as csv; any other type is an invalid argument |
| Exporter.Create | src/FlowTools/Exporter/Factory.php:161-182 | resolution errors pass through; `in` (or boolean true) builds a source and `out` a writer; any other direction is an invalid argument; a product is a source exactly when the direction matches `in` |
| Exporter.TrueMatchesFirstCase | src/FlowTools/Exporter/Factory.php:79-81 | a boolean true type builds the CSV reader or writer, and a boolean true direction builds a reader |
| Exporter.WriterOnlyTypes | src/FlowTools/Exporter/Factory.php:79-100 | json and xls can be written but asking for them as input fails with the source-type error |
| Exporter.CsvSourceDefaults | src/FlowTools/Exporter/Factory.php:61-88 | a CSV reader built from the three required keys gets `,` `"` `\` and headers=true, in constructor order |
| ConvertCommand.InferType | src/FlowTools/Console/Command/ConvertCommand.php:92-107 | an explicit option is used as given; otherwise the extension, except that `xml` is refused as ambiguous |
| ConvertCommand.SplitJoin | src/FlowTools/Console/Command/ConvertCommand.php:166 | `explode` loses nothing: joining its pieces with the delimiter gives the original string back |
| ConvertCommand.SplitPieces | src/FlowTools/Console/Command/ConvertCommand.php:166-169 | no piece contains the delimiter; there is one piece more than there are delimiters, so a single piece exactly when the string has none |
| ConvertCommand.ColumnTypeTableKeys | src/FlowTools/Console/Command/ConvertCommand.php:166-171 | the table's keys are exactly the column parts of the comma-separated pieces |
| ConvertCommand.ColumnTypeTableLastWins | src/FlowTools/Console/Command/ConvertCommand.php:168-171 | a column gets the type of the last piece naming it; a piece without `:` gives it no type |
| ConvertCommand.ParseColumnTypes | src/FlowTools/Console/Command/ConvertCommand.php:160-175 | the loop builds the specified table; no option gives nothing; a value without `:` or `,` is one type for every column; otherwise the keys are the pieces' column names |
| ConvertCommand.Execute | src/FlowTools/Console/Command/ConvertCommand.php:90-147 | an ambiguous input type, then an ambiguous output type, then a missing input, an existing output, an unwritable output directory, then the factory's refusal of the reader options, then its refusal of the writer options, each reported exactly in that order and the factory's errors as the factory gives them; a plan holds exactly the reader and the writer the factory builds from the inferred types and the command's options |
| ConvertCommand.SourceOptionsFields | src/FlowTools/Console/Command/ConvertCommand.php:119-132 | the input option array has only known names, all required ones, and carries the inferred type, `in`, the input path and the --in-* options |
| ConvertCommand.WriterOptionsFields | src/FlowTools/Console/Command/ConvertCommand.php:133-147 | the output option array has only known names, all required ones, and carries the inferred type, `out`, the output path, the --out-* and --xml-* options and the parsed column types |
| ConvertCommand.SourceBuilt | src/FlowTools/Console/Command/ConvertCommand.php:119-132 | the reader is built exactly when the input type is csv, xml or excel: the CSV reader with the --in-delimiter, enclosure, escape and headers options, the XML reader on the path alone, the Excel XML reader with --in-headers |
| ConvertCommand.WriterBuilt | src/FlowTools/Console/Command/ConvertCommand.php:133-147 | the writer is built exactly when the output type is csv, xml, excel, json or xls: the CSV writer with the --out-* options, the XML writer with the two --xml-element options, the Excel XML writer with --out-headers and the parsed column types, the JSON writer on the path, the XLS writer with --out-headers |
| ConvertCommand.ExecuteSucceeds | src/FlowTools/Console/Command/ConvertCommand.php:90-147 | a plan is made exactly when every check passes and both types are ones the factory builds |
| ConvertCommand.ExplicitTypesIgnoreExtensions | src/FlowTools/Console/Command/ConvertCommand.php:92-107 | with both --in and --out given, the file extensions do not change the outcome |
| ConvertCommand.AmbiguityBeforeFileChecks | src/FlowTools/Console/Command/ConvertCommand.php:92-111 | a missing `.xml` input without --in is reported as an invalid argument, not as a missing file |
| Layout.GetLength | src/FlowTools/Console/Helper/FullScreenTableHelper.php:346-353 | a text asks for its length plus three, unless that exceeds the cap, which it then gets: the smaller of the two |
| Layout.ColumnWidthIsMax | src/FlowTools/Console/Helper/FullScreenTableHelper.php:312-330 | a column is as wide as its widest entry, header included, and never wider than the cap; without rows it is the header's width |
| Layout.ColumnWidthGrows | src/FlowTools/Console/Helper/FullScreenTableHelper.php:322-329 | loading more rows never narrows a column |
| Layout.FitCountMeaning | src/FlowTools/Console/Helper/FullScreenTableHelper.php:127-132 | the counted columns stay strictly inside the budget and one more would reach it |
| Layout.NbColsDefinedWhenFilled | src/FlowTools/Console/Helper/FullScreenTableHelper.php:127-132 | the column loop ends whenever the columns from `colOffset` on fill the screen |
| Layout.NbColsChoice | src/FlowTools/Console/Helper/FullScreenTableHelper.php:118-137 | the result is one less than the columns that fit: that many fit strictly, and two more reach the screen width |
| Layout.Substr | src/FlowTools/Console/Helper/FullScreenTableHelper.php:102 | `substr(v, 0, n)` is the prefix of v of length min(n, \|v\|) for n >= 0, and of length max(0, \|v\| + n) for negative n |
| Layout.TruncateFits | src/FlowTools/Console/Helper/FullScreenTableHelper.php:101-103 | with a cap of at least 4, a longer value becomes its first cap-4 characters plus " ...", exactly cap long; a shorter one is unchanged |
| Layout.TruncateIdempotent | src/FlowTools/Console/Helper/FullScreenTableHelper.php:101-103 | with a cap of at least 4, truncating twice is truncating once |
| Layout.TruncateGrowsOnTinyCap | src/FlowTools/Console/Helper/FullScreenTableHelper.php:101-103 | with a cap of 2 the negative `substr` length yields a value longer than the cap, and truncating it again changes it |
| Layout.ShownInRange | src/FlowTools/Console/Helper/FullScreenTableHelper.php:89-91 | the shown columns lie within the header list |
| Layout.TotalAtMostCaps | src/FlowTools/Console/Helper/FullScreenTableHelper.php:331-334 | the total width is at most the number of columns times the cap, so a screen that wide always shows the whole table |
| Layout.NbRowsToShow | src/FlowTools/Console/Helper/FullScreenTableHelper.php:299-305 | four screen lines are kept for the table's header and borders |
| Layout.Table | src/FlowTools/Console/Helper/FullScreenTableHelper.php:74-111 | when everything fits, the headers as they are and one row per loaded record; otherwise the markers around the shown headers, and one row fewer than the smaller of loaded rows and screen rows |
| Layout.FrameOf | src/FlowTools/Console/Helper/FullScreenTableHelper.php:54-66 | render writes the computed table (headers and rows of `computeTable`), then exactly the padding count of empty lines |
| Layout.WideTableUnchanged | src/FlowTools/Console/Helper/FullScreenTableHelper.php:79-83 | when everything fits, the renderer gets the headers and every loaded row as they are, whatever the offsets |
| Layout.NarrowHeaderLine | src/FlowTools/Console/Helper/FullScreenTableHelper.php:84-92 | otherwise the header line is the run of headers from `colOffset`, closed by the marker and, once scrolled right, opened by one |
| Layout.NarrowRowsAligned | src/FlowTools/Console/Helper/FullScreenTableHelper.php:94-108 | the narrow view has min(loaded, screen rows) - 1 rows, starting at `rowOffset`, each as wide as the header line |
| Layout.NarrowRowShape | src/FlowTools/Console/Helper/FullScreenTableHelper.php:95-107 | each narrow row ends with the marker, starts with one exactly when scrolled right, and carries its truncated cells in between |
| Layout.CellIsLoadedValue | src/FlowTools/Console/Helper/FullScreenTableHelper.php:100 | a loaded row shows its own value in every column |
| Layout.CellPastLoadedIsEmpty | src/FlowTools/Console/Helper/FullScreenTableHelper.php:100 | a row position past the loaded rows shows empty cells |
| Layout.NarrowCellsCapped | src/FlowTools/Console/Helper/FullScreenTableHelper.php:101-103 | with a cap of at least 4 no shown cell is wider than the cap |
| Layout.LayoutDefinedAtOrigin | src/FlowTools/Console/Helper/FullScreenTableHelper.php:118-137 | from column 0 the column loop always ends, so the first screen can always be laid out |
| Layout.PaddingMeaning | src/FlowTools/Console/Helper/FullScreenTableHelper.php:60-65 | the blank lines top the loaded rows up to a screenful and never overshoot |
| TableHelper.FullScreenTable.constructor | src/FlowTools/Console/Helper/FullScreenTableHelper.php:26-45 | offsets 0, marker "...", empty width table, screen size fixed |
| TableHelper.FullScreenTable.SetHeaders | src/FlowTools/Console/Helper/FullScreenTableHelper.php:146-150 | sets the headers and nothing else |
| TableHelper.FullScreenTable.SetRows | src/FlowTools/Console/Helper/FullScreenTableHelper.php:159-163 | sets the rows and nothing else |
| TableHelper.FullScreenTable.SetRowOffset | src/FlowTools/Console/Helper/FullScreenTableHelper.php:182-186 | sets the row offset and nothing else |
| TableHelper.FullScreenTable.SetColOffset | src/FlowTools/Console/Helper/FullScreenTableHelper.php:205-209 | sets the column offset and nothing else |
| TableHelper.FullScreenTable.SetMaxColWidth | src/FlowTools/Console/Helper/FullScreenTableHelper.php:228-232 | sets the cap and nothing else |
| TableHelper.FullScreenTable.SetMoreColsText | src/FlowTools/Console/Helper/FullScreenTableHelper.php:251-255 | sets the marker text and nothing else |
| TableHelper.FullScreenTable.ComputeColsWidth | src/FlowTools/Console/Helper/FullScreenTableHelper.php:312-337 | leaves the sheet unchanged and records every header's layout width and their total |
| TableHelper.FullScreenTable.RaiseWidths | src/FlowTools/Console/Helper/FullScreenTableHelper.php:322-329 | each field of a row raises its column's width to the field's width when larger |
| TableHelper.FullScreenTable.ComputeNbColsToShow | src/FlowTools/Console/Helper/FullScreenTableHelper.php:118-137 | the scan over the width table returns the layout's column count, at least -1 |
| TableHelper.FullScreenTable.ComputeTable | src/FlowTools/Console/Helper/FullScreenTableHelper.php:74-111 | returns the layout's sub-grid and records the widths, changing nothing else |
| TableHelper.FullScreenTable.HeaderLine | src/FlowTools/Console/Helper/FullScreenTableHelper.php:84-92 | the header loop builds the narrow header line |
| TableHelper.FullScreenTable.NarrowRows | src/FlowTools/Console/Helper/FullScreenTableHelper.php:94-108 | the row loop builds the narrow rows |
| TableHelper.FullScreenTable.RowCells | src/FlowTools/Console/Helper/FullScreenTableHelper.php:95-107 | the cell loop builds one narrow row |
| TableHelper.FullScreenTable.Render | src/FlowTools/Console/Helper/FullScreenTableHelper.php:54-66 | writes the layout's frame of the current state, which it leaves unchanged |
| TableHelper.SumWidths | src/FlowTools/Console/Helper/FullScreenTableHelper.php:331-334 | the total is the sum of the widths in header order |
| TableHelper.CountColumns | src/FlowTools/Console/Helper/FullScreenTableHelper.php:126-135 | the while loop returns one less than the number of columns that fit |
| ShowCommand.OpenSource | src/FlowTools/Console/Command/ShowCommand.php:60-85 | an ambiguous `.xml` input comes first, then a missing file; past those two checks the result, reader or error, is exactly what the factory returns for the requested type and the command's options, so an unknown type gets the factory's source-type error; a reader is built exactly when the type is csv, xml or excel |
| ShowCommand.SourceOptionsFields | src/FlowTools/Console/Command/ShowCommand.php:75-85 | the option array has only known names, all required ones, and carries the type, `in`, the input path and the four CSV options |
| ShowCommand.InputReaders | src/FlowTools/Console/Command/ShowCommand.php:75-85 | a CSV input gets the CSV reader with the command's delimiter, enclosure, escape and headers; an XML input the XML reader on the path; an Excel input the Excel XML reader with the headers option |
| ShowCommand.InitialLoad | src/FlowTools/Console/Command/ShowCommand.php:86-103 | loads the first min(5, all) records and takes the headers from the first one |
| ShowCommand.Step | src/FlowTools/Console/Command/ShowCommand.php:118-158 | one pass of the key switch never unreads a record nor reads past the end of the source |
| ShowCommand.RunBounds | src/FlowTools/Console/Command/ShowCommand.php:129-157 | keys never unread a record or read past the end, and the column offset stays on a column |
| ShowCommand.ReadsOneAtATime | src/FlowTools/Console/Command/ShowCommand.php:129-135 | a key reads at most one record, and Down reads one whenever one is left |
| ShowCommand.DownAppendsNext | src/FlowTools/Console/Command/ShowCommand.php:131-135 | Down appends exactly the next unread record |
| ShowCommand.DownKeepsRowOnLoaded | src/FlowTools/Console/Command/ShowCommand.php:136-142 | Down moves the first row one further exactly when, after reading, a screenful is loaded and a loaded row follows it, and otherwise keeps it; it never lands past the last loaded row |
| ShowCommand.UpAlwaysAdvances | src/FlowTools/Console/Command/ShowCommand.php:122-128 | byte 65 always moves the first shown row one further and asks for a render |
| ShowCommand.UpPassesLoaded | src/FlowTools/Console/Command/ShowCommand.php:122-128 | n presses of byte 65 put the first shown row at n, past the loaded rows, without reading any |
| ShowCommand.OtherKeysChangeNothing | src/FlowTools/Console/Command/ShowCommand.php:118-121 | 'q' and every byte the switch does not list change no offset and read nothing |
| ShowCommand.RenderIffChanged | src/FlowTools/Console/Command/ShowCommand.php:118-158 | a key asks for a render exactly when it changed an offset or read a record |
| ShowCommand.ColumnEdgesAreInert | src/FlowTools/Console/Command/ShowCommand.php:144-157 | Left at the first column and Right at the last one do not redraw |
| ShowCommand.DrawPending | src/FlowTools/Console/Command/ShowCommand.php:112-115 | drawing the pending view completes the frames for the keys read so far |
| ShowCommand.NextKey | src/FlowTools/Console/Command/ShowCommand.php:117-158 | reading a key other than 'q' keeps the loop's invariant: no 'q' read, one frame per view drawn |
| ShowCommand.QuitPlayed | src/FlowTools/Console/Command/ShowCommand.php:119-121 | 'q' ends the session right after the frames drawn so far, having read the keys up to and including it |
| ShowCommand.ResumePlayed | src/FlowTools/Console/Command/ShowCommand.php:108-159 | from any point the loop reaches, the rest of the session meets its description |
| ShowCommand.PlayIsPlayed | src/FlowTools/Console/Command/ShowCommand.php:108-159 | the session reads keys up to the first 'q', draws one frame per view that asks for one, and stops on 'q', when the keys run out, or on a view that cannot be laid out |
| ShowCommand.ResumeKeepsFrames | src/FlowTools/Console/Command/ShowCommand.php:110-115 | a frame once drawn is never taken back |
| ShowCommand.DrawnByHelper | src/FlowTools/Console/Command/ShowCommand.php:112-113 | each frame written is the helper's rendering of the view that asked for it |
| ShowCommand.StuckByHelper | src/FlowTools/Console/Helper/FullScreenTableHelper.php:127-132 | a session stops early only on a view whose column loop does not end |
| ShowCommand.FirstViewFirst | src/FlowTools/Console/Command/ShowCommand.php:109-115 | whatever the drawing, the first view is drawn first when it can be |
| ShowCommand.FirstScreenDrawn | src/FlowTools/Console/Command/ShowCommand.php:105-115 | for a uniform dataset the first frame is always the helper's rendering of the first load at column 0 |
| ShowCommand.StuckOnlyScrolledRight | src/FlowTools/Console/Helper/FullScreenTableHelper.php:118-137 | for a uniform dataset the loop can only hang once scrolled right |
| ShowCommand.LastViewDrawn | src/FlowTools/Console/Command/ShowCommand.php:110-115 | unless the loop got stuck, the last view that asked to be drawn was drawn |
| ShowCommand.NoQuitReadsAll | src/FlowTools/Console/Command/ShowCommand.php:108-159 | without a 'q' the loop reads every key unless it gets stuck, and then the last view asked for was drawn |
| ShowCommand.FourthColumnOverruns | src/FlowTools/Console/Helper/FullScreenTableHelper.php:127-132 | five 10-wide columns on a 40-character screen: from the fourth column on the loop runs off the end |
| ShowCommand.ThreeRights | src/FlowTools/Console/Command/ShowCommand.php:144-150 | three presses of Right on five columns scroll to the fourth, each asking for a render |
| ShowCommand.RightScrollHangs | src/FlowTools/Console/Command/ShowCommand.php:144-150 | so that session hangs instead of drawing the fourth view |
| ShowCommand.Interact | src/FlowTools/Console/Command/ShowCommand.php:60-159 | fails exactly as opening the input fails; otherwise plays the session its specification describes |
| ShowCommand.Show | src/FlowTools/Console/Command/ShowCommand.php:86-159 | the first load, the helper's set-up (headers, cap of a quarter of the width) and the key loop produce the specified session |
| ShowCommand.Browse | src/FlowTools/Console/Command/ShowCommand.php:108-159 | the loop on the helper produces the specified session |
| ShowCommand.HandleKey | src/FlowTools/Console/Command/ShowCommand.php:118-158 | the switch updates the helper's offsets, the loaded records and the render flag as one step of the state machine |

## Left out

- Terminal I/O: `getKeyChar` (stty and a one-byte read) and `getScreenSize` (stty size). Keys are
  a byte sequence and the screen size is a pair of parameters, read once as the PHP caches it.
- `getFileExtension` and the file system (`is_file`, `is_writable`, `dirname`). The extensions
  are inputs and the file facts are booleans.
- The readers, the writers and `Handler`, which live in the exporter library or elsewhere. A
  `Product` names the class and its constructor arguments. The records a reader yields are the
  `source` sequence handed to `interact`; the export step of `convert` is not modelled.
- The table renderer's drawing: a `Frame` is the header line and rows handed to it, plus the
  blank lines written after it.
- `CompileCommand`, `Application`, the helper's `getName` and the plain getters.
- ShowCommand.Interact: every loaded record must have exactly the first record's column list,
  in the same names and order. Records that differ are not modelled: PHP draws them (passing
  the rows as they are, or looking cells up by name) with notices for missing fields. In the
  model, any record whose column list differs from the first record's ends the session as
  `Stuck` at the first render after it is loaded, whether or not the view shows it.
- ShowCommand.Interact: the never-ending column loop is reported as the outcome `Stuck` instead
  of a run that does not terminate.
- TableHelper.FullScreenTable.constructor: `maxColWidth` starts as 0, not PHP null. `interact`
  sets it before the first render.
- Layout.Truncate and Layout.TruncateFits: the helper measures widths with its multibyte-aware
  `strlen`, which the model's character counts match, but `substr` cuts bytes. For text with
  multibyte characters PHP keeps fewer characters than the model, and may cut a character in two.
  So "exactly cap long" holds only for single-byte text.
- ShowCommand.Interact and Layout.NbColsDefined: the coercion of the missing header (null) to the
  array key "" is not modelled. When a column is named with the empty string, PHP's column loop
  adds that column's width past the end and does end. The model reports such a view as one that
  cannot be laid out.
- PHP's conversion of numeric string keys to integers is not modelled.
- `getNbRowsToShow` as a load size in `interact` is overridden by the constant 5 in the source,
  so only the constant is modelled.
