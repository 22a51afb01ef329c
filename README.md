# xls2json conversion core in Dafny

xls2json walks a directory tree. It converts each spreadsheet that follows a fixed layout into a JSON
configuration file. This project models the conversion core of `main.go` and proves properties of it:

- the **list layout** (`parseArray`): row 4 holds field names and row 5 holds type labels. Every row
  from the 6th on becomes one record.
- the **single layout** (`parseSingle`): every row from the 4th on gives one `key → value` entry,
  taken from columns A (key), B (type label) and C (value text).
- the **coercion** `conv`: cell text becomes an int, a float or a string, according to its type label.
- the **layout dispatch** on the text of cell B2: "列表" (list) or "单项" (single); any other text is
  an error.
- the **file filter** of `walkFunc`: skip directories, skip names starting with `~$`, and convert only
  `.xlsx` and `.xls` files.
- the **output directory fragment**, `strings.TrimPrefix(absPath, dirParam)`.

The sheet is an input: the row grid (`seq<seq<string>>`) that the spreadsheet library returns for
`Sheet1`, plus the text of B2.

Modules:

- `Wrappers`: Option and Result.
- `Coerce` (coerce.dfy): `Atoi`, `Itoa` and `Conv`.
- `Sheet`: records and the error kinds.
- `ListLayout` and `SingleLayout`: each parser is a method with the source's loops. Each is proved
  equal to a recursive function over prefixes of the rows. The lemmas state the properties of that
  function.
- `Excel`: layout dispatch and the output-path fragment.
- `Walk`: the file filter, with Go's `filepath.Base` and `filepath.Ext`.
- `Examples`: worked sheets.

Errors carry the 1-based row and column numbers that the program prints:

| error | meaning | row | column |
|---|---|---|---|
| `RowMisaligned` | list layout: a row has the wrong cell count | `idx+6` | `len(row)+1` |
| `CellInvalid` | list layout: a cell fails to convert | `idx+6` | `i+1` |
| `RowTooShort` | single layout: a row has fewer than 3 cells | `idx+4` | none |
| `ValueInvalid` | single layout: the value fails to convert | `idx+4` | none |
| `FieldTypeMismatch` | list layout: field-name and type rows differ in length | none | none |
| `UnsupportedLayout` | the B2 text is neither label | none | none |

`parseArray` indexes `rows[3]`, `rows[4]` and `rows[5:]` without a guard, and `parseSingle` indexes
`rows[3:]` without one. On a grid that is too short, the Go program stops with an index-out-of-range
panic. The model turns that case into an explicit error, `SheetTooShort`: for the list layout when
there are fewer than 5 rows, for the single layout when there are fewer than 3.

Records are Go `map`s, which have no key order, and `encoding/json` writes map keys in sorted order.
The model uses a Dafny `map`.

## Model

| member | source | states |
|---|---|---|
| `Coerce.Atoi` | main.go:182 | A successful parse yields an int64 value. The text is an optional sign followed by at least one decimal digit. A leading '-' gives a value <= 0; otherwise the value is >= 0. |
| `Coerce.AtoiAccepts` | main.go:182 | Conversely, every optional sign followed by one or more digits parses to its decimal value exactly when that value is in the int64 range. |
| `Coerce.AtoiItoa` | main.go:182 | Atoi inverts Itoa on every int64 value (round trip). |
| `Coerce.Conv` | main.go:179-192 | A label other than "int" or "float" (including "string") never fails and returns the text unchanged. "int" succeeds exactly when Atoi does and returns its integer. "float" succeeds exactly when the float parser does. Each failure gives the error kind of its parser. |
| `Coerce.ConvIntRoundTrip` | main.go:181-183 | An "int" cell holding the decimal text of an int64 value converts back to that value. |
| `ListLayout.RecordPrefixOk` | main.go:144-150 | The first n cells of a row convert exactly when each of them converts. |
| `ListLayout.RecordPrefixKeys` | main.go:143-150 | A converted row has exactly the field names as keys. |
| `ListLayout.RecordPrefixValues` | main.go:144-149 | Each field name holds the converted cell of the last column with that name, because later columns overwrite earlier ones. |
| `ListLayout.RecordPrefixFirstFault` | main.go:144-148 | The leftmost failing cell decides the row's error: its column and its conversion error. |
| `ListLayout.RecordPrefixErrStays` | main.go:146-147 | After a cell fails, converting the rest of the row does not change the error (early return). |
| `ListLayout.DataRecordsErrStays` | main.go:139-148 | After a row fails, the rows below it are never examined (early return, no partial list). |
| `ListLayout.DataRecordsOk` | main.go:138-153 | The data rows convert exactly when every row converts. The result then has one record per row, in order, and each record is that row's record. |
| `ListLayout.DataRecordsMisaligned` | main.go:140-141 | The first row with a wrong cell count (shorter or longer) fails with row idx+6 and column len(row)+1. |
| `ListLayout.DataRecordsBadCell` | main.go:144-147 | The first failing cell of the first failing row fails with row idx+6 and column i+1. |
| `ListLayout.HeaderMismatchFirst` | main.go:130-136 | If the field-name and type rows differ in length, the result is the mismatch error. It stays the same whatever the data rows hold. |
| `ListLayout.ListOf` | main.go:125-155 | What `parseArray` returns. A grid with fewer than 5 rows gives `SheetTooShort`. On success the header rows align and there is one record per row from the 6th on. The full properties are in the `ListOf…` lemmas below. |
| `ListLayout.ListOfOk` | main.go:125-155 | On success there is one record per sheet row from the 6th on, in sheet order. Record k has exactly the field names as keys. Each name holds the conversion of its cell in row k+6, taken from the last column with that name. |
| `ListLayout.ListOfDistinctFields` | main.go:144-149 | With distinct field names, record k maps field i to conv(cell i of row k+6, type i). |
| `ListLayout.ListOfOkIff` | main.go:125-155 | The list layout succeeds exactly when the grid has at least 5 rows, the header rows align and every data row converts. |
| `ListLayout.ListOfMisaligned` | main.go:139-141 | On the whole grid: the first data row with a wrong cell count, below rows that convert, gives row idx+6 and column len(row)+1. |
| `ListLayout.ListOfBadCell` | main.go:139-148 | On the whole grid: the first failing cell, scanning rows top-down and cells left to right, gives row idx+6, column i+1 and conv's error. |
| `ListLayout.ParseArray` | main.go:125-155 | The nested loops with early returns compute exactly `ListOf`, the function all the list lemmas are about. |
| `SingleLayout.EntriesErrStays` | main.go:165-173 | After a row fails, the rows below it are never examined (early return). |
| `SingleLayout.EntriesOk` | main.go:164-176 | The entries convert exactly when every row has at least 3 cells and its value converts. |
| `SingleLayout.EntriesKeys` | main.go:164-176 | On success, the record's keys are exactly the column-A texts of the rows. |
| `SingleLayout.EntriesCoverKeys` | main.go:164-176 | On success, every row's column-A text is a key of the record. |
| `SingleLayout.EntriesValues` | main.go:170-174 | On success, each key holds conv(column C, column B) of the last row carrying that key, because later rows overwrite earlier ones. |
| `SingleLayout.EntriesFirstFailure` | main.go:166-173 | The first failing row decides the error. A row with fewer than 3 cells gives the short-row error with row idx+4. Otherwise conv's error is reported with row idx+4. |
| `SingleLayout.ExtraCellsIgnored` | main.go:166-174 | Cells beyond the third do not affect the result. |
| `SingleLayout.SingleOf` | main.go:158-177 | What `parseSingle` returns. A grid with fewer than 3 rows gives `SheetTooShort`. On success every row from the 4th on has at least 3 cells, and its column-A text is a key of the record. The full properties are in the `Entries…` and `SingleOf…` lemmas. |
| `SingleLayout.SingleOfOkIff` | main.go:158-177 | The single layout succeeds exactly when the grid has at least 3 rows and every row from the 4th on converts. |
| `SingleLayout.SingleOfFirstFailure` | main.go:165-173 | On the whole grid, the first failing row from the 4th on gives its error with row number idx+4, and no record is returned. |
| `SingleLayout.ParseSingle` | main.go:158-177 | The row loop with early returns computes exactly `SingleOf`. |
| `Excel.LayoutOf` | main.go:90-96 | "列表" selects the list layout and "单项" the single layout. Every other text is rejected (all three directions as iff). |
| `Excel.ConvertSheet` | main.go:89-100 | The dispatch of `parseExcel`. A B2 text other than the two labels gives the unsupported-layout error. A successful result is a list exactly when B2 is "列表" and a single record exactly when it is "单项". `ConvertSheetDispatch` states the rest. |
| `Excel.UnknownLayoutRejected` | main.go:89-96 | An unknown B2 text gives the unsupported-layout error, whatever the grid holds, even a grid too short to parse. |
| `Excel.ConvertSheetDispatch` | main.go:89-100 | Each label hands the grid to its own parser and passes on that parser's result or error unchanged. |
| `Excel.TrimPrefix` | main.go:104 | If the root is a prefix, the root followed by the result is the input. Otherwise the input is returned unchanged. |
| `Excel.TrimPrefixUnderRoot` | main.go:103-104 | The output fragment `TrimPrefix(absPath, dirParam)` of a directory under the root is the part below the root, and "" for the root itself (round trip). |
| `Walk.Base` | main.go:40 | The base name is non-empty. It is "." for the empty path and has no '/' unless it is "/". |
| `Walk.StripSlashesAppend` | main.go:40 | Stripping trailing slashes removes exactly the slashes appended to a path that does not end in '/'. |
| `Walk.BaseOfName` | main.go:40 | `filepath.Base` of "dir/name", followed by any number of trailing slashes, is name. |
| `Walk.LastElementIsTail` | main.go:40 | The last element is the tail of the path, and the character before it, if any, is '/'. |
| `Walk.LastElementAppend` | main.go:40 | Appending text without '/' to a path extends its last element by that text. |
| `Walk.DotSuffix` | main.go:45 | The extension of a name is either empty or a suffix of the name that starts with '.' and has no later '.'. It is empty only when the name has no '.'. |
| `Walk.DotSuffixOfSuffix` | main.go:45 | A name ending in '.' followed by text without '.' has exactly that ending as its extension. |
| `Walk.Ext` | main.go:45 | `filepath.Ext`: a non-empty extension starts with '.', contains no '/', and is a suffix of the path. It is empty only when the path's last element has no '.'. |
| `Walk.LastElementOfName` | main.go:40 | The last element of "dir/name" is name. |
| `Walk.ExtOfName` | main.go:45 | The extension of "dir/name" is the extension of name. |
| `Walk.ExtOfSuffix` | main.go:45-46 | A name ending in a dot-suffix with no further dot has that suffix as its extension. |
| `Walk.VisitOf` | main.go:33-51 | `walkFunc`'s decision. A directory is always skipped, and a converted path ends in ".xlsx" or ".xls". `VisitOfFile` gives the full iff. |
| `Walk.VisitOfFile` | main.go:33-51 | "dir/name" is converted exactly when it is not a directory, name does not start with "~$", and its extension is ".xlsx" or ".xls". |
| `Walk.LockFileSkipped` | main.go:39-42 | A name starting with "~$" is never converted, whatever its extension. |
| `Walk.SpreadsheetConverted` | main.go:44-48 | A file named stem.xlsx or stem.xls, not starting with "~$", is converted. |
| `Walk.OtherExtensionSkipped` | main.go:44-50 | A file with any other extension, such as ".txt", is skipped. |
| `Examples.CoercionExamples` | main.go:179-192 | "42" and "-7" as "int" give 42 and -7, and "4x" fails. "abc" as "string" or as an unknown label "foo" is returned unchanged. |
| `Examples.ListExample` | main.go:125-155 | Fields id/name of types int/string with row ["1","Alice"] give [{id: 1, name: "Alice"}]. |
| `Examples.SingleExample` | main.go:158-177 | Rows maxHP/int/100 and title/string/Boss give {maxHP: 100, title: "Boss"}. |
| `Examples.LockFileExample` | main.go:39-42 | "cfg/~$report.xlsx" is skipped. |
| `Examples.TextFileExample` | main.go:44-50 | "cfg/notes.txt" is skipped. |
| `Examples.WorkbookExample` | main.go:44-48 | "cfg/report.xlsx" is converted. |

## Left out

- Spreadsheet library calls (`excelize.OpenFile`, `GetCellValue`, `GetRows`, `Close`, main.go:72-87, 126, 159). These are foreign code. Their results (the row grid and the text of B2) are inputs, and their error returns are not modelled. `GetRows` trimming empty trailing cells is the library's business.
- Cell B1 (the output file name, main.go:79) and `filepath.Join` of the output path (main.go:105). Only the directory fragment from `TrimPrefix` is modelled.
- File-system work: `filepath.Walk`, `filepath.Abs`, `os.Getwd`, `os.MkdirAll`, `os.OpenFile`, write and close (main.go:22-26, 103-120). This is I/O. So is the walk's fail-fast behaviour: a non-nil return from `walkFunc` stops the walk. `walkFunc` ignores its `err` argument (main.go:33), and that case is not modelled either.
- `WalkDir` (main.go:54-68): directory I/O that is never called.
- JSON encoding (`json.MarshalIndent`, main.go:118): a library serializer. The model stops at the `Config` value it receives, so key order in the output (the encoder sorts map keys) is not modelled.
- `strconv.ParseFloat` (main.go:185): floating-point parsing. It is a parameter of `Conv`, and the parsed number is an uninterpreted 64-bit pattern about which nothing is proved.
- Flag parsing and the process-wide `dirParam` and `pwd` (main.go:16-23): plumbing. `TrimPrefix` takes the root as a parameter.
- Error wrapping with the file name and printing (main.go:28, 81, 86, 95, 99, 115): formatting only. The model keeps the error kind and the row and column numbers.
- Coerce.Atoi: assumes a 64-bit `int`. It does not tell Go's syntax error from its range error: both are `IntInvalid`.
- Walk.Ext: computed as the dot-suffix of the last path element. Go scans back from the end of the path to the first '.' or '/'; the two give the same result.
- Walk.Base, Walk.Ext and the `~$` check assume '/' as the path separator and a case-sensitive `HasPrefix`, as on Unix. Strings are sequences of characters, not bytes. This makes no difference to these checks, which only look at ASCII characters.
- ListLayout.ParseArray, SingleLayout.ParseSingle: where the Go program panics on a short grid, these return `SheetTooShort` instead.
