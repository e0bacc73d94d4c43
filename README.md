# Excel column extractor: a Dafny model of the upload component

The modelled system is a single React component (`src/components/FileUpload.tsx`). It lets a user pick an `.xlsx` or `.csv` file. The spreadsheet library turns the file's first sheet into rows, and the component takes the column list from the header row of the sheet's used range. The user then ticks columns, picks a format and downloads the full rows restricted to the ticked columns, under the name `filtered_<base>.<ext>`.

The model keeps the component's structure:

- `FileUpload.AppState` is a class. Its fields are the component's state: `file` (the picked file's name), `fullData`, `data` (the preview), `columns`, `selected`, `error` and `format`. Each event handler is a method with a `modifies` frame that names exactly the fields the handler sets. `Valid()` is the invariant every handler keeps: a kept file name passed the extension gate, the preview is the first five full rows, no column is selected twice, and only listed columns are selected. It reads only `file`, `selected`, `fullData`, `data` and `columns`, so a handler that does not touch those keeps it by its frame alone.
- The spreadsheet library's results are inputs. `LoadOutcome` is what the load handler receives: no result, a decoded sheet (its cells, its used-range reference, its row records), or an exception. The serialiser's success or failure is the `exportOk` argument of `Download`.
- The extension gate, header derivation, column labels, selection toggle, projection and output file name each live in their own module. Each comes with lemmas relating it to an independent description: the regular expression's meaning, a label decoder, a filter, or a per-row restriction predicate.

Modules: `Options`, `Cells` (cell values, JavaScript truthiness, property keys, `row[col]`), `ColumnLabels`, `Headers`, `Selection`, `Projection`, `FileNames`, `FileUpload`. Three sessions are written as client code: `FileUpload.PickCsvFile`, `FileUpload.NameColumnAsCsv` and `FileUpload.BlankHeaderGetsLabel`. They check that the handlers' contracts are strong enough to derive the expected outcome:

- picking `<stem>.csv` starts the read, and the export is named after `filtered_<stem>`;
- loading "name,age" with rows Alice/30 and Bob/25, selecting `name` and downloading CSV exports just the `name` values;
- a blank second header cell is named `B`.

Three behaviours of the code worth stating:

- The extension check is case-sensitive (`/\.(xlsx|csv)$/` has no `i` flag), so `DATA.XLSX` is refused (`FileNames.ExtOkCaseSensitive`). The file input's `accept=".xlsx,.csv"` list (line 157) does not decide what is accepted; the handler's regular expression does.
- A rejected file clears `file` but keeps the dataset. A later download of that dataset is therefore named `filtered_data.<ext>`.
- `error` is not cleared by a successful decode. It was already cleared when the file was picked.

## Model

| member | source | states |
|---|---|---|
| `FileNames.ExtOkIff` | src/components/FileUpload.tsx:21 | a name passes the gate iff it is some stem followed by exactly ".xlsx" or ".csv" (both directions) |
| `FileNames.ExtOkCaseSensitive` | src/components/FileUpload.tsx:21 | the gate is case-sensitive and anchored at the end: "DATA.XLSX", "data.Csv" and "data.xlsx.bak" are refused |
| `FileUpload.AppState.FileChange` | src/components/FileUpload.tsx:15-30 | the error is cleared first; no picked file changes nothing else; a name that fails the gate sets the extension error, clears `file` and starts no read; an accepted name is stored and its read starts; only `file` and `error` can change, so the dataset and selection are kept; the invariant holds, so a kept name always passed the gate |
| `ColumnLabels.ColLabel` | src/components/FileUpload.tsx:51 | the fallback column label is non-empty and made only of the letters A-Z, and is a single letter exactly for indices below 26 |
| `ColumnLabels.LabelValueOfColLabel` | src/components/FileUpload.tsx:51 | decoding a column's label as bijective base 26 gives back the column index |
| `ColumnLabels.ColLabelOfLabelValue` | src/components/FileUpload.tsx:51 | every non-empty A-Z string is the label of exactly the index it denotes (labels are onto) |
| `ColumnLabels.ColLabelInjective` | src/components/FileUpload.tsx:51 | distinct column indices get distinct labels |
| `ColumnLabels.ColLabelExamples` | src/components/FileUpload.tsx:51 | 0 is "A", 25 is "Z", 26 is "AA", 701 is "ZZ", 702 is "AAA" |
| `Cells.TruthyKeyNonEmpty` | src/components/FileUpload.tsx:51 | a truthy header value never yields an empty column name |
| `Cells.Digits` | src/components/FileUpload.tsx:90 | a number used as a column name becomes, where it is used as a row key, a string of one digit or more, and of one digit exactly for values below ten |
| `Headers.HeaderName` | src/components/FileUpload.tsx:50-51 | a column's header name is never empty |
| `Headers.FallbackNamesDistinct` | src/components/FileUpload.tsx:51 | two blank header cells in different columns get different names |
| `Headers.ExtractHeaders` | src/components/FileUpload.tsx:45-52 | the header list has `e.c - s.c + 1` entries (none for an inverted range), left to right: entry i is the key of the first-row cell in column `s.c + i` when that value is truthy, otherwise that column's label; no entry is empty |
| `FileUpload.Preview` | src/components/FileUpload.tsx:58 | the preview holds `min(5, n)` rows and they are the first rows of the full data, in order |
| `FileUpload.AppState.DecodeSuccess` | src/components/FileUpload.tsx:57-60 | the full data becomes the parsed rows, the preview its first five rows, the columns the derived header list, the selection empty; a sheet without a range reference gives the one column named from cell A1; the error is untouched; the invariant holds |
| `FileUpload.AppState.DecodeFail` | src/components/FileUpload.tsx:62-64 | a decode that throws sets only the error; the dataset, columns and selection are unchanged |
| `FileUpload.AppState.ReadFail` | src/components/FileUpload.tsx:68-70 | a failed read sets only the read error |
| `FileUpload.AppState.OnLoad` | src/components/FileUpload.tsx:35-66 | an empty read result changes no state at all; an exception sets only the parse error; a decoded sheet replaces the dataset as a whole and empties the selection, and without a range reference its one column is named from cell A1 |
| `FileUpload.AppState.constructor` | src/components/FileUpload.tsx:7-13 | the initial state: no file, no rows, no columns, no selection, no error, workbook format |
| `Selection.Without` | src/components/FileUpload.tsx:75 | the filter keeps exactly the other names and never lengthens the list |
| `Selection.WithoutAt` | src/components/FileUpload.tsx:75 | in a list without duplicates, removing a name deletes exactly its position and keeps the rest in order |
| `Selection.ToggleEffect` | src/components/FileUpload.tsx:73-76 | toggling an absent name appends it at the end; toggling a present name removes it, keeping the others in order; no other name's membership changes |
| `Selection.ToggleNoDup` | src/components/FileUpload.tsx:73-76 | toggling keeps the selection free of duplicates |
| `Selection.ToggleTwiceAbsent` | src/components/FileUpload.tsx:73-76 | toggling an absent name twice restores the selection exactly |
| `Selection.ToggleTwicePresent` | src/components/FileUpload.tsx:73-76 | toggling a present name twice restores the same set, with that name moved to the end |
| `Selection.ToggleWithin` | src/components/FileUpload.tsx:225-237 | toggling a listed column keeps a selection within the column list; `AppState.Toggle` uses it to keep `Valid()` |
| `FileUpload.AppState.Toggle` | src/components/FileUpload.tsx:73-77 | for a listed column (checkboxes exist only for those, line 237), the new selection is the toggled old one, and the invariant holds: no duplicates, only listed columns |
| `FileUpload.AppState.SetFormat` | src/components/FileUpload.tsx:206 | the format selector sets only the format |
| `Projection.ProjectRow` | src/components/FileUpload.tsx:88-92 | the new row has exactly the selected keys, each holding the original row's value or `undefined` |
| `Projection.ProjectRows` | src/components/FileUpload.tsx:87-93 | the projection has one row per full row, in the same order, each the restriction of its original |
| `Projection.RowProjectsUnique` | src/components/FileUpload.tsx:87-93 | the per-row restriction is determined by the row and the selection |
| `Projection.SingleColumnProjection` | src/components/FileUpload.tsx:87-93 | projecting onto one column leaves each row with that column's entry alone |
| `Projection.NameColumnExample` | src/components/FileUpload.tsx:87-93 | rows (Alice, 30) and (Bob, 25) projected onto "name" are exactly the rows holding "Alice" and "Bob" |
| `FileNames.StripLastExt` | src/components/FileUpload.tsx:102 | where `/\.[^/.]+$/` matches at position i, the result is the name cut at i; where it matches nowhere, the name is unchanged |
| `FileNames.StripLastExtExamples` | src/components/FileUpload.tsx:102 | only the last extension goes: "report.tar.csv" becomes "report.tar"; "report" and "report." stay |
| `FileNames.StemBaseFilename` | src/components/FileUpload.tsx:101-103 | an accepted name is its stem followed by ".xlsx" or ".csv", and its export base is "filtered_" plus that stem |
| `FileNames.AcceptedBaseFilename` | src/components/FileUpload.tsx:101-103 | every name the gate accepts loses exactly its ".xlsx" or ".csv" in the output base |
| `FileNames.OutputName` | src/components/FileUpload.tsx:101-117 | the output name starts with "filtered_"; it ends in ".csv" exactly when the format is CSV, and in ".xlsx" exactly when it is the workbook format |
| `FileNames.OutputNameExample` | src/components/FileUpload.tsx:101-111 | "people.csv" passes the gate, and its CSV export is named "filtered_people.csv" |
| `FileUpload.AppState.Download` | src/components/FileUpload.tsx:79-125 | an empty selection sets the no-columns error and exports nothing; otherwise the full rows, projected onto the selection in order, are exported in the chosen format under `filtered_<stem>` plus the format's extension (the stem being the kept name without its ".xlsx" or ".csv") or, with no file kept, `filtered_data` plus that extension, and the error is cleared, or set to the export error when the serialiser throws; only `error` can change |

## Left out

- `XLSX.read`, `sheet_to_json`, `decode_range`, `json_to_sheet`, `sheet_to_csv`, `book_new`, `book_append_sheet` and `writeFile` are library code that is not part of this model. Their results are inputs: the decoded cells, range and rows, and the `exportOk` flag. The model therefore states nothing about workbook or CSV contents, quoting, or a decode/encode round trip. It also does not relate the header list to the keys of the parsed rows: the component computes them independently.
- The asynchronous `FileReader` (lines 33-35) is I/O, and so are the Blob, object URL and link click of the CSV download (lines 108-114). `FileChange` only reports that a read starts. Which load result arrives, and when, is the argument of `OnLoad`. The model does not order overlapping reads.
- The JSX rendering (lines 135-279) is left out. This includes the preview table, the disabled state of the download button, `handleUploadClick` and the `stopPropagation` calls. `console.error` logging is left out as well.
- The file-size display (line 184) is floating-point formatting.
- `src/app/page.tsx` only mounts the component.
- Cell values are text, integers, booleans or `undefined`. Fractional numbers, `NaN`, dates and error cells are not modelled.
- Rows are maps, so the insertion order of a row's keys is not modelled. The order decides the header order `json_to_sheet` writes.
- `Headers.HeaderName`: a truthy number or boolean header value is modelled as its property-key string (`Cells.Key`). The source pushes the raw value into the column list. The two agree wherever the value is used as a row key. They differ only if one header holds the number 42 and another holds the text "42".
- `Cells.Lookup`: inherited property names are not modelled. Rows are plain objects, so for a name the row lacks but `Object.prototype` has (`constructor`, `toString`, `valueOf`, `hasOwnProperty`, ...), line 90 copies the inherited function rather than `undefined`. Assigning to `__proto__` creates no key at all. The model treats every name as an ordinary key.
- `Cells.Key`: number headers are assumed to be integers below 10^21 in magnitude. `Number(n)` is an unbounded integer, while a JavaScript number is a double: from 10^21 up `String` gives exponent notation (`"1e+21"`), and integers above 2^53 are not exact.
- `Cells.Digits`: states the shape of the decimal rendering (digits only, length above one exactly from ten upward), not its numeric value.
