/**
 * The upload component's state and its event handlers: picking a file,
 * the decoder's result, toggling a column, choosing the export format and
 * downloading the projected rows.
 */
module FileUpload {
  import opened Options
  import opened Cells
  import opened ColumnLabels
  import opened Headers
  import opened Selection
  import opened Projection
  import opened FileNames

  const ExtensionMessage := "Please select an Excel (.xlsx) or CSV (.csv) file"
  const ParseMessage := "Error reading file. Please make sure it's a valid Excel/CSV file."
  const ReadMessage := "Error reading file. Please try again."
  const NoColumnsMessage := "Please select at least one column to download"
  const ExportMessage := "Error generating download file. Please try again."

  /** Number of rows the preview shows. */
  const PreviewRows := 5

  /**
   * What the load handler gets from the reader and the spreadsheet library:
   * no result at all, the decoded first sheet (its cells, its used-range
   * reference if any, and the row records read from it), or an exception.
   */
  datatype LoadOutcome =
    | NoResult
    | Parsed(sheet: Sheet, ref: Option<Range>, rows: seq<Row>)
    | Threw

  /** What a successful download hands to the serialiser: file name, format and rows. */
  datatype Export = Export(name: string, format: Format, rows: seq<Row>)

  /** The preview: the first five rows, or all of them when there are fewer. */
  function Preview(rows: seq<Row>): (p: seq<Row>)
    ensures |p| == (if |rows| < PreviewRows then |rows| else PreviewRows)
    ensures forall i :: 0 <= i < |p| ==> p[i] == rows[i]
  {
    if |rows| < PreviewRows then rows else rows[..PreviewRows]
  }

  class AppState {
    var file: Option<string>
    var fullData: seq<Row>
    var data: seq<Row>
    var columns: seq<string>
    var selected: seq<string>
    var error: string
    var format: Format

    /**
     * A kept file name always passed the extension gate, the preview is
     * always the head of the full data, no column is selected twice, and
     * only listed columns are selected.
     */
    ghost predicate Valid()
      reads this`selected, this`fullData, this`data, this`columns, this`file
    {
      && (file.Some? ==> ExtOk(file.value))
      && NoDup(selected)
      && data == Preview(fullData)
      && (forall c :: c in selected ==> c in columns)
    }

    /** The state before any file is picked. */
    constructor ()
      ensures Valid()
      ensures file == None && fullData == [] && data == [] && columns == [] && selected == []
      ensures error == "" && format == Xlsx
    {
      file := None;
      fullData := [];
      data := [];
      columns := [];
      selected := [];
      error := "";
      format := Xlsx;
    }

    /**
     * A file-input change: the error is cleared; a picked file whose name
     * fails the extension gate sets the error and forgets the file, any
     * other picked file is kept and its read begins (`startRead`). The
     * dataset and the selection are not touched.
     */
    method FileChange(picked: Option<string>) returns (startRead: bool)
      requires Valid()
      modifies this`file, this`error
      ensures Valid()
      ensures startRead <==> picked.Some? && ExtOk(picked.value)
      ensures picked.None? ==> error == "" && file == old(file)
      ensures picked.Some? && !ExtOk(picked.value) ==> error == ExtensionMessage && file == None
      ensures picked.Some? && ExtOk(picked.value) ==> error == "" && file == picked
    {
      error := "";
      startRead := false;
      if picked.Some? {
        if !ExtOk(picked.value) {
          error := ExtensionMessage;
          file := None;
          return;
        }
        file := picked;
        startRead := true;
      }
    }

    /**
     * The decoder succeeded: the dataset is replaced as a whole. The full
     * rows are the parsed rows, the preview their first five, the columns
     * the header names of the used range's first row, and the selection
     * is emptied. The error message is left as it was.
     */
    method DecodeSuccess(sheet: Sheet, ref: Option<Range>, rows: seq<Row>)
      requires Valid()
      modifies this`fullData, this`data, this`columns, this`selected
      ensures Valid()
      ensures fullData == rows && data == Preview(rows) && selected == []
      ensures |columns| == Span(UsedRange(ref))
      ensures forall i :: 0 <= i < |columns| ==>
                columns[i] == HeaderName(sheet, UsedRange(ref).sr, UsedRange(ref).sc + i)
      ensures ref.None? ==> |columns| == 1 && columns[0] == HeaderName(sheet, 0, 0)
    {
      var cols := ExtractHeaders(sheet, UsedRange(ref));
      fullData := rows;
      data := Preview(rows);
      columns := cols;
      selected := [];
    }

    /** The decoder threw: only the error is set. */
    method DecodeFail()
      modifies this`error
      ensures error == ParseMessage
    {
      error := ParseMessage;
    }

    /** The reader itself failed: only the error is set. */
    method ReadFail()
      modifies this`error
      ensures error == ReadMessage
    {
      error := ReadMessage;
    }

    /**
     * The load handler: no result changes nothing, an exception only sets
     * the error, a decoded sheet replaces the dataset.
     */
    method OnLoad(outcome: LoadOutcome)
      requires Valid()
      modifies this`fullData, this`data, this`columns, this`selected, this`error
      ensures Valid()
      ensures outcome.NoResult? ==>
                fullData == old(fullData) && data == old(data) && columns == old(columns)
                && selected == old(selected) && error == old(error)
      ensures outcome.Threw? ==>
                fullData == old(fullData) && data == old(data) && columns == old(columns)
                && selected == old(selected) && error == ParseMessage
      ensures outcome.Parsed? ==>
                && fullData == outcome.rows && data == Preview(outcome.rows) && selected == []
                && error == old(error)
                && |columns| == Span(UsedRange(outcome.ref))
                && (forall i :: 0 <= i < |columns| ==>
                      columns[i] == HeaderName(outcome.sheet, UsedRange(outcome.ref).sr, UsedRange(outcome.ref).sc + i))
                && (outcome.ref.None? ==> |columns| == 1 && columns[0] == HeaderName(outcome.sheet, 0, 0))
    {
      match outcome
      case NoResult =>
      case Threw =>
        DecodeFail();
      case Parsed(sheet, ref, rows) =>
        DecodeSuccess(sheet, ref, rows);
    }

    /**
     * A checkbox change: the column leaves the selection if present, else
     * joins it at the end. Checkboxes exist only for listed columns.
     */
    method Toggle(col: string)
      requires Valid()
      requires col in columns
      modifies this`selected
      ensures Valid()
      ensures selected == Toggled(old(selected), col)
    {
      ToggleNoDup(selected, col);
      ToggleWithin(selected, col, columns);
      selected := Toggled(selected, col);
    }

    /** The format selector. */
    method SetFormat(f: Format)
      modifies this`format
      ensures format == f
    {
      format := f;
    }

    /**
     * The download button. With nothing selected only the error is set and
     * nothing is exported. Otherwise every full row (not the preview) is
     * projected onto the selection and handed to the serialiser under the
     * output name; `exportOk` says whether the serialiser succeeded, which
     * clears the error, or threw, which sets it.
     */
    method Download(exportOk: bool) returns (out: Option<Export>)
      requires Valid()
      modifies this`error
      ensures selected == [] ==> out == None && error == NoColumnsMessage
      ensures selected != [] && !exportOk ==> out == None && error == ExportMessage
      ensures selected != [] && exportOk ==>
                && out.Some? && error == ""
                && out.value.name == OutputName(file, format)
                && out.value.format == format
                && IsProjection(fullData, out.value.rows, selected)
      ensures selected != [] && exportOk && file.None? ==>
                out.Some? && out.value.name == "filtered_data" + Suffix(format)
      ensures selected != [] && exportOk && file.Some? ==>
                out.Some? && out.value.name == "filtered_" + Stem(file.value) + Suffix(format)
    {
      if |selected| == 0 {
        error := NoColumnsMessage;
        return None;
      }
      var rows := ProjectRows(fullData, selected);
      var name := BaseFilename(file) + Suffix(format);
      if file.Some? {
        StemBaseFilename(file.value);
      }
      if !exportOk {
        error := ExportMessage;
        return None;
      }
      out := Some(Export(name, format, rows));
      error := "";
    }
  }

  /** Picking `<stem>.csv` starts its read, and its export is based on `filtered_<stem>`. */
  method PickCsvFile(stem: string)
  {
    var app := new AppState();
    AcceptedBaseFilename(stem, ".csv");
    var start := app.FileChange(Some(stem + ".csv"));
    assert start && app.error == "";
    assert BaseFilename(app.file) == "filtered_" + stem;
  }

  /**
   * A session: load a sheet whose header row is "name,age" and which has
   * two data rows, select "name" and download as CSV.
   */
  method NameColumnAsCsv()
  {
    var app := new AppState();
    var sheet: Sheet := map[(0, 0) := Text("name"), (0, 1) := Text("age")];
    var rows := [map["name" := Text("Alice"), "age" := Number(30)],
                 map["name" := Text("Bob"), "age" := Number(25)]];
    app.OnLoad(Parsed(sheet, Some(Range(0, 0, 2, 1)), rows));
    assert CellAt(sheet, 0, 0) == Text("name");
    assert |app.columns| == 2 && app.columns[0] == HeaderName(sheet, 0, 0) == "name";
    app.Toggle("name");
    app.SetFormat(Csv);
    assert app.selected == ["name"] && app.fullData == rows;
    var out := app.Download(true);
    assert out.Some? && out.value.format == Csv && app.error == "";
    NameColumnExample(out.value.rows);
  }

  /** A blank second header cell of three is named by its column label. */
  method BlankHeaderGetsLabel()
  {
    var app := new AppState();
    var sheet: Sheet := map[(0, 0) := Text("id"), (0, 1) := Text(""), (0, 2) := Text("city")];
    app.OnLoad(Parsed(sheet, Some(Range(0, 0, 0, 2)), []));
    ColLabelExamples();
    assert app.columns == ["id", "B", "city"];
  }
}
