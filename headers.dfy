/**
 * Header derivation: the column list is read from the first row of the
 * sheet's used range, one entry per column of the range, whether or not
 * any data row has a value in that column.
 */
module Headers {
  import opened Options
  import opened Cells
  import opened ColumnLabels

  /** The decoded sheet's cells, addressed by (zero-based row, zero-based column). */
  type Sheet = map<(nat, nat), Cell>

  /** The sheet's used range: start row and column, end row and column (all inclusive). */
  datatype Range = Range(sr: nat, sc: nat, er: nat, ec: nat)

  /** The range the reference "A1:A1" decodes to: the single cell at row 0, column 0. */
  const SingleCell := Range(0, 0, 0, 0)

  /** The range used when the sheet carries no reference of its own falls back to "A1:A1". */
  function UsedRange(ref: Option<Range>): Range
  {
    match ref
    case Some(r) => r
    case None => SingleCell
  }

  /** Number of columns the range spans; an inverted range spans none. */
  function Span(r: Range): nat {
    if r.sc <= r.ec then r.ec - r.sc + 1 else 0
  }

  /** The value of the cell at (row, col), `undefined` when the cell does not exist. */
  function CellAt(sheet: Sheet, row: nat, col: nat): Cell {
    if (row, col) in sheet then sheet[(row, col)] else Absent
  }

  /** The header name of one column: the header cell's value when it is truthy, otherwise the column's label. */
  function HeaderName(sheet: Sheet, row: nat, col: nat): (name: string)
    ensures name != ""
  {
    var v := CellAt(sheet, row, col);
    if Truthy(v) then
      TruthyKeyNonEmpty(v);
      Key(v)
    else
      ColLabel(col)
  }

  /** Two blank header cells in different columns get different fallback names. */
  lemma FallbackNamesDistinct(sheet: Sheet, row: nat, c1: nat, c2: nat)
    requires c1 != c2
    requires !Truthy(CellAt(sheet, row, c1)) && !Truthy(CellAt(sheet, row, c2))
    ensures HeaderName(sheet, row, c1) != HeaderName(sheet, row, c2)
  {
    ColLabelInjective(c1, c2);
  }

  /**
   * The header loop: for every column of the range, left to right, push
   * the header name read from the range's first row.
   */
  method ExtractHeaders(sheet: Sheet, range: Range) returns (cols: seq<string>)
    ensures |cols| == Span(range)
    ensures forall i :: 0 <= i < |cols| ==> cols[i] == HeaderName(sheet, range.sr, range.sc + i)
    ensures forall i :: 0 <= i < |cols| && Truthy(CellAt(sheet, range.sr, range.sc + i)) ==>
              cols[i] == Key(CellAt(sheet, range.sr, range.sc + i))
    ensures forall i :: 0 <= i < |cols| && !Truthy(CellAt(sheet, range.sr, range.sc + i)) ==>
              cols[i] == ColLabel(range.sc + i)
    ensures forall i :: 0 <= i < |cols| ==> cols[i] != ""
  {
    cols := [];
    var c := range.sc;
    while c <= range.ec
      invariant range.sc <= c
      invariant c - range.sc <= Span(range)
      invariant |cols| == c - range.sc
      invariant forall i :: 0 <= i < |cols| ==> cols[i] == HeaderName(sheet, range.sr, range.sc + i)
      decreases range.ec + 1 - c
    {
      cols := cols + [HeaderName(sheet, range.sr, c)];
      c := c + 1;
    }
  }
}
