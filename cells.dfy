/**
 * Cell values and rows as the component sees them after the spreadsheet
 * library has decoded a file.
 */
module Cells {

  /** A cell value: text, a number, a boolean, or nothing at all (`undefined`). */
  datatype Cell = Absent | Text(s: string) | Number(n: int) | Bool(b: bool)

  /** A row record: column name to cell value. A key that is not in the map reads as `undefined`. */
  type Row = map<string, Cell>

  /** JavaScript truthiness of a cell value: `undefined`, `""`, `0` and `false` are falsy. */
  predicate Truthy(v: Cell) {
    match v
    case Absent => false
    case Text(s) => s != ""
    case Number(n) => n != 0
    case Bool(b) => b
  }

  predicate IsDigit(ch: char) {
    '0' <= ch <= '9'
  }

  /** Decimal digits of a natural number, most significant first. */
  function Digits(n: nat): (r: string)
    ensures |r| >= 1
    ensures forall i :: 0 <= i < |r| ==> IsDigit(r[i])
    ensures n >= 10 <==> |r| > 1
  {
    if n < 10 then [(n + 48) as char] else Digits(n / 10) + [(n % 10 + 48) as char]
  }

  /**
   * The string a cell value becomes when it is used as a property key
   * (`String(v)` in JavaScript, restricted to the values modelled here).
   */
  function Key(v: Cell): string {
    match v
    case Absent => "undefined"
    case Text(s) => s
    case Number(n) => if n < 0 then "-" + Digits(-n) else Digits(n)
    case Bool(b) => if b then "true" else "false"
  }

  /** A truthy value never becomes the empty key. */
  lemma TruthyKeyNonEmpty(v: Cell)
    requires Truthy(v)
    ensures Key(v) != ""
  {
  }

  /** Reading one column of a row: the stored value, or `undefined` when the row lacks the key. */
  function Lookup(row: Row, col: string): Cell
  {
    if col in row then row[col] else Absent
  }
}
