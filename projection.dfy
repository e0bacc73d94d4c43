/**
 * Projection of the full row sequence onto the selected columns, as done
 * before export: every row keeps exactly the selected keys, each holding
 * the row's own value for that key, or `undefined` when the row lacks it.
 */
module Projection {
  import opened Cells

  /** `newRow` is `row` restricted to the names in `sel`. */
  ghost predicate RowProjects(row: Row, newRow: Row, sel: seq<string>) {
    && (forall c :: c in newRow <==> c in sel)
    && (forall c :: c in sel ==> newRow[c] == Lookup(row, c))
  }

  /** `out` is `rows`, row for row and in the same order, restricted to `sel`. */
  ghost predicate IsProjection(rows: seq<Row>, out: seq<Row>, sel: seq<string>) {
    && |out| == |rows|
    && (forall i :: 0 <= i < |rows| ==> RowProjects(rows[i], out[i], sel))
  }

  /** The projection of a row is determined by the row and the selection. */
  lemma RowProjectsUnique(row: Row, a: Row, b: Row, sel: seq<string>)
    requires RowProjects(row, a, sel) && RowProjects(row, b, sel)
    ensures a == b
  {
  }

  /** Projecting onto a single column leaves, in each row, that column's entry alone. */
  lemma SingleColumnProjection(rows: seq<Row>, out: seq<Row>, c: string)
    requires IsProjection(rows, out, [c])
    ensures forall i :: 0 <= i < |rows| ==> out[i] == map[c := Lookup(rows[i], c)]
  {
  }

  /** Rows (name: Alice, age: 30) and (name: Bob, age: 25) projected onto "name". */
  lemma NameColumnExample(out: seq<Row>)
    requires IsProjection([map["name" := Text("Alice"), "age" := Number(30)],
                           map["name" := Text("Bob"), "age" := Number(25)]], out, ["name"])
    ensures out == [map["name" := Text("Alice")], map["name" := Text("Bob")]]
  {
    var rows := [map["name" := Text("Alice"), "age" := Number(30)],
                 map["name" := Text("Bob"), "age" := Number(25)]];
    SingleColumnProjection(rows, out, "name");
    assert Lookup(rows[0], "name") == Text("Alice") && Lookup(rows[1], "name") == Text("Bob");
  }

  /** One row: start from an empty row and copy in each selected column's value, in selection order. */
  method ProjectRow(row: Row, sel: seq<string>) returns (newRow: Row)
    ensures RowProjects(row, newRow, sel)
  {
    newRow := map[];
    var k := 0;
    while k < |sel|
      invariant 0 <= k <= |sel|
      invariant forall c :: c in newRow <==> c in sel[..k]
      invariant forall c :: c in sel[..k] ==> newRow[c] == Lookup(row, c)
    {
      assert sel[..k + 1] == sel[..k] + [sel[k]];
      newRow := newRow[sel[k] := Lookup(row, sel[k])];
      k := k + 1;
    }
    assert sel[..k] == sel;
  }

  /** All rows: project each full row in turn, keeping row order. */
  method ProjectRows(rows: seq<Row>, sel: seq<string>) returns (out: seq<Row>)
    ensures IsProjection(rows, out, sel)
  {
    out := [];
    var i := 0;
    while i < |rows|
      invariant 0 <= i <= |rows|
      invariant |out| == i
      invariant forall j :: 0 <= j < i ==> RowProjects(rows[j], out[j], sel)
    {
      var newRow := ProjectRow(rows[i], sel);
      out := out + [newRow];
      i := i + 1;
    }
  }
}
