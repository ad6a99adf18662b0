/**
 * `createTableRow`: one summary-table row of text cells. The function is known
 * from its tests only; the row shape below is the one they fix.
 */
module TableRows {
  import opened Wrappers
  import opened AdaptiveCard

  /** The optional row settings: a style for the first cell, and subtle/weight for every text. */
  datatype RowOptions = RowOptions(style: Option<string>, isSubtle: Option<bool>, weight: Option<string>)

  const DefaultRowOptions := RowOptions(None, None, None)

  /** The text of the first block of cell `i`, or `Undefined` when there is none. */
  function CellText(row: TableRow, i: nat): Value {
    if i < |row.cells| && |row.cells[i].items| > 0 then row.cells[i].items[0].text else Undefined
  }

  /** The texts of all cells of a row, in cell order. */
  function CellTexts(row: TableRow): (texts: seq<Value>)
    ensures |texts| == |row.cells|
  {
    seq(|row.cells|, i requires 0 <= i < |row.cells| => CellText(row, i))
  }

  /** The label of a row: the text of its first cell. */
  function RowLabel(row: TableRow): Value {
    CellText(row, 0)
  }

  /** The value of a row: the text of its second cell. */
  function RowValue(row: TableRow): Value {
    CellText(row, 1)
  }

  /** The style of a row: the style of its first cell. */
  function RowStyle(row: TableRow): Option<string> {
    if |row.cells| > 0 then row.cells[0].style else None
  }

  /**
   * What a reader of a table finds under a label: the value of the first row
   * carrying that label, or nothing when no row does.
   */
  function Lookup(rows: seq<TableRow>, wanted: Value): (v: Option<Value>)
    ensures v.None? <==> forall i :: 0 <= i < |rows| ==> RowLabel(rows[i]) != wanted
    ensures v.Some? ==> exists i :: 0 <= i < |rows| && RowLabel(rows[i]) == wanted && RowValue(rows[i]) == v.value
                                 && (forall j :: 0 <= j < i ==> RowLabel(rows[j]) != wanted)
  {
    if rows == [] then None
    else if RowLabel(rows[0]) == wanted then Some(RowValue(rows[0]))
    else
      var v := Lookup(rows[1..], wanted);
      assert forall i :: 1 <= i < |rows| ==> rows[i] == rows[1..][i - 1];
      v
  }

  /** The row at `i` is the first one carrying its label, so a lookup of that label finds its value. */
  lemma LookupFirst(rows: seq<TableRow>, i: nat)
    requires i < |rows|
    requires forall j :: 0 <= j < i ==> RowLabel(rows[j]) != RowLabel(rows[i])
    ensures Lookup(rows, RowLabel(rows[i])) == Some(RowValue(rows[i]))
  {
    var v := Lookup(rows, RowLabel(rows[i]));
    var k :| 0 <= k < |rows| && RowLabel(rows[k]) == RowLabel(rows[i]) && RowValue(rows[k]) == v.value
             && (forall j :: 0 <= j < k ==> RowLabel(rows[j]) != RowLabel(rows[i]));
    assert k == i;
  }

  /** One cell: a single wrapping text block carrying the row's subtle/weight settings. */
  function Cell(text: Value, options: RowOptions, style: Option<string>): TableCell {
    TableCell([TextBlock(text, None, options.weight, None, None, Some(true), options.isSubtle)], style)
  }

  /**
   * A row of the type cell, the total cell and, when given, the percentage cell.
   * The texts read back in argument order; every cell holds exactly one wrapping
   * block with the requested subtle/weight settings; the style lands on the first cell.
   */
  function CreateTableRow(name: Value, total: Value, percentage: Option<Value>, options: RowOptions): (r: TableRow)
    ensures |r.cells| == if percentage.Some? then 3 else 2
    ensures CellTexts(r) == [name, total] + (if percentage.Some? then [percentage.value] else [])
    ensures RowLabel(r) == name && RowValue(r) == total
    ensures RowStyle(r) == options.style
    ensures forall i :: 0 <= i < |r.cells| ==>
      && |r.cells[i].items| == 1
      && r.cells[i].items[0].wrap == Some(true)
      && r.cells[i].items[0].isSubtle == options.isSubtle
      && r.cells[i].items[0].weight == options.weight
      && r.cells[i].items[0].size.None?
      && r.cells[i].items[0].color.None?
  {
    var head := [Cell(name, options, options.style), Cell(total, options, None)];
    var cells := if percentage.Some? then head + [Cell(percentage.value, options, None)] else head;
    var r := TableRow(cells);
    assert CellTexts(r) == [name, total] + (if percentage.Some? then [percentage.value] else []);
    r
  }

  /**
   * With default settings a three-argument row is exactly three "TableCell"s, each
   * one wrapping "TextBlock" with the argument's text and no other property.
   */
  lemma DefaultRowShape(name: string, total: string, percentage: string)
    ensures CreateTableRow(Str(name), Str(total), Some(Str(percentage)), DefaultRowOptions)
         == TableRow([
              TableCell([TextBlock(Str(name), None, None, None, None, Some(true), None)], None),
              TableCell([TextBlock(Str(total), None, None, None, None, Some(true), None)], None),
              TableCell([TextBlock(Str(percentage), None, None, None, None, Some(true), None)], None)])
  {
  }
}
