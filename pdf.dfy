/**
 * The table layout of the two PDF reports (`/download-pdf` and `/download-e-pdf`): a header
 * row at the current position, then one row per result 20 points lower each time, cell `i` of
 * a row placed at the sum of the widths of the columns before it. Only the coordinates are
 * modelled; fonts and rendering belong to PDFKit.
 */
module PdfLayout {
  import opened Store

  /** A `doc.text(text, x, y, { width })` call. */
  datatype Cell = Cell(text: string, x: int, y: int, width: nat)

  /** How far `y` advances after each row. */
  const RowHeight: int := 20

  /** `columnWidths`, the same in both reports. */
  const ColumnWidths: seq<nat> := [50, 100, 100, 50, 50, 50, 150]

  const PatientHeaders: seq<string> :=
    ["ID", "Nombre", "Apellido", "Edad", "Peso", "Altura", "Frecuencia Cardiaca"]
  const EquipmentHeaders: seq<string> :=
    ["ID", "Nombre", "Estado", "Descripcion", "Ultimo Mantenmiento"]

  /** `reduce((a, b) => a + b, 0)`. */
  function Sum(s: seq<nat>): nat
  {
    if s == [] then 0 else s[0] + Sum(s[1..])
  }

  lemma {:induction false} SumSnoc(s: seq<nat>, w: nat)
    ensures Sum(s + [w]) == Sum(s) + w
  {
    if s == [] {
      assert [] + [w] == [w];
      assert [w][1..] == [];
    } else {
      assert (s + [w])[1..] == s[1..] + [w];
      SumSnoc(s[1..], w);
    }
  }

  /** `columnWidths.slice(0, i).reduce(...)`: the x position of column `i`. */
  function Offset(widths: seq<nat>, i: nat): nat
    requires i <= |widths|
  {
    Sum(widths[..i])
  }

  /** Each column starts where the one before it ends. */
  lemma OffsetStep(widths: seq<nat>, i: nat)
    requires i < |widths|
    ensures Offset(widths, i + 1) == Offset(widths, i) + widths[i]
  {
    assert widths[..i + 1] == widths[..i] + [widths[i]];
    SumSnoc(widths[..i], widths[i]);
  }

  /** The x positions of the seven columns and the right edge of the table. */
  lemma ColumnOffsets()
    ensures Offset(ColumnWidths, 0) == 0 && Offset(ColumnWidths, 1) == 50
    ensures Offset(ColumnWidths, 2) == 150 && Offset(ColumnWidths, 3) == 250
    ensures Offset(ColumnWidths, 4) == 300 && Offset(ColumnWidths, 5) == 350
    ensures Offset(ColumnWidths, 6) == 400 && Offset(ColumnWidths, 7) == 550
  {
    assert ColumnWidths[..0] == [];
    OffsetStep(ColumnWidths, 0);
    OffsetStep(ColumnWidths, 1);
    OffsetStep(ColumnWidths, 2);
    OffsetStep(ColumnWidths, 3);
    OffsetStep(ColumnWidths, 4);
    OffsetStep(ColumnWidths, 5);
    OffsetStep(ColumnWidths, 6);
  }

  /** The cells of one row of texts placed at height `y`. */
  function Cells(texts: seq<string>, widths: seq<nat>, y: int): (cells: seq<Cell>)
    requires |texts| <= |widths|
    ensures |cells| == |texts|
    ensures forall i :: 0 <= i < |cells| ==> cells[i].y == y && cells[i].text == texts[i]
    ensures forall i :: 0 <= i && i + 1 < |cells| ==> cells[i].x + cells[i].width == cells[i + 1].x
  {
    var cells := seq(|texts|, i requires 0 <= i < |texts| =>
                       Cell(texts[i], Offset(widths, i), y, widths[i]));
    assert forall i :: 0 <= i && i + 1 < |cells| ==> cells[i].x + cells[i].width == cells[i + 1].x by {
      forall i | 0 <= i && i + 1 < |cells|
        ensures cells[i].x + cells[i].width == cells[i + 1].x
      {
        OffsetStep(widths, i);
      }
    }
    cells
  }

  /** Cell `i` of a row starts at the sum of the widths before column `i` and is that column wide. */
  lemma CellsAtOffsets(texts: seq<string>, widths: seq<nat>, y: int)
    requires |texts| <= |widths|
    ensures forall i :: 0 <= i < |texts| ==>
              Cells(texts, widths, y)[i].x == Offset(widths, i) && Cells(texts, widths, y)[i].width == widths[i]
  {
  }

  lemma CellsSnoc(texts: seq<string>, t: string, widths: seq<nat>, y: int)
    requires |texts| < |widths|
    ensures Cells(texts + [t], widths, y) == Cells(texts, widths, y) + [Cell(t, Offset(widths, |texts|), y, widths[|texts|])]
  {
  }

  /** The text a result cell prints: `cell.toString()`; a NULL cell has none (the call throws). */
  function TextOf(v: Value): string
  {
    match v
    case Scalar(s) => s
    case Null => ""
  }

  function Texts(row: seq<Value>): (texts: seq<string>)
    ensures |texts| == |row|
    ensures forall k :: 0 <= k < |row| ==> texts[k] == TextOf(row[k])
  {
    seq(|row|, k requires 0 <= k < |row| => TextOf(row[k]))
  }

  predicate Fits(rows: seq<seq<Value>>, widths: seq<nat>)
  {
    forall r :: 0 <= r < |rows| ==> |rows[r]| <= |widths|
  }

  /** The cells of the result rows, the first at height `y`, each next one `RowHeight` lower. */
  function Grid(rows: seq<seq<Value>>, widths: seq<nat>, y: int): seq<Cell>
    requires Fits(rows, widths)
  {
    if rows == [] then []
    else Grid(rows[..|rows| - 1], widths, y) +
         Cells(Texts(rows[|rows| - 1]), widths, y + RowHeight * (|rows| - 1))
  }

  /** The whole table: the headers at `top`, then the result rows from one row lower. */
  function Layout(headers: seq<string>, rows: seq<seq<Value>>, widths: seq<nat>, top: int): seq<Cell>
    requires |headers| <= |widths| && Fits(rows, widths)
  {
    Cells(headers, widths, top) + Grid(rows, widths, top + RowHeight)
  }

  /** The rows of a shorter prefix of the results are laid out as the start of the longer one. */
  lemma {:induction false} GridPrefix(rows: seq<seq<Value>>, widths: seq<nat>, y: int, k: nat)
    requires Fits(rows, widths) && k <= |rows|
    ensures Grid(rows[..k], widths, y) <= Grid(rows, widths, y)
    decreases |rows| - k
  {
    if k < |rows| {
      assert rows[..k + 1][..k] == rows[..k];
      GridPrefix(rows, widths, y, k + 1);
    } else {
      assert rows[..k] == rows;
    }
  }

  /** Every result row fits in the table and the header row with it. */
  lemma ReportsFit(rows: seq<seq<Value>>)
    requires forall r :: 0 <= r < |rows| ==> |rows[r]| <= 7
    ensures |PatientHeaders| <= |ColumnWidths| && |EquipmentHeaders| <= |ColumnWidths|
    ensures Fits(rows, ColumnWidths)
  {
  }

  /** A row of the patients query, in the columns the report reads. */
  datatype PatientResult = PatientResult(id: Value, name: Value, surname: Value, age: Value,
                                         weight: Value, height: Value, heartRate: Value)

  /** A row of the equipment query, in the columns the report reads. */
  datatype EquipmentResult = EquipmentResult(id: Value, name: Value, status: Value,
                                             description: Value, lastMaintenance: Value)

  /** `results.map(paciente => [...])`: seven cells per patient, in the header order. */
  function PatientTable(results: seq<PatientResult>): (rows: seq<seq<Value>>)
    ensures |rows| == |results|
    ensures forall r :: 0 <= r < |rows| ==> |rows[r]| == |PatientHeaders|
    ensures forall r :: 0 <= r < |rows| ==>
              var p := results[r];
              rows[r] == [p.id, p.name, p.surname, p.age, p.weight, p.height, p.heartRate]
  {
    seq(|results|, r requires 0 <= r < |results| =>
          var p := results[r];
          [p.id, p.name, p.surname, p.age, p.weight, p.height, p.heartRate])
  }

  /** `results.map(equipo => [...])`: five cells per item, in the header order. */
  function EquipmentTable(results: seq<EquipmentResult>): (rows: seq<seq<Value>>)
    ensures |rows| == |results|
    ensures forall r :: 0 <= r < |rows| ==> |rows[r]| == |EquipmentHeaders|
    ensures forall r :: 0 <= r < |rows| ==>
              var e := results[r];
              rows[r] == [e.id, e.name, e.status, e.description, e.lastMaintenance]
  {
    seq(|results|, r requires 0 <= r < |results| =>
          var e := results[r];
          [e.id, e.name, e.status, e.description, e.lastMaintenance])
  }

  /** The header `forEach`: one cell per header at height `top`. */
  method DrawHeaders(headers: seq<string>, widths: seq<nat>, top: int) returns (drawn: seq<Cell>)
    requires |headers| <= |widths|
    ensures drawn == Cells(headers, widths, top)
  {
    drawn := [];
    var i := 0;
    while i < |headers|
      invariant 0 <= i <= |headers|
      invariant drawn == Cells(headers[..i], widths, top)
    {
      CellsSnoc(headers[..i], headers[i], widths, top);
      assert headers[..i + 1] == headers[..i] + [headers[i]];
      drawn := drawn + [Cell(headers[i], Offset(widths, i), top, widths[i])];
      i := i + 1;
    }
    assert headers[..i] == headers;
  }

  /**
   * The inner `forEach` over one result row at height `y`: it completes exactly when no cell
   * is NULL, drawing the row's cells; at a NULL cell it stops with a proper prefix of them.
   */
  method DrawRow(row: seq<Value>, widths: seq<nat>, y: int) returns (drawn: seq<Cell>, completed: bool)
    requires |row| <= |widths|
    ensures completed <==> forall c :: 0 <= c < |row| ==> row[c].Scalar?
    ensures completed ==> drawn == Cells(Texts(row), widths, y)
    ensures !completed ==> drawn < Cells(Texts(row), widths, y)
  {
    drawn := [];
    var c := 0;
    while c < |row|
      invariant 0 <= c <= |row|
      invariant drawn == Cells(Texts(row[..c]), widths, y)
      invariant forall k :: 0 <= k < c ==> row[k].Scalar?
    {
      if row[c].Null? {
        assert Texts(row[..c]) < Texts(row);
        return drawn, false;
      }
      assert Texts(row[..c + 1]) == Texts(row[..c]) + [row[c].text];
      CellsSnoc(Texts(row[..c]), row[c].text, widths, y);
      drawn := drawn + [Cell(row[c].text, Offset(widths, c), y, widths[c])];
      c := c + 1;
    }
    assert row[..c] == row;
    completed := true;
  }

  /**
   * The two `forEach` loops with the running `y`. The drawing completes exactly when no result
   * cell is NULL, and then places every cell as `Layout` says and leaves `y` one row below the
   * last; at a NULL cell `toString` throws and the cells drawn so far are a proper prefix of
   * the table.
   */
  method DrawTable(headers: seq<string>, rows: seq<seq<Value>>, widths: seq<nat>, top: int)
    returns (drawn: seq<Cell>, completed: bool, y: int)
    requires |headers| <= |widths| && Fits(rows, widths)
    ensures completed <==> forall r, c :: 0 <= r < |rows| && 0 <= c < |rows[r]| ==> rows[r][c].Scalar?
    ensures completed ==> drawn == Layout(headers, rows, widths, top)
    ensures completed ==> y == top + RowHeight * (|rows| + 1)
    ensures !completed ==> drawn < Layout(headers, rows, widths, top)
  {
    drawn := DrawHeaders(headers, widths, top);
    ghost var head := drawn;
    y := top + RowHeight;
    var r := 0;
    while r < |rows|
      invariant 0 <= r <= |rows|
      invariant y == top + RowHeight * (r + 1)
      invariant drawn == head + Grid(rows[..r], widths, top + RowHeight)
      invariant forall r', c :: 0 <= r' < r && 0 <= c < |rows[r']| ==> rows[r'][c].Scalar?
    {
      assert rows[..r + 1][..r] == rows[..r];
      var cells, ok := DrawRow(rows[r], widths, y);
      if !ok {
        GridPrefix(rows, widths, top + RowHeight, r + 1);
        return drawn + cells, false, y;
      }
      drawn := drawn + cells;
      y := y + RowHeight;
      r := r + 1;
    }
    assert rows[..r] == rows;
    completed := true;
  }

  /**
   * The table of `/download-pdf`: the patient headers at `top`, then one row per patient. It
   * completes exactly when no patient has a NULL column, and then lays out every cell.
   */
  method DrawPatientReport(results: seq<PatientResult>, top: int)
    returns (drawn: seq<Cell>, completed: bool, y: int)
    ensures |PatientHeaders| <= |ColumnWidths| && Fits(PatientTable(results), ColumnWidths)
    ensures completed <==> forall r, c :: 0 <= r < |results| && 0 <= c < |PatientHeaders| ==>
                             PatientTable(results)[r][c].Scalar?
    ensures completed ==> drawn == Layout(PatientHeaders, PatientTable(results), ColumnWidths, top)
    ensures completed ==> y == top + RowHeight * (|results| + 1)
    ensures !completed ==> drawn < Layout(PatientHeaders, PatientTable(results), ColumnWidths, top)
  {
    var rows := PatientTable(results);
    ReportsFit(rows);
    drawn, completed, y := DrawTable(PatientHeaders, rows, ColumnWidths, top);
  }

  /**
   * The table of `/download-e-pdf`: the equipment headers at `top`, then one row per item,
   * drawn with the same seven widths.
   */
  method DrawEquipmentReport(results: seq<EquipmentResult>, top: int)
    returns (drawn: seq<Cell>, completed: bool, y: int)
    ensures |EquipmentHeaders| <= |ColumnWidths| && Fits(EquipmentTable(results), ColumnWidths)
    ensures completed <==> forall r, c :: 0 <= r < |results| && 0 <= c < |EquipmentHeaders| ==>
                             EquipmentTable(results)[r][c].Scalar?
    ensures completed ==> drawn == Layout(EquipmentHeaders, EquipmentTable(results), ColumnWidths, top)
    ensures completed ==> y == top + RowHeight * (|results| + 1)
    ensures !completed ==> drawn < Layout(EquipmentHeaders, EquipmentTable(results), ColumnWidths, top)
  {
    var rows := EquipmentTable(results);
    ReportsFit(rows);
    drawn, completed, y := DrawTable(EquipmentHeaders, rows, ColumnWidths, top);
  }
}
