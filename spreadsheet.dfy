/**
 * `POST /upload-x`: the rows of the first sheet of an uploaded workbook become patient tuples,
 * one per row in order, inserted by a single multi-row statement inside a transaction.
 */
module Spreadsheet {
  import opened Wrappers
  import opened Http
  import opened Auth
  import Routes
  import opened Store
  import opened Transactions
  import Forms

  /** A parsed sheet row: the columns the row has a cell in, keyed by header. */
  type SheetRow = map<string, Value>

  const EmptySheet := "El archivo Excel está vacío o no contiene datos válidos."
  const ImportFailed := "Error al cargar los datos desde el archivo Excel."
  const ImportSucceeded := "Los datos se han subido con éxito al servidor"

  /** `row.column`: a column without a cell is `undefined`, which is bound as NULL. */
  function Cell(row: SheetRow, column: string): (v: Value)
    ensures column !in row ==> v == Null
    ensures column in row ==> v == row[column]
  {
    if column in row then row[column] else Null
  }

  /** The tuple for one row, in the column order of the `INSERT`. */
  function RowTuple(row: SheetRow): Patient
  {
    Patient(Cell(row, "nombre_paciente"), Cell(row, "apellido"), Cell(row, "edad"),
            Cell(row, "peso"), Cell(row, "altura"), Cell(row, "frecuencia_cardiaca"),
            Cell(row, "id_ma"))
  }

  /** `data.map(row => [...])`: one tuple per row, in the rows' order. */
  function RowTuples(rows: seq<SheetRow>): (values: seq<Patient>)
    ensures |values| == |rows|
    ensures forall i :: 0 <= i < |rows| ==> values[i] == RowTuple(rows[i])
  {
    if rows == [] then [] else [RowTuple(rows[0])] + RowTuples(rows[1..])
  }

  /** Uploading the concatenation of two sheets inserts the tuples of the first, then the second. */
  lemma {:induction false} RowTuplesAppend(a: seq<SheetRow>, b: seq<SheetRow>)
    ensures RowTuples(a + b) == RowTuples(a) + RowTuples(b)
  {
    if a == [] {
      assert a + b == b;
    } else {
      assert (a + b)[1..] == a[1..] + b;
      RowTuplesAppend(a[1..], b);
    }
  }

  /**
   * What `/upload-x` does, given its gates' verdict: an empty sheet is refused with 400 before
   * any transaction; a refused insert is answered 500 with its own text, a refused begin or
   * commit 500 with the generic text, and success with the page saying the data was loaded.
   */
  function UploadOutcome(gate: Decision, rows: seq<SheetRow>, f: Faults, t: Tables): Outcome
  {
    if gate != Continue then Outcome(Answer(gate), t)
    else if rows == [] then Outcome(Send(400, Message(EmptySheet)), t)
    else
      var s := WriteStatus(f);
      var reply := match s
        case WriteFailed => Send(500, Message(ImportFailed))
        case Committed => Send(200, Page(ImportSucceeded))
        case _ => Send(500, Message(ProcessingError));
      Outcome(reply, After(s, t, AddPatients(RowTuples(rows))))
  }

  /**
   * The import's promises: an empty sheet changes nothing; otherwise either every row is
   * appended to the patients, as its tuple and in order, with the success page, or the
   * tables are exactly those from before the request.
   */
  lemma UploadContract(gate: Decision, rows: seq<SheetRow>, f: Faults, t: Tables)
    ensures gate == Continue && rows == [] ==>
              UploadOutcome(gate, rows, f, t) == Outcome(Send(400, Message(EmptySheet)), t)
    ensures UploadOutcome(gate, rows, f, t).reply == Send(200, Page(ImportSucceeded)) <==>
              gate == Continue && rows != [] && !f.begin && !f.write && !f.commit
    ensures var o := UploadOutcome(gate, rows, f, t);
            o.reply == Send(200, Page(ImportSucceeded)) ==>
              |o.tables.patients| == |t.patients| + |rows| &&
              o.tables.patients[..|t.patients|] == t.patients &&
              (forall i :: 0 <= i < |rows| ==> o.tables.patients[|t.patients| + i] == RowTuple(rows[i])) &&
              o.tables.(patients := t.patients) == t
    ensures UploadOutcome(gate, rows, f, t).reply != Send(200, Page(ImportSucceeded)) ==>
              UploadOutcome(gate, rows, f, t).tables == t
  {
    var o := UploadOutcome(gate, rows, f, t);
    if gate == Continue && rows != [] && WriteStatus(f) == Committed {
      assert o.tables.patients == t.patients + RowTuples(rows);
    } else if gate != Continue {
      assert Answer(gate).Redirect? || Answer(gate).status == 403;
    }
  }

  /** `POST /upload-x`, the stored file already parsed into `rows`. */
  method UploadPatients(db: Database, session: Option<SessionUser>, rows: seq<SheetRow>, f: Faults)
    returns (reply: Reply)
    requires !db.InTransaction()
    modifies db
    ensures !db.InTransaction()
    ensures Outcome(reply, db.Content()) ==
              UploadOutcome(Routes.Decide(Routes.PostUploadX, session), rows, f, old(db.Content()))
  {
    var gate := Routes.Decide(Routes.PostUploadX, session);
    if gate != Continue {
      return Answer(gate);
    }
    if |rows| == 0 {
      return Send(400, Message(EmptySheet));
    }
    var s := Transact(db, AddPatients(RowTuples(rows)), f);
    match s {
      case WriteFailed => reply := Send(500, Message(ImportFailed));
      case Committed => reply := Send(200, Page(ImportSucceeded));
      case _ => reply := Send(500, Message(ProcessingError));
    }
  }

  /**
   * A sheet row carrying the form's columns is stored exactly as the same patient entered on
   * `/submit-data` would be.
   */
  lemma SheetRowMatchesForm(name: string, surname: string, age: string, weight: string,
                            height: string, heartRate: string, doctorId: string)
    ensures RowTuple(map["nombre_paciente" := Scalar(name), "apellido" := Scalar(surname),
                         "edad" := Scalar(age), "peso" := Scalar(weight),
                         "altura" := Scalar(height), "frecuencia_cardiaca" := Scalar(heartRate),
                         "id_ma" := Scalar(doctorId)])
            == Forms.PatientRow(Forms.PatientForm(Text(name), Text(surname), Text(age),
                                                  Text(heartRate), Text(height), Text(weight),
                                                  Text(doctorId)))
  {
  }
}
