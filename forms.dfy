/**
 * The four form handlers that insert one row: `/submit-data` (a patient), `/insertar-medico`,
 * `/hospital` and `/insertar-equipo`. Each runs its route's gates, rejects the form with 400
 * when a required field is falsy (before any transaction), and otherwise inserts the row in a
 * transaction and answers with a page that says whether it was saved.
 */
module Forms {
  import opened Wrappers
  import opened Http
  import opened Auth
  import Routes
  import opened Store
  import opened Transactions

  /** A form field as bound to the statement: an absent field becomes SQL NULL. */
  function Bind(p: Param): (v: Value)
    ensures v.Null? <==> p.Absent?
    ensures p.Text? ==> v.text == p.text
  {
    match p
    case Absent => Null
    case Text(s) => Scalar(s)
  }

  /** The headings of the page sent after a refused insert and after a commit. */
  datatype Headings = Headings(failure: string, success: string)

  /**
   * The answer to a finished transaction: 500 with the generic text when begin or commit is
   * refused, otherwise a page (status 200) whose heading says whether the row was saved.
   */
  function FormReply(s: Status, h: Headings): (r: Reply)
    ensures r.Send?
    ensures r.status == 500 <==> s == BeginFailed || s == CommitFailed
    ensures r.status == 500 ==> r.body == Message(ProcessingError)
    ensures s == WriteFailed ==> r == Send(200, Page(h.failure))
    ensures s == Committed ==> r == Send(200, Page(h.success))
    ensures h.failure != h.success ==> (r == Send(200, Page(h.success)) ==> s == Committed)
  {
    match s
    case BeginFailed => Send(500, Message(ProcessingError))
    case WriteFailed => Send(200, Page(h.failure))
    case CommitFailed => Send(500, Message(ProcessingError))
    case Committed => Send(200, Page(h.success))
  }

  /**
   * What a form handler does, given the verdict of its route's gates, its required fields,
   * the row it inserts and the faults the database reports.
   */
  function FormOutcome(gate: Decision, fields: seq<Param>, ins: Insert, h: Headings,
                       f: Faults, t: Tables): Outcome
  {
    if gate != Continue then Outcome(Answer(gate), t)
    else if !AllTruthy(fields) then Outcome(Send(400, Message(MissingFields)), t)
    else
      var s := WriteStatus(f);
      Outcome(FormReply(s, h), After(s, t, ins))
  }

  /**
   * The form handlers' promises: a refused request and a form with a falsy field leave the
   * store as it was (the latter answered 400 before any transaction); the success page is
   * sent exactly when the gates admit, every field is present and no step is refused, and
   * only then is the row added; otherwise the tables are those from before the request.
   */
  lemma FormContract(gate: Decision, fields: seq<Param>, ins: Insert, h: Headings,
                     f: Faults, t: Tables)
    requires h.failure != h.success
    ensures gate != Continue ==> FormOutcome(gate, fields, ins, h, f, t) == Outcome(Answer(gate), t)
    ensures gate == Continue && (exists i :: 0 <= i < |fields| && !Truthy(fields[i])) ==>
              FormOutcome(gate, fields, ins, h, f, t) == Outcome(Send(400, Message(MissingFields)), t)
    ensures FormOutcome(gate, fields, ins, h, f, t).reply == Send(200, Page(h.success)) <==>
              gate == Continue && AllTruthy(fields) && !f.begin && !f.write && !f.commit
    ensures FormOutcome(gate, fields, ins, h, f, t).reply == Send(200, Page(h.success)) ==>
              FormOutcome(gate, fields, ins, h, f, t).tables == Apply(t, ins)
    ensures FormOutcome(gate, fields, ins, h, f, t).reply != Send(200, Page(h.success)) ==>
              FormOutcome(gate, fields, ins, h, f, t).tables == t
  {
    if gate == Continue && AllTruthy(fields) {
      var s := WriteStatus(f);
      assert FormOutcome(gate, fields, ins, h, f, t) == Outcome(FormReply(s, h), After(s, t, ins));
    } else if gate != Continue {
      assert Answer(gate).Redirect? || Answer(gate).status == 403;
    }
  }

  /** Runs the gates' verdict, the field check and the transaction, as `FormOutcome` says. */
  method HandleForm(db: Database, gate: Decision, fields: seq<Param>, ins: Insert, h: Headings,
                    f: Faults) returns (reply: Reply)
    requires !db.InTransaction()
    modifies db
    ensures !db.InTransaction()
    ensures Outcome(reply, db.Content()) == FormOutcome(gate, fields, ins, h, f, old(db.Content()))
  {
    if gate != Continue {
      return Answer(gate);
    }
    if !AllTruthy(fields) {
      return Send(400, Message(MissingFields));
    }
    var s := Transact(db, ins, f);
    return FormReply(s, h);
  }

  /** The body of `/submit-data`. */
  datatype PatientForm = PatientForm(name: Param, sname: Param, age: Param, heartRate: Param,
                                     height: Param, weight: Param, doctorId: Param)

  /** The fields `/submit-data` checks, in the order the handler lists them. */
  function PatientFields(form: PatientForm): seq<Param>
  {
    [form.name, form.sname, form.age, form.heartRate, form.height, form.weight,
     form.doctorId]
  }

  /** `/submit-data` requires all seven fields: the check passes exactly when each is present and non-empty. */
  lemma PatientFieldsRequired(form: PatientForm)
    ensures AllTruthy(PatientFields(form)) <==>
              Truthy(form.name) && Truthy(form.sname) && Truthy(form.age) &&
              Truthy(form.heartRate) && Truthy(form.height) && Truthy(form.weight) &&
              Truthy(form.doctorId)
  {
    var fields := PatientFields(form);
    assert fields[0] == form.name && fields[1] == form.sname && fields[2] == form.age;
    assert fields[3] == form.heartRate && fields[4] == form.height && fields[5] == form.weight;
    assert fields[6] == form.doctorId;
  }

  /** The patient row, bound in column order (note `peso` before `altura`). */
  function PatientRow(form: PatientForm): (p: Patient)
    ensures p.weight == Bind(form.weight) && p.height == Bind(form.height)
    ensures p.heartRate == Bind(form.heartRate) && p.doctorId == Bind(form.doctorId)
    ensures p.name == Bind(form.name) && p.surname == Bind(form.sname) && p.age == Bind(form.age)
  {
    Patient(Bind(form.name), Bind(form.sname), Bind(form.age), Bind(form.weight),
            Bind(form.height), Bind(form.heartRate), Bind(form.doctorId))
  }

  const PatientHeadings := Headings("Error al guardar el paciente en la base de datos",
                                    "Paciente guardado exitosamente")

  /** `POST /submit-data`. */
  method SubmitData(db: Database, session: Option<SessionUser>, form: PatientForm, f: Faults)
    returns (reply: Reply)
    requires !db.InTransaction()
    modifies db
    ensures !db.InTransaction()
    ensures Outcome(reply, db.Content()) ==
              FormOutcome(Routes.Decide(Routes.PostSubmitData, session), PatientFields(form),
                          AddPatients([PatientRow(form)]), PatientHeadings, f, old(db.Content()))
  {
    reply := HandleForm(db, Routes.Decide(Routes.PostSubmitData, session), PatientFields(form),
                        AddPatients([PatientRow(form)]), PatientHeadings, f);
  }

  /** The body of `/insertar-medico`. */
  datatype DoctorForm = DoctorForm(name: Param, specialty: Param, hospitalId: Param)

  /** The fields `/insertar-medico` checks, in the order the handler lists them. */
  function DoctorFields(form: DoctorForm): seq<Param>
  {
    [form.name, form.specialty, form.hospitalId]
  }

  /** `/insertar-medico` requires all three fields: the check passes exactly when each is present and non-empty. */
  lemma DoctorFieldsRequired(form: DoctorForm)
    ensures AllTruthy(DoctorFields(form)) <==>
              Truthy(form.name) && Truthy(form.specialty) && Truthy(form.hospitalId)
  {
    var fields := DoctorFields(form);
    assert fields[0] == form.name && fields[1] == form.specialty && fields[2] == form.hospitalId;
  }

  const DoctorHeadings := Headings("Error al guardar al médico en la base de datos",
                                   "Médico guardado exitosamente en la base de datos")

  /** `POST /insertar-medico`. */
  method InsertDoctor(db: Database, session: Option<SessionUser>, form: DoctorForm, f: Faults)
    returns (reply: Reply)
    requires !db.InTransaction()
    modifies db
    ensures !db.InTransaction()
    ensures Outcome(reply, db.Content()) ==
              FormOutcome(Routes.Decide(Routes.PostInsertarMedico, session), DoctorFields(form),
                          AddDoctor(Doctor(Bind(form.name), Bind(form.specialty), Bind(form.hospitalId))),
                          DoctorHeadings, f, old(db.Content()))
  {
    reply := HandleForm(db, Routes.Decide(Routes.PostInsertarMedico, session), DoctorFields(form),
                        AddDoctor(Doctor(Bind(form.name), Bind(form.specialty), Bind(form.hospitalId))),
                        DoctorHeadings, f);
  }

  /** The body of `POST /hospital`. */
  datatype HospitalForm = HospitalForm(name: Param, location: Param)

  /** The fields `POST /hospital` checks, in the order the handler lists them. */
  function HospitalFields(form: HospitalForm): seq<Param>
  {
    [form.name, form.location]
  }

  /** `POST /hospital` requires both fields: the check passes exactly when each is present and non-empty. */
  lemma HospitalFieldsRequired(form: HospitalForm)
    ensures AllTruthy(HospitalFields(form)) <==> Truthy(form.name) && Truthy(form.location)
  {
    var fields := HospitalFields(form);
    assert fields[0] == form.name && fields[1] == form.location;
  }

  const HospitalHeadings := Headings("Error al guardar el hospital en la base de datos",
                                     "Hospital registrado exitosamente en la base de datos")

  /** `POST /hospital`. */
  method InsertHospital(db: Database, session: Option<SessionUser>, form: HospitalForm, f: Faults)
    returns (reply: Reply)
    requires !db.InTransaction()
    modifies db
    ensures !db.InTransaction()
    ensures Outcome(reply, db.Content()) ==
              FormOutcome(Routes.Decide(Routes.PostHospital, session), HospitalFields(form),
                          AddHospital(Hospital(Bind(form.name), Bind(form.location))),
                          HospitalHeadings, f, old(db.Content()))
  {
    reply := HandleForm(db, Routes.Decide(Routes.PostHospital, session), HospitalFields(form),
                        AddHospital(Hospital(Bind(form.name), Bind(form.location))),
                        HospitalHeadings, f);
  }

  /** The body of `/insertar-equipo`. */
  datatype EquipmentForm = EquipmentForm(name: Param, status: Param, description: Param,
                                         lastMaintenance: Param, doctorId: Param,
                                         hospitalId: Param)

  /** The fields `/insertar-equipo` checks, in the order the handler lists them. */
  function EquipmentFields(form: EquipmentForm): seq<Param>
  {
    [form.name, form.status, form.description, form.lastMaintenance, form.doctorId,
     form.hospitalId]
  }

  /** `/insertar-equipo` requires all six fields: the check passes exactly when each is present and non-empty. */
  lemma EquipmentFieldsRequired(form: EquipmentForm)
    ensures AllTruthy(EquipmentFields(form)) <==>
              Truthy(form.name) && Truthy(form.status) && Truthy(form.description) &&
              Truthy(form.lastMaintenance) && Truthy(form.doctorId) && Truthy(form.hospitalId)
  {
    var fields := EquipmentFields(form);
    assert fields[0] == form.name && fields[1] == form.status && fields[2] == form.description;
    assert fields[3] == form.lastMaintenance && fields[4] == form.doctorId;
    assert fields[5] == form.hospitalId;
  }

  /** The equipment row, bound in column order. */
  function EquipmentRow(form: EquipmentForm): (e: Equipment)
    ensures e.name == Bind(form.name) && e.status == Bind(form.status)
    ensures e.description == Bind(form.description) && e.lastMaintenance == Bind(form.lastMaintenance)
    ensures e.doctorId == Bind(form.doctorId) && e.hospitalId == Bind(form.hospitalId)
  {
    Equipment(Bind(form.name), Bind(form.status), Bind(form.description),
              Bind(form.lastMaintenance), Bind(form.doctorId), Bind(form.hospitalId))
  }

  const EquipmentHeadings := Headings("Error al guardar el equipo en la base de datos",
                                      "Equipo guardado exitosamente en la base de datos")

  /** `POST /insertar-equipo`. */
  method InsertEquipment(db: Database, session: Option<SessionUser>, form: EquipmentForm,
                         f: Faults) returns (reply: Reply)
    requires !db.InTransaction()
    modifies db
    ensures !db.InTransaction()
    ensures Outcome(reply, db.Content()) ==
              FormOutcome(Routes.Decide(Routes.PostInsertarEquipo, session), EquipmentFields(form),
                          AddEquipment(EquipmentRow(form)), EquipmentHeadings, f, old(db.Content()))
  {
    reply := HandleForm(db, Routes.Decide(Routes.PostInsertarEquipo, session), EquipmentFields(form),
                        AddEquipment(EquipmentRow(form)), EquipmentHeadings, f);
  }

  /** Each handler's two headings differ, so its page tells a saved row from a refused one. */
  lemma HeadingsDistinguishOutcome()
    ensures PatientHeadings.failure != PatientHeadings.success
    ensures DoctorHeadings.failure != DoctorHeadings.success
    ensures HospitalHeadings.failure != HospitalHeadings.success
    ensures EquipmentHeadings.failure != EquipmentHeadings.success
  {
    assert |PatientHeadings.failure| != |PatientHeadings.success|;
    assert |DoctorHeadings.failure| != |DoctorHeadings.success|;
    assert |HospitalHeadings.failure| != |HospitalHeadings.success|;
    assert |EquipmentHeadings.failure| != |EquipmentHeadings.success|;
  }

  /**
   * A patient whose form passes the check and whose transaction commits is added as one row
   * holding the submitted values; every other request leaves the patients as they were.
   */
  lemma SubmittedPatientStored(session: Option<SessionUser>, form: PatientForm, f: Faults, t: Tables)
    ensures var o := FormOutcome(Routes.Decide(Routes.PostSubmitData, session), PatientFields(form),
                                 AddPatients([PatientRow(form)]), PatientHeadings, f, t);
            (o.reply == Send(200, Page(PatientHeadings.success)) ==>
               o.tables.patients == t.patients + [PatientRow(form)] &&
               o.tables.users == t.users && o.tables.doctors == t.doctors) &&
            (o.reply != Send(200, Page(PatientHeadings.success)) ==> o.tables == t)
  {
    HeadingsDistinguishOutcome();
    FormContract(Routes.Decide(Routes.PostSubmitData, session), PatientFields(form),
                 AddPatients([PatientRow(form)]), PatientHeadings, f, t);
  }
}
