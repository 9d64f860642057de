/**
 * The MySQL database behind the application, as an in-memory store reached through the one
 * shared connection: the rows of the tables the handlers write, the access-code table the
 * registration reads, and the transaction the connection may have open. A transaction keeps a
 * snapshot of the tables taken at `beginTransaction`; `rollback` puts it back, `commit` drops it.
 * Whether the database reports an error for a statement is a parameter (`fail`) of each step.
 */
module Store {
  import opened Wrappers

  /** A column value as the driver binds it: `undefined`/`null` become SQL NULL. */
  datatype Value = Null | Scalar(text: string)

  /**
   * A bcrypt digest, kept symbolic: the work factor, the salt and the password it was made
   * from. The salt is random in the source and is a parameter here.
   */
  datatype Digest = Digest(cost: nat, salt: string, password: string)

  /** The work factor `bcrypt.hashSync(password, 10)` uses. */
  const WorkFactor: nat := 10

  /** `bcrypt.hashSync(password, 10)` with the salt it drew. */
  function Hash(password: string, salt: string): (d: Digest)
    ensures d.cost == WorkFactor
  {
    Digest(WorkFactor, salt, password)
  }

  /** `bcrypt.compareSync(password, digest)`. */
  predicate Matches(password: string, d: Digest)
  {
    d.password == password
  }

  /** A digest accepts the password it was made from and no other, whatever the salt. */
  lemma HashAcceptsOnlyItsPassword(password: string, candidate: string, salt: string)
    ensures Matches(candidate, Hash(password, salt)) <==> candidate == password
  {
  }

  /** A row of `usuarios` (`nombre_usuario`, `password_hash`, `tipo_usuario`). */
  datatype User = User(name: string, passwordHash: Digest, role: string)

  /**
   * A row of `pacientes`, its columns in the order the inserts name them: `nombre_paciente`,
   * `apellido`, `edad`, `peso`, `altura`, `frecuencia_cardiaca`, `id_ma`.
   */
  datatype Patient = Patient(name: Value, surname: Value, age: Value, weight: Value,
                             height: Value, heartRate: Value, doctorId: Value)

  /** A row of `medicos` (`nombre_medico`, `especialidad`, `id_hospital`). */
  datatype Doctor = Doctor(name: Value, specialty: Value, hospitalId: Value)

  /** A row of `hospital` (`nombre_hospital`, `ubicación`). */
  datatype Hospital = Hospital(name: Value, location: Value)

  /**
   * A row of `equipos` (`nombre_equipo`, `estado`, `descripcion`, `ultimo_mantenimiento`,
   * `id_ma`, `id_hospital`).
   */
  datatype Equipment = Equipment(name: Value, status: Value, description: Value,
                                 lastMaintenance: Value, doctorId: Value, hospitalId: Value)

  /** The tables, in insertion order, and `codigos_acceso` as a map from code to role. */
  datatype Tables = Tables(users: seq<User>, patients: seq<Patient>, doctors: seq<Doctor>,
                           hospitals: seq<Hospital>, equipment: seq<Equipment>,
                           accessCodes: map<string, string>)

  /** One `INSERT` statement: a single row, or for `pacientes` a multi-row `VALUES ?`. */
  datatype Insert =
    | AddUser(user: User)
    | AddPatients(patients: seq<Patient>)
    | AddDoctor(doctor: Doctor)
    | AddHospital(hospital: Hospital)
    | AddEquipment(item: Equipment)

  /** The tables after a successful insert: the rows appended to their table. */
  function Apply(t: Tables, ins: Insert): (r: Tables)
    ensures r.accessCodes == t.accessCodes
  {
    match ins
    case AddUser(u) => t.(users := t.users + [u])
    case AddPatients(ps) => t.(patients := t.patients + ps)
    case AddDoctor(d) => t.(doctors := t.doctors + [d])
    case AddHospital(h) => t.(hospitals := t.hospitals + [h])
    case AddEquipment(e) => t.(equipment := t.equipment + [e])
  }

  /** An insert adds rows to one table, keeps the rows already there, and touches no other table. */
  lemma ApplyOnlyAppends(t: Tables, ins: Insert)
    ensures Apply(t, ins).users == t.users + (if ins.AddUser? then [ins.user] else [])
    ensures Apply(t, ins).patients == t.patients + (if ins.AddPatients? then ins.patients else [])
    ensures Apply(t, ins).doctors == t.doctors + (if ins.AddDoctor? then [ins.doctor] else [])
    ensures Apply(t, ins).hospitals == t.hospitals + (if ins.AddHospital? then [ins.hospital] else [])
    ensures Apply(t, ins).equipment == t.equipment + (if ins.AddEquipment? then [ins.item] else [])
  {
    match ins
    case AddUser(_) =>
      assert t.patients + [] == t.patients;
      assert t.doctors + [] == t.doctors;
      assert t.hospitals + [] == t.hospitals;
      assert t.equipment + [] == t.equipment;
    case AddPatients(_) =>
      assert t.users + [] == t.users;
      assert t.doctors + [] == t.doctors;
      assert t.hospitals + [] == t.hospitals;
      assert t.equipment + [] == t.equipment;
    case AddDoctor(_) =>
      assert t.users + [] == t.users;
      assert t.patients + [] == t.patients;
      assert t.hospitals + [] == t.hospitals;
      assert t.equipment + [] == t.equipment;
    case AddHospital(_) =>
      assert t.users + [] == t.users;
      assert t.patients + [] == t.patients;
      assert t.doctors + [] == t.doctors;
      assert t.equipment + [] == t.equipment;
    case AddEquipment(_) =>
      assert t.users + [] == t.users;
      assert t.patients + [] == t.patients;
      assert t.doctors + [] == t.doctors;
      assert t.hospitals + [] == t.hospitals;
  }

  /** The shared connection and the database it talks to. */
  class Database {
    var users: seq<User>
    var patients: seq<Patient>
    var doctors: seq<Doctor>
    var hospitals: seq<Hospital>
    var equipment: seq<Equipment>
    var accessCodes: map<string, string>
    /** The tables as they were at `beginTransaction`, while a transaction is open. */
    var snapshot: Option<Tables>

    /** The tables as the database holds them now. */
    function Content(): Tables
      reads this
    {
      Tables(users, patients, doctors, hospitals, equipment, accessCodes)
    }

    /** A transaction is open on the connection. */
    predicate InTransaction()
      reads this
    {
      snapshot.Some?
    }

    constructor (initial: Tables)
      ensures Content() == initial
      ensures !InTransaction()
    {
      users := initial.users;
      patients := initial.patients;
      doctors := initial.doctors;
      hospitals := initial.hospitals;
      equipment := initial.equipment;
      accessCodes := initial.accessCodes;
      snapshot := None;
    }

    /** `connection.beginTransaction`: on success the current tables become the snapshot. */
    method Begin(fail: bool) returns (ok: bool)
      requires !InTransaction()
      modifies this
      ensures ok == !fail
      ensures Content() == old(Content())
      ensures ok ==> snapshot == Some(old(Content()))
      ensures !ok ==> !InTransaction()
    {
      if fail {
        return false;
      }
      snapshot := Some(Content());
      return true;
    }

    /**
     * `SELECT tipo_usuario FROM codigos_acceso WHERE codigo = ?`: the role of the code, or
     * nothing when the query fails or no row matches.
     */
    method LookupAccessCode(code: string, fail: bool) returns (role: Option<string>)
      ensures role.Some? <==> !fail && code in accessCodes
      ensures role.Some? ==> role.value == accessCodes[code]
    {
      if fail || code !in accessCodes {
        return None;
      }
      return Some(accessCodes[code]);
    }

    /** An `INSERT` inside the open transaction: all its rows are written or none is. */
    method Execute(ins: Insert, fail: bool) returns (ok: bool)
      requires InTransaction()
      modifies this
      ensures ok == !fail
      ensures snapshot == old(snapshot)
      ensures Content() == if ok then Apply(old(Content()), ins) else old(Content())
    {
      if fail {
        return false;
      }
      match ins {
        case AddUser(u) => users := users + [u];
        case AddPatients(ps) => patients := patients + ps;
        case AddDoctor(d) => doctors := doctors + [d];
        case AddHospital(h) => hospitals := hospitals + [h];
        case AddEquipment(e) => equipment := equipment + [e];
      }
      return true;
    }

    /** `connection.commit`: on success the writes stay and the snapshot is dropped. */
    method Commit(fail: bool) returns (ok: bool)
      requires InTransaction()
      modifies this
      ensures ok == !fail
      ensures Content() == old(Content())
      ensures ok ==> !InTransaction()
      ensures !ok ==> snapshot == old(snapshot)
    {
      if fail {
        return false;
      }
      snapshot := None;
      return true;
    }

    /** `connection.rollback`: the tables return to the snapshot and the transaction ends. */
    method Rollback()
      requires InTransaction()
      modifies this
      ensures Content() == old(snapshot.value)
      ensures !InTransaction()
    {
      var t := snapshot.value;
      users := t.users;
      patients := t.patients;
      doctors := t.doctors;
      hospitals := t.hospitals;
      equipment := t.equipment;
      accessCodes := t.accessCodes;
      snapshot := None;
    }
  }
}
