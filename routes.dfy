/**
 * The server's route table: every `app.get`/`app.post` registration with the middleware
 * chain it is given, and the per-(route, role) answers that chain produces.
 */
module Routes {
  import opened Wrappers
  import opened Auth
  import Strings

  datatype Verb = Get | Post

  /** The four roles that access codes hand out. */
  const Admin := "admin"
  const Medico := "médico"
  const Ingeniero := "ingeniero"
  const Paciente := "paciente"
  const KnownRoles: set<string> := {Admin, Medico, Ingeniero, Paciente}

  /** Every registered route, in registration order. */
  datatype Endpoint =
    | GetRegistrar | PostRegistrar | GetLogin | PostLogin | GetHome | GetLogout
    | GetTipoUsuario | GetUsuarios | GetBuscarUsuarios | GetGestionar | PostGestionar
    | GetVerMisDatos | PostSubmitData | PostEliminarRegistros | GetPacientes
    | GetBuscarPacientes | GetFiltrarPacientes | GetOrdenarPacientes | GetRegistrarme
    | PostInsertarMedico | GetHospital | PostHospital | GetMedicos | GetBuscarMedicos
    | GetGEquipos | PostInsertarEquipo | GetEquipos | GetBuscarEquipos | GetMisPacientes
    | GetMisEquipos | GetPacientesX | PostUploadX | GetDownloadX | GetPacientesPdf
    | PostUploadPdf | GetDownloadPdf | GetPromedioPacientes | GetEquiposEX | PostUploadEX
    | GetDownloadEX | GetDownloadEPdf

  function VerbOf(e: Endpoint): Verb
  {
    match e
    case PostRegistrar | PostLogin | PostGestionar | PostSubmitData | PostEliminarRegistros
       | PostInsertarMedico | PostHospital | PostInsertarEquipo | PostUploadX | PostUploadPdf
       | PostUploadEX => Post
    case _ => Get
  }

  function PathOf(e: Endpoint): string
  {
    match e
    case GetRegistrar => "/registrar"
    case PostRegistrar => "/registrar"
    case GetLogin => "/login"
    case PostLogin => "/login"
    case GetHome => "/"
    case GetLogout => "/logout"
    case GetTipoUsuario => "/tipo-usuario"
    case GetUsuarios => "/usuarios"
    case GetBuscarUsuarios => "/buscar-usuarios"
    case GetGestionar => "/gestionar"
    case PostGestionar => "/gestionar"
    case GetVerMisDatos => "/ver-mis-datos"
    case PostSubmitData => "/submit-data"
    case PostEliminarRegistros => "/eliminar-registros"
    case GetPacientes => "/pacientes"
    case GetBuscarPacientes => "/buscar-pacientes"
    case GetFiltrarPacientes => "/filtrar-pacientes"
    case GetOrdenarPacientes => "/ordenar-pacientes"
    case GetRegistrarme => "/registrarme"
    case PostInsertarMedico => "/insertar-medico"
    case GetHospital => "/hospital"
    case PostHospital => "/hospital"
    case GetMedicos => "/medicos"
    case GetBuscarMedicos => "/buscar-medicos"
    case GetGEquipos => "/g-equipos"
    case PostInsertarEquipo => "/insertar-equipo"
    case GetEquipos => "/equipos"
    case GetBuscarEquipos => "/buscar-equipos"
    case GetMisPacientes => "/mis-pacientes"
    case GetMisEquipos => "/mis-equipos"
    case GetPacientesX => "/pacientes-x"
    case PostUploadX => "/upload-x"
    case GetDownloadX => "/download-x"
    case GetPacientesPdf => "/pacientes-pdf"
    case PostUploadPdf => "/upload-pdf"
    case GetDownloadPdf => "/download-pdf"
    case GetPromedioPacientes => "/promedio-pacientes"
    case GetEquiposEX => "/equipos-e-x"
    case PostUploadEX => "/upload-e-x"
    case GetDownloadEX => "/download-e-x"
    case GetDownloadEPdf => "/download-e-pdf"
  }

  function Only(role: string): Stage { RoleGate(OneString(role)) }
  function AnyOf(roles: seq<string>): Stage { RoleGate(RoleList(roles)) }

  /** The middleware chain each route is registered with, before its handler. */
  function Stages(e: Endpoint): seq<Stage>
  {
    match e
    case GetRegistrar | PostRegistrar | GetLogin | PostLogin | GetLogout => []
    case GetHome | GetTipoUsuario | GetGestionar | PostSubmitData | GetMedicos
       | GetBuscarMedicos | GetBuscarEquipos => [LoginGate]
    case GetUsuarios | GetBuscarUsuarios | PostEliminarRegistros | GetHospital => [LoginGate, Only(Admin)]
    case PostHospital => [LoginGate, AnyOf([Admin])]
    case PostGestionar | GetGEquipos | PostInsertarEquipo => [LoginGate, AnyOf([Admin, Ingeniero])]
    case GetVerMisDatos => [LoginGate, Only("pacientes")]
    case GetPacientes | GetBuscarPacientes | GetFiltrarPacientes | GetOrdenarPacientes
       | PostInsertarMedico | GetPacientesX | GetPacientesPdf | GetEquiposEX => [LoginGate, AnyOf([Admin, Medico])]
    case GetPromedioPacientes => [LoginGate, AnyOf([Medico, Admin])]
    case GetRegistrarme | GetMisPacientes | GetMisEquipos | GetDownloadPdf | GetDownloadEPdf => [LoginGate, Only(Medico)]
    case GetEquipos => [LoginGate, Only(Ingeniero)]
    case PostUploadX | PostUploadEX => [StoreUpload("excelFile"), AnyOf([Admin, Medico])]
    case GetDownloadX | GetDownloadEX => [AnyOf([Admin, Medico])]
    case PostUploadPdf => [LoginGate, Only(Medico), StoreUpload("pdfFile")]
  }

  /**
   * How the four string arguments the routes pass to `requireRole` treat the four known
   * roles: each admits its own name, and `'pacientes'` also admits `'paciente'`.
   */
  lemma StringGatesOnKnownRoles(text: string, role: string)
    requires text in {Admin, Medico, Ingeniero, "pacientes"} && role in KnownRoles
    ensures Includes(OneString(text), role) <==> role == text || (text == "pacientes" && role == Paciente)
  {
    if text == Admin {
      AdminGateOnKnownRoles(role);
    } else if text == Medico {
      MedicoGateOnKnownRoles(role);
    } else if text == Ingeniero {
      IngenieroGateOnKnownRoles(role);
    } else {
      PacientesGateOnKnownRoles(role);
    }
  }

  lemma AdminGateOnKnownRoles(role: string)
    requires role in KnownRoles
    ensures Includes(OneString(Admin), role) <==> role == Admin
  {
    if role == Medico {
      Strings.ForeignCharacterExcludes(Admin, role, 1);
    } else if role == Ingeniero {
      Strings.ForeignCharacterExcludes(Admin, role, 2);
    } else if role == Paciente {
      Strings.ForeignCharacterExcludes(Admin, role, 0);
    } else {
      assert role <= Admin;
    }
  }

  lemma MedicoGateOnKnownRoles(role: string)
    requires role in KnownRoles
    ensures Includes(OneString(Medico), role) <==> role == Medico
  {
    if role == Admin {
      Strings.ForeignCharacterExcludes(Medico, role, 0);
    } else if role == Ingeniero {
      Strings.ForeignCharacterExcludes(Medico, role, 1);
    } else if role == Paciente {
      Strings.ForeignCharacterExcludes(Medico, role, 0);
    } else {
      assert role <= Medico;
    }
  }

  lemma IngenieroGateOnKnownRoles(role: string)
    requires role in KnownRoles
    ensures Includes(OneString(Ingeniero), role) <==> role == Ingeniero
  {
    if role == Admin {
      Strings.ForeignCharacterExcludes(Ingeniero, role, 0);
    } else if role == Medico {
      Strings.ForeignCharacterExcludes(Ingeniero, role, 0);
    } else if role == Paciente {
      Strings.ForeignCharacterExcludes(Ingeniero, role, 0);
    } else {
      assert role <= Ingeniero;
    }
  }

  lemma PacientesGateOnKnownRoles(role: string)
    requires role in KnownRoles
    ensures Includes(OneString("pacientes"), role) <==> role == Paciente
  {
    if role == Admin {
      Strings.ForeignCharacterExcludes("pacientes", role, 1);
    } else if role == Medico {
      Strings.ForeignCharacterExcludes("pacientes", role, 0);
    } else if role == Ingeniero {
      Strings.ForeignCharacterExcludes("pacientes", role, 2);
    } else {
      assert role <= "pacientes";
    }
  }

  /** The gate answer for a request to `e`. */
  function Decide(e: Endpoint, session: Option<SessionUser>): Decision
  {
    Run(Stages(e), session)
  }

  /** Who may reach a route's handler, stated without reference to the chains. */
  datatype Access =
    | Open                                        // anyone, with or without a session
    | SignedIn                                    // any session user; anonymous requests go to /login
    | Roles(admitted: set<string>, loginFirst: bool)
      // session users with one of these roles; anonymous requests go to /login when
      // `loginFirst`, otherwise they get the 403 answer

  /** The answer a request gets under an access rule. */
  function Expected(a: Access, session: Option<SessionUser>): Decision
  {
    match a
    case Open => Continue
    case SignedIn => if session.None? then RedirectToLogin else Continue
    case Roles(admitted, loginFirst) =>
      if session.None? then (if loginFirst then RedirectToLogin else Forbidden)
      else if session.value.role in admitted then Continue
      else Forbidden
  }

  /** The access each route grants to the four known roles and to anonymous requests. */
  function Policy(e: Endpoint): Access
  {
    match e
    case GetRegistrar | PostRegistrar | GetLogin | PostLogin | GetLogout => Open
    case GetHome | GetTipoUsuario | GetGestionar | PostSubmitData | GetMedicos
       | GetBuscarMedicos | GetBuscarEquipos => SignedIn
    case GetUsuarios | GetBuscarUsuarios | PostEliminarRegistros | GetHospital | PostHospital =>
      Roles({Admin}, true)
    case PostGestionar | GetGEquipos | PostInsertarEquipo => Roles({Admin, Ingeniero}, true)
    case GetVerMisDatos => Roles({Paciente}, true)
    case GetPacientes | GetBuscarPacientes | GetFiltrarPacientes | GetOrdenarPacientes
       | PostInsertarMedico | GetPacientesX | GetPacientesPdf | GetEquiposEX
       | GetPromedioPacientes => Roles({Admin, Medico}, true)
    case GetRegistrarme | GetMisPacientes | GetMisEquipos | GetDownloadPdf | GetDownloadEPdf
       | PostUploadPdf => Roles({Medico}, true)
    case GetEquipos => Roles({Ingeniero}, true)
    case PostUploadX | PostUploadEX | GetDownloadX | GetDownloadEX => Roles({Admin, Medico}, false)
  }

  /**
   * A chain `requireLogin, requireRole(text)` for one of the three role names: anonymous
   * requests go to `/login`, and of the known roles only `text` itself is admitted.
   */
  lemma LoginThenString(text: string, session: Option<SessionUser>)
    requires text == Admin || text == Medico || text == Ingeniero
    requires session.Some? ==> session.value.role in KnownRoles
    ensures Run([LoginGate, Only(text)], session) == Expected(Roles({text}, true), session)
  {
    RunOfTwo(LoginGate, Only(text), session);
    if session.Some? {
      StringGatesOnKnownRoles(text, session.value.role);
    }
  }

  /** Routes without gates admit every request. */
  lemma OpenRoutes(e: Endpoint, session: Option<SessionUser>)
    requires e == GetRegistrar || e == PostRegistrar || e == GetLogin || e == PostLogin || e == GetLogout
    ensures Decide(e, session) == Expected(Policy(e), session)
  {
    assert Stages(e) == [];
    assert Policy(e) == Open;
  }

  /** Routes behind `requireLogin` alone admit every session user and redirect anonymous requests. */
  lemma SignedInRoutes(e: Endpoint, session: Option<SessionUser>)
    requires e == GetHome || e == GetTipoUsuario || e == GetGestionar || e == PostSubmitData || e == GetMedicos || e == GetBuscarMedicos || e == GetBuscarEquipos
    ensures Decide(e, session) == Expected(Policy(e), session)
  {
    assert Stages(e) == [LoginGate];
    assert Policy(e) == SignedIn;
    RunOfOne(LoginGate, session);
  }

  /** Routes behind `requireRole('admin')`: of the known roles only `admin` reaches the handler. */
  lemma AdminStringRoutes(e: Endpoint, session: Option<SessionUser>)
    requires e == GetUsuarios || e == GetBuscarUsuarios || e == PostEliminarRegistros || e == GetHospital
    requires session.Some? ==> session.value.role in KnownRoles
    ensures Decide(e, session) == Expected(Policy(e), session)
  {
    assert Stages(e) == [LoginGate, Only(Admin)];
    assert Policy(e) == Roles({Admin}, true);
    LoginThenString(Admin, session);
  }

  /** `POST /hospital`, behind `requireRole(['admin'])`. */
  lemma AdminListRoutes(e: Endpoint, session: Option<SessionUser>)
    requires e == PostHospital
    ensures Decide(e, session) == Expected(Policy(e), session)
  {
    RunOfTwo(LoginGate, AnyOf([Admin]), session);
  }

  /** Routes behind `requireRole(['admin', 'ingeniero'])`. */
  lemma AdminIngenieroRoutes(e: Endpoint, session: Option<SessionUser>)
    requires e == PostGestionar || e == GetGEquipos || e == PostInsertarEquipo
    ensures Decide(e, session) == Expected(Policy(e), session)
  {
    assert Stages(e) == [LoginGate, AnyOf([Admin, Ingeniero])];
    assert Policy(e) == Roles({Admin, Ingeniero}, true);
    RunOfTwo(LoginGate, AnyOf([Admin, Ingeniero]), session);
  }

  /** `GET /ver-mis-datos`, behind `requireRole('pacientes')`: substring search admits `paciente` and no other known role. */
  lemma VerMisDatosRoute(e: Endpoint, session: Option<SessionUser>)
    requires e == GetVerMisDatos
    requires session.Some? ==> session.value.role in KnownRoles
    ensures Decide(e, session) == Expected(Policy(e), session)
  {
    RunOfTwo(LoginGate, Only("pacientes"), session);
    if session.Some? {
      StringGatesOnKnownRoles("pacientes", session.value.role);
    }
  }

  /** Routes behind `requireLogin` and `requireRole(['admin', 'médico'])`. */
  lemma AdminMedicoRoutes(e: Endpoint, session: Option<SessionUser>)
    requires e == GetPacientes || e == GetBuscarPacientes || e == GetFiltrarPacientes || e == GetOrdenarPacientes || e == PostInsertarMedico || e == GetPacientesX || e == GetPacientesPdf || e == GetEquiposEX
    ensures Decide(e, session) == Expected(Policy(e), session)
  {
    assert Stages(e) == [LoginGate, AnyOf([Admin, Medico])];
    assert Policy(e) == Roles({Admin, Medico}, true);
    RunOfTwo(LoginGate, AnyOf([Admin, Medico]), session);
  }

  /** `GET /promedio-pacientes`, behind `requireRole(['médico', 'admin'])`. */
  lemma PromedioRoute(e: Endpoint, session: Option<SessionUser>)
    requires e == GetPromedioPacientes
    ensures Decide(e, session) == Expected(Policy(e), session)
  {
    RunOfTwo(LoginGate, AnyOf([Medico, Admin]), session);
  }

  /** Routes behind `requireRole('médico')`. */
  lemma MedicoRoutes(e: Endpoint, session: Option<SessionUser>)
    requires e == GetRegistrarme || e == GetMisPacientes || e == GetMisEquipos || e == GetDownloadPdf || e == GetDownloadEPdf
    requires session.Some? ==> session.value.role in KnownRoles
    ensures Decide(e, session) == Expected(Policy(e), session)
  {
    assert Stages(e) == [LoginGate, Only(Medico)];
    assert Policy(e) == Roles({Medico}, true);
    LoginThenString(Medico, session);
  }

  /** `POST /upload-pdf`: the gates run before the upload is stored. */
  lemma UploadPdfRoute(e: Endpoint, session: Option<SessionUser>)
    requires e == PostUploadPdf
    requires session.Some? ==> session.value.role in KnownRoles
    ensures Decide(e, session) == Expected(Policy(e), session)
    ensures Decide(e, session) != Continue ==>
              forall st :: st in Executed(Stages(e), session) ==> !st.StoreUpload?
  {
    var chain := [LoginGate, Only(Medico), StoreUpload("pdfFile")];
    assert Stages(e) == chain;
    RunOfThree(LoginGate, Only(Medico), StoreUpload("pdfFile"), session);
    if session.Some? {
      StringGatesOnKnownRoles(Medico, session.value.role);
    }
    assert chain[1..] == [Only(Medico), StoreUpload("pdfFile")];
    assert chain[1..][1..] == [StoreUpload("pdfFile")];
    if StageDecision(LoginGate, session) != Continue {
      assert Executed(chain, session) == [LoginGate];
    } else if StageDecision(Only(Medico), session) != Continue {
      assert Executed(chain[1..], session) == [Only(Medico)];
      assert Executed(chain, session) == [LoginGate, Only(Medico)];
    }
  }

  /** `GET /equipos`, behind `requireRole('ingeniero')`. */
  lemma IngenieroRoute(e: Endpoint, session: Option<SessionUser>)
    requires e == GetEquipos
    requires session.Some? ==> session.value.role in KnownRoles
    ensures Decide(e, session) == Expected(Policy(e), session)
  {
    LoginThenString(Ingeniero, session);
  }

  /** The spreadsheet uploads have no `requireLogin`: an anonymous request gets the 403 answer. */
  lemma SpreadsheetUploadRoutes(e: Endpoint, session: Option<SessionUser>)
    requires e == PostUploadX || e == PostUploadEX
    ensures Decide(e, session) == Expected(Policy(e), session)
  {
    assert Stages(e) == [StoreUpload("excelFile"), AnyOf([Admin, Medico])];
    assert Policy(e) == Roles({Admin, Medico}, false);
    RunOfTwo(StoreUpload("excelFile"), AnyOf([Admin, Medico]), session);
  }

  /** The spreadsheet downloads have no `requireLogin`: an anonymous request gets the 403 answer. */
  lemma SpreadsheetDownloadRoutes(e: Endpoint, session: Option<SessionUser>)
    requires e == GetDownloadX || e == GetDownloadEX
    ensures Decide(e, session) == Expected(Policy(e), session)
  {
    assert Stages(e) == [AnyOf([Admin, Medico])];
    assert Policy(e) == Roles({Admin, Medico}, false);
    RunOfOne(AnyOf([Admin, Medico]), session);
  }

  /**
   * The route table against the access policy: for every route, an anonymous request
   * and a request by any of the four known roles get the answer the policy gives.
   */
  lemma RouteTableMeetsPolicy(e: Endpoint, session: Option<SessionUser>)
    requires session.Some? ==> session.value.role in KnownRoles
    ensures Decide(e, session) == Expected(Policy(e), session)
  {
    match e
    case GetRegistrar | PostRegistrar | GetLogin | PostLogin | GetLogout => OpenRoutes(e, session);
    case GetHome | GetTipoUsuario | GetGestionar | PostSubmitData | GetMedicos | GetBuscarMedicos | GetBuscarEquipos => SignedInRoutes(e, session);
    case GetUsuarios | GetBuscarUsuarios | PostEliminarRegistros | GetHospital => AdminStringRoutes(e, session);
    case PostHospital => AdminListRoutes(e, session);
    case PostGestionar | GetGEquipos | PostInsertarEquipo => AdminIngenieroRoutes(e, session);
    case GetVerMisDatos => VerMisDatosRoute(e, session);
    case GetPacientes | GetBuscarPacientes | GetFiltrarPacientes | GetOrdenarPacientes | PostInsertarMedico | GetPacientesX | GetPacientesPdf | GetEquiposEX => AdminMedicoRoutes(e, session);
    case GetPromedioPacientes => PromedioRoute(e, session);
    case GetRegistrarme | GetMisPacientes | GetMisEquipos | GetDownloadPdf | GetDownloadEPdf => MedicoRoutes(e, session);
    case PostUploadPdf => UploadPdfRoute(e, session);
    case GetEquipos => IngenieroRoute(e, session);
    case PostUploadX | PostUploadEX => SpreadsheetUploadRoutes(e, session);
    case GetDownloadX | GetDownloadEX => SpreadsheetDownloadRoutes(e, session);
  }

  /** The user and patient search endpoints apply the same gates as the pages that call them. */
  lemma SearchGatesMatchPages(session: Option<SessionUser>)
    ensures Decide(GetBuscarUsuarios, session) == Decide(GetUsuarios, session)
    ensures Decide(GetBuscarPacientes, session) == Decide(GetPacientes, session)
    ensures Decide(GetFiltrarPacientes, session) == Decide(GetPacientes, session)
    ensures Decide(GetBuscarMedicos, session) == Decide(GetMedicos, session)
  {
    assert Stages(GetBuscarUsuarios) == Stages(GetUsuarios);
    assert Stages(GetBuscarPacientes) == Stages(GetPacientes);
    assert Stages(GetFiltrarPacientes) == Stages(GetPacientes);
    assert Stages(GetBuscarMedicos) == Stages(GetMedicos);
  }

  /**
   * The equipment search is gated by `requireLogin` alone while its page requires the role
   * `ingeniero`: a patient is refused the page but may run the search.
   */
  lemma EquipmentSearchWiderThanPage(user: SessionUser)
    requires user.role == Paciente
    ensures Decide(GetEquipos, Some(user)) == Forbidden
    ensures Decide(GetBuscarEquipos, Some(user)) == Continue
  {
    RouteTableMeetsPolicy(GetEquipos, Some(user));
    RouteTableMeetsPolicy(GetBuscarEquipos, Some(user));
  }

  /**
   * On `/upload-x` the upload stage runs before `requireRole`, so an anonymous request has
   * its file stored and is then refused with 403; on `/upload-pdf` the gates run first and
   * an anonymous request stores nothing.
   */
  lemma UploadStoredBeforeRoleCheck()
    ensures Decide(PostUploadX, None) == Forbidden
    ensures StoreUpload("excelFile") in Executed(Stages(PostUploadX), None)
    ensures Decide(PostUploadPdf, None) == RedirectToLogin
    ensures forall st :: st in Executed(Stages(PostUploadPdf), None) ==> !st.StoreUpload?
  {
    RunOfTwo(StoreUpload("excelFile"), AnyOf([Admin, Medico]), None);
    var x := [StoreUpload("excelFile"), AnyOf([Admin, Medico])];
    assert x[1..] == [AnyOf([Admin, Medico])];
    assert Executed(x, None) == [x[0]] + Executed(x[1..], None);
    RunOfThree(LoginGate, Only(Medico), StoreUpload("pdfFile"), None);
  }
}
