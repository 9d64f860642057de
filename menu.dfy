/**
 * The role-filtered navigation menu that `navbar(tipo_usuario)` renders at the top of
 * every page: a fixed list of options, each visible to the roles its list names.
 */
module Menu {
  import Seqs
  import Wrappers
  import Auth
  import opened Routes

  /** One menu option: its link, its label and the roles it is shown to. */
  datatype MenuOption = MenuOption(path: string, text: string, roles: seq<string>)

  /** The options in declaration order. */
  const Options: seq<MenuOption> := [
    MenuOption("/", "Inicio", [Admin, Medico, Ingeniero, Paciente]),
    MenuOption("/usuarios", "Usuarios", [Admin]),
    MenuOption("/gestionar", "Gestionar", [Admin]),
    MenuOption("/mis-equipos", "Mis equipos", [Medico]),
    MenuOption("/mis-pacientes", "Mis pacientes", [Medico]),
    MenuOption("/pacientes", "Pacientes", [Medico]),
    MenuOption("/equipos", "Equipos", [Ingeniero]),
    MenuOption("/medicos", "Ver médicos", [Paciente, Ingeniero]),
    MenuOption("/ver-mis-datos", "Ver mis datos", ["pacientes"]),
    MenuOption("/logout", "Cerrar sesión", [Admin, Medico, Ingeniero, Paciente])
  ]

  /**
   * The argument `navbar` is called with: normally the role string, but one handler
   * passes the whole session user object instead.
   */
  datatype NavArg = RoleName(name: string) | NotAString

  /** `opcion.roles?.includes(tipo_usuario)`: array membership, which no non-string matches. */
  predicate ShownTo(arg: NavArg, o: MenuOption)
  {
    arg.RoleName? && arg.name in o.roles
  }

  /** `opciones.filter(...)` from position `i` on: the shown options, in declaration order. */
  function VisibleFrom(arg: NavArg, i: nat): seq<MenuOption>
    requires i <= |Options|
    decreases |Options| - i
  {
    if i == |Options| then []
    else (if ShownTo(arg, Options[i]) then [Options[i]] else []) + VisibleFrom(arg, i + 1)
  }

  /** The options `navbar` keeps. */
  function Visible(arg: NavArg): seq<MenuOption>
  {
    VisibleFrom(arg, 0)
  }

  /** One rendered menu item. */
  function ItemHtml(o: MenuOption): string
  {
    "<li class=\"nav-menu-item\"><a href=\"" + o.path + "\" class=\"nav-link\">" + o.text + "</a></li>"
  }

  /** `.map(...)` of the item template: one rendered item per option, in the same order. */
  function ItemsHtml(os: seq<MenuOption>): (items: seq<string>)
    ensures |items| == |os|
    ensures forall i :: 0 <= i < |os| ==> items[i] == ItemHtml(os[i])
  {
    if os == [] then [] else [ItemHtml(os[0])] + ItemsHtml(os[1..])
  }

  /** `itemsNavbar`: the rendered items of the visible options, joined with no separator. */
  function NavbarItems(arg: NavArg): string
  {
    Seqs.Concat(ItemsHtml(Visible(arg)))
  }

  /** `navbar`'s walk is the filter of the option list by the role test. */
  lemma {:induction false} VisibleFromIsFilter(arg: NavArg, i: nat)
    requires i <= |Options|
    ensures VisibleFrom(arg, i) == Seqs.Filter(Options[i..], o => ShownTo(arg, o))
    decreases |Options| - i
  {
    if i < |Options| {
      VisibleFromIsFilter(arg, i + 1);
      assert Options[i..][0] == Options[i];
      assert Options[i..][1..] == Options[i + 1..];
    }
  }

  /**
   * The menu shows exactly the options whose role list contains the argument, and no
   * more options than are declared.
   */
  lemma VisibleExactly(arg: NavArg)
    ensures Visible(arg) == Seqs.Filter(Options, o => ShownTo(arg, o))
    ensures |Visible(arg)| <= |Options|
    ensures forall o :: o in Visible(arg) <==> o in Options && ShownTo(arg, o)
  {
    VisibleFromIsFilter(arg, 0);
    assert Options[0..] == Options;
  }

  /** A role sees `/` and `/logout`, the first and last options, when it is one of the four known roles. */
  lemma HomeAndLogoutForEveryRole(role: string)
    requires role in KnownRoles
    ensures Options[0] in Visible(RoleName(role)) && Options[0].path == "/"
    ensures Options[9] in Visible(RoleName(role)) && Options[9].path == "/logout"
  {
    VisibleExactly(RoleName(role));
  }

  /** `/ver-mis-datos` is listed for the role `'pacientes'`, which none of the four known roles equals. */
  lemma VerMisDatosHiddenFromKnownRoles(role: string)
    requires role in KnownRoles
    ensures Options[8].path == "/ver-mis-datos"
    ensures Options[8] !in Visible(RoleName(role))
  {
    VisibleExactly(RoleName(role));
    assert Options[8].roles == ["pacientes"];
  }

  /** A non-string argument, such as the session user object, yields an empty menu. */
  lemma NonStringMenuIsEmpty()
    ensures Visible(NotAString) == []
    ensures NavbarItems(NotAString) == ""
  {
    VisibleExactly(NotAString);
    Seqs.FilterNone(Options, o => ShownTo(NotAString, o));
  }

  /** The menu of an administrator: `/`, `/usuarios`, `/gestionar`, `/logout`. */
  lemma AdminMenu()
    ensures Visible(RoleName(Admin)) == [Options[0], Options[1], Options[2], Options[9]]
  {
    var a := RoleName(Admin);
    assert VisibleFrom(a, 10) == [];
    assert VisibleFrom(a, 9) == [Options[9]];
    assert VisibleFrom(a, 3) == [Options[9]];
    assert VisibleFrom(a, 2) == [Options[2], Options[9]];
  }

  /** The menu of a doctor: `/`, `/mis-equipos`, `/mis-pacientes`, `/pacientes`, `/logout`. */
  lemma MedicoMenu()
    ensures Visible(RoleName(Medico)) == [Options[0], Options[3], Options[4], Options[5], Options[9]]
  {
    var a := RoleName(Medico);
    assert VisibleFrom(a, 10) == [];
    assert VisibleFrom(a, 9) == [Options[9]];
    assert VisibleFrom(a, 6) == [Options[9]];
    assert VisibleFrom(a, 5) == [Options[5], Options[9]];
    assert VisibleFrom(a, 3) == [Options[3], Options[4], Options[5], Options[9]];
    assert VisibleFrom(a, 1) == [Options[3], Options[4], Options[5], Options[9]];
  }

  /** The menu of an engineer: `/`, `/equipos`, `/medicos`, `/logout`. */
  lemma IngenieroMenu()
    ensures Visible(RoleName(Ingeniero)) == [Options[0], Options[6], Options[7], Options[9]]
  {
    var a := RoleName(Ingeniero);
    assert VisibleFrom(a, 10) == [];
    assert VisibleFrom(a, 9) == [Options[9]];
    assert VisibleFrom(a, 8) == [Options[9]];
    assert VisibleFrom(a, 6) == [Options[6], Options[7], Options[9]];
    assert VisibleFrom(a, 1) == [Options[6], Options[7], Options[9]];
  }

  /** The menu of a patient: `/`, `/medicos`, `/logout`; `/ver-mis-datos` is not among them. */
  lemma PacienteMenu()
    ensures Visible(RoleName(Paciente)) == [Options[0], Options[7], Options[9]]
  {
    var a := RoleName(Paciente);
    assert VisibleFrom(a, 10) == [];
    assert VisibleFrom(a, 9) == [Options[9]];
    assert VisibleFrom(a, 8) == [Options[9]];
    assert VisibleFrom(a, 7) == [Options[7], Options[9]];
    assert VisibleFrom(a, 1) == [Options[7], Options[9]];
  }

  /** The GET route each option's link resolves to, position by position. */
  const LinkTargets: seq<Endpoint> := [
    GetHome, GetUsuarios, GetGestionar, GetMisEquipos, GetMisPacientes,
    GetPacientes, GetEquipos, GetMedicos, GetVerMisDatos, GetLogout
  ]

  /** Each option links to the GET route registered at its path. */
  lemma LinkTargetsMatchPaths(i: nat)
    requires i < |Options|
    ensures |LinkTargets| == |Options|
    ensures VerbOf(LinkTargets[i]) == Get && PathOf(LinkTargets[i]) == Options[i].path
  {
  }

  /** Every link in a known role's menu leads to a route whose gates admit that role. */
  lemma MenuLinksAreAdmitted(user: Auth.SessionUser, i: nat)
    requires user.role in KnownRoles
    requires i < |Options| && ShownTo(RoleName(user.role), Options[i])
    ensures i < |LinkTargets| && Decide(LinkTargets[i], Wrappers.Some(user)) == Auth.Continue
  {
    RouteTableMeetsPolicy(LinkTargets[i], Wrappers.Some(user));
  }

  /**
   * A patient's gate at `/ver-mis-datos` lets them in (substring test on `'pacientes'`)
   * while the menu, which tests array membership against the same word, never links there.
   */
  lemma VerMisDatosAdmittedButUnlinked(user: Auth.SessionUser)
    requires user.role == Paciente
    ensures Decide(GetVerMisDatos, Wrappers.Some(user)) == Auth.Continue
    ensures forall o :: o in Visible(RoleName(user.role)) ==> o.path != PathOf(GetVerMisDatos)
  {
    RouteTableMeetsPolicy(GetVerMisDatos, Wrappers.Some(user));
    PacienteMenu();
  }
}
