/**
 * The two request gates of the server, `requireLogin` and `requireRole`, and the way
 * Express runs a route's middleware chain: each stage either passes to the next one or
 * ends the request with its own answer.
 */
module Auth {
  import opened Wrappers
  import Strings
  import Http

  /** What `req.session.user` holds once a user has logged in. */
  datatype SessionUser = SessionUser(name: string, role: string)

  /** The argument given to `requireRole`: a bare string or an array of role names. */
  datatype RoleArg = OneString(text: string) | RoleList(roles: seq<string>)

  /**
   * `role.includes(tipo_usuario)`: on a string this is substring search, on an array
   * it is membership.
   */
  function Includes(arg: RoleArg, role: string): bool
  {
    match arg
    case OneString(text) => Strings.Contains(text, role)
    case RoleList(roles) => role in roles
  }

  /** How a gate ends: pass to the next stage, redirect to `/login`, or answer 403. */
  datatype Decision = Continue | RedirectToLogin | Forbidden

  /** The response a stopping gate sends: the redirect, or status 403 with its fixed text. */
  function Answer(d: Decision): (r: Http.Reply)
    requires d != Continue
    ensures d == RedirectToLogin <==> r == Http.Redirect("/login")
    ensures d == Forbidden <==> r == Http.Send(403, Http.Message(Http.NotAuthorized))
  {
    match d
    case RedirectToLogin => Http.Redirect("/login")
    case Forbidden => Http.Send(403, Http.Message(Http.NotAuthorized))
  }

  /** `requireLogin`: without a session user the request is redirected to `/login`. */
  function RequireLogin(session: Option<SessionUser>): (d: Decision)
    ensures d == Continue <==> session.Some?
    ensures d != Forbidden
  {
    if session.None? then RedirectToLogin else Continue
  }

  /**
   * `requireRole(arg)`: passes when a session user exists and `arg` includes the user's
   * role; every denial, with or without a session, is the 403 answer, never a redirect.
   */
  function RequireRole(arg: RoleArg, session: Option<SessionUser>): (d: Decision)
    ensures d == Continue <==> session.Some? && Includes(arg, session.value.role)
    ensures d != RedirectToLogin
  {
    if session.Some? && Includes(arg, session.value.role) then Continue else Forbidden
  }

  /** For a string argument, the role is admitted exactly when it occurs inside that string. */
  lemma StringArgumentIsSubstring(text: string, role: string)
    ensures Includes(OneString(text), role) <==> Strings.IsSubstring(role, text)
  {
    Strings.ContainsIsSubstring(text, role);
  }

  /** `requireRole('pacientes')` admits the role `'paciente'`, a prefix of the argument. */
  lemma PacientesAdmitsPaciente(name: string)
    ensures RequireRole(OneString("pacientes"), Some(SessionUser(name, "paciente"))) == Continue
  {
    assert "paciente" <= "pacientes";
  }

  /** One stage of a route's middleware chain. */
  datatype Stage =
    | LoginGate                      // requireLogin
    | RoleGate(arg: RoleArg)         // requireRole(arg)
    | StoreUpload(field: string)     // multer's upload.single(field): stores the file, then continues

  /** The answer of one stage. */
  function StageDecision(stage: Stage, session: Option<SessionUser>): Decision
  {
    match stage
    case LoginGate => RequireLogin(session)
    case RoleGate(arg) => RequireRole(arg, session)
    case StoreUpload(_) => Continue
  }

  /** The chain's answer: the first stage that does not continue decides, otherwise the handler runs. */
  function Run(stages: seq<Stage>, session: Option<SessionUser>): Decision
  {
    if stages == [] then Continue
    else if StageDecision(stages[0], session) != Continue then StageDecision(stages[0], session)
    else Run(stages[1..], session)
  }

  /** The stages that actually run: all of them up to and including the one that stops the chain. */
  function Executed(stages: seq<Stage>, session: Option<SessionUser>): seq<Stage>
  {
    if stages == [] then []
    else if StageDecision(stages[0], session) != Continue then [stages[0]]
    else [stages[0]] + Executed(stages[1..], session)
  }

  /** The first gate of the chain, skipping upload stages. */
  function FirstGate(stages: seq<Stage>): Option<Stage>
  {
    if stages == [] then None
    else if stages[0].StoreUpload? then FirstGate(stages[1..])
    else Some(stages[0])
  }

  /** A chain of one stage answers as that stage does. */
  lemma RunOfOne(a: Stage, session: Option<SessionUser>)
    ensures Run([a], session) == StageDecision(a, session)
  {
    assert [a][1..] == [];
  }

  /** A chain of two stages: the second decides only when the first continues. */
  lemma RunOfTwo(a: Stage, b: Stage, session: Option<SessionUser>)
    ensures Run([a, b], session) ==
            if StageDecision(a, session) != Continue then StageDecision(a, session) else StageDecision(b, session)
  {
    assert [a, b][1..] == [b];
    RunOfOne(b, session);
  }

  /** A chain of three stages, stage by stage. */
  lemma RunOfThree(a: Stage, b: Stage, c: Stage, session: Option<SessionUser>)
    ensures Run([a, b, c], session) ==
            if StageDecision(a, session) != Continue then StageDecision(a, session)
            else if StageDecision(b, session) != Continue then StageDecision(b, session)
            else StageDecision(c, session)
  {
    assert [a, b, c][1..] == [b, c];
    RunOfTwo(b, c, session);
  }

  /** The handler runs exactly when every stage of the chain admits the request. */
  lemma {:induction false} RunContinuesIffAllAdmit(stages: seq<Stage>, session: Option<SessionUser>)
    ensures Run(stages, session) == Continue <==>
            forall i :: 0 <= i < |stages| ==> StageDecision(stages[i], session) == Continue
  {
    if stages != [] {
      RunContinuesIffAllAdmit(stages[1..], session);
      assert forall i :: 1 <= i < |stages| ==> stages[i] == stages[1..][i - 1];
    }
  }

  /** With a session user no chain redirects: a denial is always the 403 answer. */
  lemma {:induction false} SignedInNeverRedirected(stages: seq<Stage>, user: SessionUser)
    ensures Run(stages, Some(user)) != RedirectToLogin
  {
    if stages != [] {
      SignedInNeverRedirected(stages[1..], user);
    }
  }

  /**
   * Without a session the first gate decides: `requireLogin` redirects, `requireRole`
   * answers 403, and a chain without gates lets the request through.
   */
  lemma {:induction false} AnonymousDecidedByFirstGate(stages: seq<Stage>)
    ensures Run(stages, None) ==
            match FirstGate(stages)
            case None => Continue
            case Some(LoginGate) => RedirectToLogin
            case Some(_) => Forbidden
  {
    if stages != [] && stages[0].StoreUpload? {
      AnonymousDecidedByFirstGate(stages[1..]);
    }
  }

  /**
   * The stages that ran are a prefix of the chain, every one of them but the last continued,
   * and the last one ran is the one that decided.
   */
  lemma {:induction false} ExecutedIsDecidingPrefix(stages: seq<Stage>, session: Option<SessionUser>)
    ensures Executed(stages, session) <= stages
    ensures forall i :: 0 <= i < |Executed(stages, session)| - 1 ==>
              StageDecision(Executed(stages, session)[i], session) == Continue
    ensures Run(stages, session) != Continue ==>
            Executed(stages, session) != [] &&
            StageDecision(Executed(stages, session)[|Executed(stages, session)| - 1], session) == Run(stages, session)
    ensures Run(stages, session) == Continue ==> Executed(stages, session) == stages
  {
    if stages != [] && StageDecision(stages[0], session) == Continue {
      ExecutedIsDecidingPrefix(stages[1..], session);
      assert stages == [stages[0]] + stages[1..];
    }
  }
}
