/**
 * Registration and sign-in. `/registrar` looks the access code up inside a transaction and
 * inserts a user whose role is the code's; `/login` reads the first user with the given name,
 * checks the password against the stored digest and puts the user's name and role in the
 * session.
 */
module Accounts {
  import opened Wrappers
  import opened Http
  import opened Auth
  import opened Store
  import opened Transactions

  /** Heading of the page sent when the code lookup fails or finds no row. */
  const InvalidUserType := "Error: tipo de usuario inválido"
  /** Heading of the page sent when the user insert is refused. */
  const RegistrationFailed := "Error al registrar al usuario"

  /**
   * What `POST /registrar` does: begin; look the code up (a refused query or an unknown code
   * rolls back); insert the user with the code's role and the digest of the password; commit.
   */
  function RegisterOutcome(name: string, password: string, code: string, salt: string,
                           f: Faults, t: Tables): Outcome
  {
    if f.begin then Outcome(Send(500, Message(ProcessingError)), t)
    else if f.lookup || code !in t.accessCodes then Outcome(Send(200, Page(InvalidUserType)), t)
    else if f.write then Outcome(Send(200, Page(RegistrationFailed)), t)
    else if f.commit then Outcome(Send(500, Message(ProcessingError)), t)
    else Outcome(Redirect("/login"),
                 Apply(t, AddUser(User(name, Hash(password, salt), t.accessCodes[code]))))
  }

  /** `POST /registrar` on the shared connection, as `RegisterOutcome` says. */
  method Register(db: Database, name: string, password: string, code: string, salt: string,
                  f: Faults) returns (reply: Reply)
    requires !db.InTransaction()
    modifies db
    ensures !db.InTransaction()
    ensures Outcome(reply, db.Content()) ==
              RegisterOutcome(name, password, code, salt, f, old(db.Content()))
  {
    var ok := db.Begin(f.begin);
    if !ok {
      return Send(500, Message(ProcessingError));
    }
    var role := db.LookupAccessCode(code, f.lookup);
    if role.None? {
      db.Rollback();
      return Send(200, Page(InvalidUserType));
    }
    var user := User(name, Hash(password, salt), role.value);
    ok := db.Execute(AddUser(user), f.write);
    if !ok {
      db.Rollback();
      return Send(200, Page(RegistrationFailed));
    }
    ok := db.Commit(f.commit);
    if !ok {
      db.Rollback();
      return Send(500, Message(ProcessingError));
    }
    return Redirect("/login");
  }

  /**
   * Registration's promises: only full success redirects to `/login`, and it adds exactly one
   * user, holding the name, the digest of the password and the role the code grants, leaving
   * every other table alone; an unknown code, like every other failure, leaves all tables as
   * they were.
   */
  lemma RegistrationContract(name: string, password: string, code: string, salt: string,
                             f: Faults, t: Tables)
    ensures var o := RegisterOutcome(name, password, code, salt, f, t);
            (o.reply == Redirect("/login") <==>
               code in t.accessCodes && !f.begin && !f.lookup && !f.write && !f.commit) &&
            (o.reply == Redirect("/login") ==>
               o.tables == t.(users := t.users + [User(name, Hash(password, salt), t.accessCodes[code])])) &&
            (o.reply != Redirect("/login") ==> o.tables == t)
    ensures code !in t.accessCodes ==>
              RegisterOutcome(name, password, code, salt, f, t).tables.users == t.users
  {
  }

  /** The first user with the given name, as `results[0]` of the name query. */
  function FindUser(users: seq<User>, name: string): Option<User>
  {
    if users == [] then None
    else if users[0].name == name then Some(users[0])
    else FindUser(users[1..], name)
  }

  /**
   * The lookup finds nothing exactly when no user has the name, and otherwise finds the user
   * at the first position holding it.
   */
  lemma {:induction false} FindUserIsFirst(users: seq<User>, name: string)
    ensures FindUser(users, name).None? <==> forall i :: 0 <= i < |users| ==> users[i].name != name
    ensures FindUser(users, name).Some? ==>
              exists i :: 0 <= i < |users| && users[i] == FindUser(users, name).value &&
                users[i].name == name && forall j :: 0 <= j < i ==> users[j].name != name
  {
    if users != [] && users[0].name != name {
      var rest := users[1..];
      FindUserIsFirst(rest, name);
      assert forall i :: 1 <= i < |users| ==> users[i] == rest[i - 1];
      if FindUser(rest, name).Some? {
        var i :| 0 <= i < |rest| && rest[i] == FindUser(rest, name).value && rest[i].name == name &&
                 forall j :: 0 <= j < i ==> rest[j].name != name;
        assert users[i + 1] == FindUser(users, name).value;
      }
    } else if users != [] {
      assert users[0] == FindUser(users, name).value;
    }
  }

  /** A new row at the end is found only when no earlier row has the name. */
  lemma {:induction false} FindUserAppend(users: seq<User>, u: User, name: string)
    ensures FindUser(users + [u], name) ==
              if FindUser(users, name).Some? then FindUser(users, name)
              else if u.name == name then Some(u) else None
  {
    if users == [] {
      assert [] + [u] == [u];
      assert [u][1..] == [];
    } else {
      assert (users + [u])[0] == users[0];
      assert (users + [u])[1..] == users[1..] + [u];
      if users[0].name != name {
        FindUserAppend(users[1..], u, name);
      }
    }
  }

  /** What `POST /login` answers, and the session user once it has answered. */
  datatype SignIn = SignIn(session: Option<SessionUser>, reply: Reply)

  /** The texts `/login` sends for a refused query, an unknown name and a wrong password. */
  const LookupFailed := "Error al obtener el usuario"
  const UnknownUser := "Usuario no encontrado"
  const WrongPassword := "Contraseña incorrecta"

  /**
   * `POST /login` on a request whose session holds `prior`: a refused query, an unknown name
   * and a wrong password are each answered with their own text (status 200) and leave the
   * session as it was; otherwise the session holds the stored user's name and role and the
   * reply redirects to `/`.
   */
  function Login(users: seq<User>, name: string, password: string, fault: bool,
                 prior: Option<SessionUser>): (r: SignIn)
    ensures r.reply == Redirect("/") <==>
              !fault && FindUser(users, name).Some? &&
              Matches(password, FindUser(users, name).value.passwordHash)
    ensures r.reply == Redirect("/") ==>
              r.session == Some(SessionUser(FindUser(users, name).value.name, FindUser(users, name).value.role))
    ensures fault ==> r == SignIn(prior, Send(200, Message(LookupFailed)))
    ensures !fault && FindUser(users, name).None? ==> r == SignIn(prior, Send(200, Message(UnknownUser)))
    ensures !fault && FindUser(users, name).Some? &&
            !Matches(password, FindUser(users, name).value.passwordHash) ==>
              r == SignIn(prior, Send(200, Message(WrongPassword)))
  {
    if fault then SignIn(prior, Send(200, Message(LookupFailed)))
    else
      match FindUser(users, name)
      case None => SignIn(prior, Send(200, Message(UnknownUser)))
      case Some(user) =>
        if !Matches(password, user.passwordHash) then
          SignIn(prior, Send(200, Message(WrongPassword)))
        else SignIn(Some(SessionUser(user.name, user.role)), Redirect("/"))
  }

  /**
   * Registering under a new name and then signing in with the same password opens a session
   * with the role the access code grants.
   */
  lemma RegisteredUserCanSignIn(name: string, password: string, code: string, salt: string,
                                f: Faults, t: Tables, prior: Option<SessionUser>)
    requires RegisterOutcome(name, password, code, salt, f, t).reply == Redirect("/login")
    requires forall i :: 0 <= i < |t.users| ==> t.users[i].name != name
    ensures Login(RegisterOutcome(name, password, code, salt, f, t).tables.users, name, password, false, prior)
              == SignIn(Some(SessionUser(name, t.accessCodes[code])), Redirect("/"))
  {
    RegistrationContract(name, password, code, salt, f, t);
    var u := User(name, Hash(password, salt), t.accessCodes[code]);
    FindUserIsFirst(t.users, name);
    FindUserAppend(t.users, u, name);
  }

  /**
   * Nothing stops a second registration under a name already taken, but the earlier row is
   * the one `/login` reads: the new user's password and role are never used.
   */
  lemma DuplicateNameShadowed(name: string, password: string, code: string, salt: string,
                              f: Faults, t: Tables, attempt: string, prior: Option<SessionUser>)
    requires exists i :: 0 <= i < |t.users| && t.users[i].name == name
    ensures Login(RegisterOutcome(name, password, code, salt, f, t).tables.users, name, attempt, false, prior)
              == Login(t.users, name, attempt, false, prior)
  {
    FindUserIsFirst(t.users, name);
    RegistrationContract(name, password, code, salt, f, t);
    var o := RegisterOutcome(name, password, code, salt, f, t);
    if o.reply == Redirect("/login") {
      FindUserAppend(t.users, User(name, Hash(password, salt), t.accessCodes[code]), name);
    }
  }
}
