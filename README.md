# Hospital management server — a Dafny model of its core

The server is an Express application. It has four kinds of user: `admin`, `médico`, `ingeniero`
and `paciente`. A user registers with an access code, and the code decides the role. After
signing in, the user reaches pages, searches, reports, forms and spreadsheet/PDF transfers.
Which of these a user reaches depends on the middleware chain of each route.

This project models that core:

- **Gates** (`auth.dfy`). `requireLogin` and `requireRole` are decisions over an optional
  session user. `requireRole` uses JavaScript `includes`: with a string argument that means
  substring, with an array argument it means membership. A stage list runs the chain left to
  right, and the first stage that does not continue decides. A stopping gate answers with a
  redirect to `/login` or with 403 "no autorizado.".
- **Route table** (`routes.dfy`). All 41 registrations are listed with their chains, as the
  source writes them. Each route's chain is proved against an access policy stated without
  reference to the chains, for anonymous requests and for each of the four roles.
- **Menu** (`menu.dfy`). `navbar` is a filter over the ten options, kept in declaration order.
  It is proved exactly per role. Every link a role is shown leads to a route that admits that
  role.
- **Report switch** (`reports.dfy`). This is the `/filtrar-pacientes` dispatch.
- **Searches** (`search.dfy`). The `/buscar-*` endpoints bind the pattern `'%' + q + '%'` and
  match it with SQL `LIKE` (`%` and `_` only). The searched column is a value that may be NULL,
  and a NULL column never matches, whatever the pattern. A refused query is answered 500 with
  a JSON error.
- **Database** (`store.dfy`). The database behind the shared connection is a class. Its
  fields are the tables and a snapshot of the tables taken at `beginTransaction`. `rollback`
  restores the snapshot, and `commit` discards it.
- **Transactions and handlers** (`transactions.dfy`, `forms.dfy`, `accounts.dfy`,
  `spreadsheet.dfy`). The handlers are:
  - the begin/insert/commit protocol;
  - the four single-row form handlers with their required-field checks;
  - registration, with the access-code lookup;
  - sign-in;
  - the `/upload-x` bulk import.

  The form, registration and bulk-import handlers are methods on the database. Each is
  proved equal to a pure outcome function of the inputs, the database faults and the old
  tables; the form and import ones also take the gate verdict. The promises are proved as
  lemmas about those functions. Sign-in is the pure function `Accounts.Login` over the
  users table.
- **PDF reports** (`pdf.dfy`). The two PDF reports lay out their table with nested loops, and
  the model keeps those loops. Column offsets are sums of the preceding widths, and row
  heights advance by 20.

Two access rules hold for most routes but not for all of them. The model follows the code
where it departs from them:

- A search endpoint should admit exactly the users its page admits. Three of them do
  (`SearchGatesMatchPages`). `/buscar-equipos` does not: it needs a login only, while
  `/equipos` needs the role `ingeniero` (`EquipmentSearchWiderThanPage`).
- A route's gates should run before anything else on it, as they do on `/upload-pdf`
  (`UploadPdfRoute`). `/upload-x` and `/upload-e-x` run the upload stage before `requireRole`
  and have no `requireLogin`. An anonymous request therefore has its file stored and then
  gets 403 (`UploadStoredBeforeRoleCheck`).

Other behaviour of the code that the model keeps:

- The option `/ver-mis-datos` lists the role `'pacientes'`, so none of the four roles sees the link. The
  route itself still admits `paciente`, because `requireRole('pacientes')` does a substring
  test (`VerMisDatosAdmittedButUnlinked`).
- `/promedio-pacientes` passes the whole session object to `navbar`, and the menu it builds is
  empty (`NonStringMenuIsEmpty`).
- `/submit-data` is gated by `requireLogin` alone, so any signed-in role may add a patient.

## Model

| member | source | states |
|---|---|---|
| Auth.Includes | server.js:75 | `role.includes(tipo_usuario)`: substring search on a string argument, membership on an array (properties in `StringArgumentIsSubstring`) |
| Auth.RequireLogin | server.js:66-71 | continues exactly when there is a session user; otherwise redirects to `/login`, never 403 |
| Auth.RequireRole | server.js:73-83 | continues exactly when a session user exists and the argument includes its role; a denial is always 403, never a redirect |
| Auth.Answer | server.js:66-83 | a stopping gate sends the `/login` redirect or status 403 with "no autorizado." |
| Auth.StringArgumentIsSubstring | server.js:75 | with a string argument, `includes` admits every role that occurs as a substring of it |
| Auth.PacientesAdmitsPaciente | server.js:367 | `requireRole('pacientes')` admits a session user whose role is `paciente` |
| Auth.Run | server.js:66-83 | a route's chain run stage by stage: the first stage that does not continue answers, otherwise the handler runs (properties in the three lemmas below) |
| Auth.RunContinuesIffAllAdmit | server.js:66-83 | a chain reaches the handler exactly when every stage continues |
| Auth.SignedInNeverRedirected | server.js:66-83 | a signed-in user is never redirected to `/login`, whatever the chain |
| Auth.AnonymousDecidedByFirstGate | server.js:66-83 | an anonymous request is decided by the first gate in the chain: a redirect for `requireLogin`, 403 for `requireRole` |
| Auth.ExecutedIsDecidingPrefix | server.js:66-83 | the stages that run are a prefix of the chain, each of them but the last continued, the last one is the one that decided, and a chain that lets the request through ran in full |
| Routes.VerbOf | server.js:115-1759 | the HTTP verb each route is registered under |
| Routes.PathOf | server.js:115-1759 | the path each route is registered at |
| Routes.Stages | server.js:115-1759 | the middleware chain of each of the 41 registrations, as written (checked against the policy by `RouteTableMeetsPolicy`) |
| Routes.StringGatesOnKnownRoles | server.js:73-83 | on the four known roles, each string argument the routes pass to `requireRole` admits its own role, and `'pacientes'` admits `paciente` |
| Routes.OpenRoutes | server.js:115-233 | registration, login and logout admit every request |
| Routes.SignedInRoutes | server.js:223 | `/`, `/tipo-usuario`, `GET /gestionar`, `/submit-data`, `/medicos`, `/buscar-medicos` and `/buscar-equipos`, behind `requireLogin` alone, admit every session user and redirect anonymous requests |
| Routes.AdminStringRoutes | server.js:238 | `/usuarios`, `/buscar-usuarios`, `/eliminar-registros` and `GET /hospital`, behind `requireRole('admin')`, admit only `admin` among the known roles |
| Routes.AdminListRoutes | server.js:945 | `POST /hospital` admits only `admin` |
| Routes.AdminIngenieroRoutes | server.js:320 | `POST /gestionar`, `/g-equipos` and `/insertar-equipo` admit `admin` and `ingeniero` |
| Routes.VerMisDatosRoute | server.js:367 | `/ver-mis-datos` admits `paciente` and no other known role |
| Routes.AdminMedicoRoutes | server.js:579 | `/pacientes`, `/buscar-pacientes`, `/filtrar-pacientes`, `/ordenar-pacientes`, `/insertar-medico`, `/pacientes-x`, `/pacientes-pdf` and `/equipos-e-x` admit `admin` and `médico` |
| Routes.PromedioRoute | server.js:1608 | `/promedio-pacientes` admits `médico` and `admin` |
| Routes.MedicoRoutes | server.js:855 | `/registrarme`, `/mis-pacientes`, `/mis-equipos`, `/download-pdf` and `/download-e-pdf`, behind `requireRole('médico')`, admit only `médico` |
| Routes.UploadPdfRoute | server.js:1506 | `/upload-pdf` admits only `médico`; a request its gates refuse is answered before the upload stage runs |
| Routes.IngenieroRoute | server.js:1196 | `/equipos` admits only `ingeniero` |
| Routes.SpreadsheetUploadRoutes | server.js:1420 | `/upload-x` and `/upload-e-x` admit `admin` and `médico`; an anonymous request gets 403, not a redirect |
| Routes.SpreadsheetDownloadRoutes | server.js:1487 | `/download-x` and `/download-e-x` admit `admin` and `médico`; an anonymous request gets 403 |
| Routes.RouteTableMeetsPolicy | server.js:115-1759 | every route answers anonymous requests and the four roles as the access policy says |
| Routes.SearchGatesMatchPages | server.js:304 | `/buscar-usuarios`, `/buscar-pacientes`, `/filtrar-pacientes` and `/buscar-medicos` have the same gates as `/usuarios`, `/pacientes` and `/medicos` |
| Routes.EquipmentSearchWiderThanPage | server.js:1270 | a patient is refused `/equipos` (line 1196) but may run `/buscar-equipos` |
| Routes.UploadStoredBeforeRoleCheck | server.js:1420 | an anonymous `/upload-x` stores the file and is then refused with 403; an anonymous `/upload-pdf` (line 1506) is redirected before any upload |
| Menu.ShownTo | server.js:100 | `opcion.roles?.includes(tipo_usuario)`: array membership, which a non-string argument never satisfies |
| Menu.Visible | server.js:99-100 | the options `navbar` keeps for its argument (properties in `VisibleExactly` and the per-role menus) |
| Menu.ItemHtml | server.js:101 | the `<li>` template of one option, with its path and its label |
| Menu.ItemsHtml | server.js:101 | one rendered item per kept option, in the same order |
| Menu.NavbarItems | server.js:99-102 | `itemsNavbar`: the rendered items of the visible options, joined with no separator (an empty string for a non-string argument, `NonStringMenuIsEmpty`) |
| Menu.VisibleFromIsFilter | server.js:99-100 | the index walk over the options is the filter by `roles.includes(t)`, in declaration order |
| Menu.VisibleExactly | server.js:86-100 | an option is shown exactly when its roles list contains the argument |
| Menu.HomeAndLogoutForEveryRole | server.js:87-96 | `/` and `/logout` are shown to all four roles |
| Menu.VerMisDatosHiddenFromKnownRoles | server.js:95 | `/ver-mis-datos` is shown to none of the four roles |
| Menu.NonStringMenuIsEmpty | server.js:1609-1610 | a non-string argument, such as the session object passed here, yields an empty menu |
| Menu.AdminMenu | server.js:86-100 | `admin` sees Inicio, Usuarios, Gestionar and Cerrar sesión, in that order |
| Menu.MedicoMenu | server.js:86-100 | `médico` sees Inicio, Mis equipos, Mis pacientes, Pacientes and Cerrar sesión |
| Menu.IngenieroMenu | server.js:86-100 | `ingeniero` sees Inicio, Equipos, Ver médicos and Cerrar sesión |
| Menu.PacienteMenu | server.js:86-100 | `paciente` sees Inicio, Ver médicos and Cerrar sesión |
| Menu.LinkTargetsMatchPaths | server.js:87-96 | each menu path is the path of a registered GET route |
| Menu.MenuLinksAreAdmitted | server.js:86-100 | every link a role is shown leads to a route that admits that role |
| Menu.VerMisDatosAdmittedButUnlinked | server.js:367 | `paciente` may open `/ver-mis-datos` but no menu option (line 95) links to it |
| Http.Truthy | server.js:447 | JavaScript truthiness of a body or query field: present and not the empty string |
| Http.AllTruthy | server.js:447 | the field check passes exactly when every field is present and non-empty; the same check guards `/insertar-medico`, `POST /hospital` and `/insertar-equipo` |
| Http.OrElse | server.js:305 | `x or fallback` gives the parameter when it is a non-empty string and the fallback otherwise |
| Reports.Select | server.js:698-770 | the `switch` on the filter key, choosing the report query (properties in `Dispatch`) |
| Reports.Dispatch | server.js:694-770 | the report is the plain listing exactly when the filter is missing, empty or not one of the eight keys; otherwise it is the report that key names |
| Reports.SelectKeyOf | server.js:698-770 | every report is reached by its own key |
| Reports.UnknownKeyFallsBack | server.js:765-768 | a key outside the eight named ones runs the same query as `'all'` |
| Strings.Like | server.js:306 | SQL `LIKE` with `%` and `_` (properties in the lemmas below) |
| Strings.Contains | server.js:75 | `String.prototype.includes`, trying each starting position from the left |
| Strings.ContainsIsSubstring | server.js:75 | `includes` on strings holds exactly when the argument occurs as a substring |
| Strings.SurroundedPatternIsSubstring | server.js:307 | the pattern `%q%` with no metacharacters in `q` matches exactly the strings containing `q` |
| Strings.EmptyPatternMatchesAll | server.js:305-307 | `%%` matches every string |
| Search.Pattern | server.js:305-307 | the bound pattern `'%' + q + '%'`, `q` defaulting to `''` |
| Search.Run | server.js:306-307 | the `LIKE` query over the view's rows; no row whose searched column is NULL is returned |
| Search.LikeValue | server.js:306 | `column LIKE ?` in the `WHERE` clause: a NULL column never matches |
| Search.Respond | server.js:305-311 | a refused query is answered 500 with the handler's own JSON error and no rows; otherwise the rows sent are exactly those whose column matches the pattern; the other three searches (lines 683-689, 1095-1101, 1271-1277, each with its own error text) have the same shape |
| Search.EmptyQueryListsAll | server.js:305-307 | a missing or empty query returns exactly the rows whose column is not NULL, in order, which is every row when no column is NULL |
| Search.PlainQueryIsSubstringSearch | server.js:305-307 | a query with no metacharacters returns exactly the rows whose column is not NULL and contains it, in order |
| Search.PercentQueryListsAll | server.js:305-307 | the query is not escaped: `%` returns the same rows as an empty query |
| Seqs.Filter | server.js:100 | the filter keeps exactly the elements that satisfy the predicate and never adds any |
| Seqs.Concat | server.js:102 | `join('')`: the parts concatenated with no separator |
| Store.Matches | server.js:209 | `compareSync` of a password against a stored digest (properties in `HashAcceptsOnlyItsPassword`) |
| Store.Hash | server.js:150 | the digest is made with work factor 10 |
| Store.HashAcceptsOnlyItsPassword | server.js:210-211 | `compareSync` accepts the password the digest (made at line 150) was made from and no other |
| Store.Apply | server.js:151 | an insert never touches the access codes |
| Store.ApplyOnlyAppends | server.js:457 | an insert appends its rows to its own table and leaves the other tables as they were; likewise for the inserts at lines 151, 874, 961, 1125 and 1448 |
| Store.Database.constructor | server.js:51-56 | the database starts with the given tables and no open transaction |
| Store.Database.Begin | server.js:122 | on success the current tables become the snapshot; on failure no transaction is open |
| Store.Database.LookupAccessCode | server.js:128-129 | the code's role, or nothing when the query fails or no row matches |
| Store.Database.Execute | server.js:1450 | a successful insert applies all its rows; a refused one changes nothing |
| Store.Database.Commit | server.js:173 | on success the writes stay and the transaction ends; on failure it stays open |
| Store.Database.Rollback | server.js:175 | the tables return to the snapshot taken at begin |
| Transactions.WriteStatus | server.js:451-488 | the transaction commits exactly when begin, insert and commit all succeed |
| Transactions.After | server.js:451-488 | the tables after a transaction: the insert applied on commit, the old tables after any rollback |
| Transactions.Transact | server.js:451-488 | begin, insert, commit: the tables gain the rows on commit and are exactly the old ones otherwise; no transaction stays open |
| Forms.Bind | server.js:457-458 | a present field is bound as its text, an absent one as NULL |
| Forms.FormOutcome | server.js:440-530 | the reply and the tables a form handler leaves, from the gate verdict, the fields, the insert, the faults and the old tables (properties in `FormContract`) |
| Forms.FormReply | server.js:452-488 | a refused begin or commit gives 500 "Error al procesar la solicitud"; a refused insert gives the failure page; a commit gives the success page |
| Forms.FormContract | server.js:440-530 | a refused or incomplete request leaves the store as it was (400 before any transaction); the success page comes exactly when the gates admit, all fields are present and no step fails, and only then is the row added; the medic, hospital and equipment handlers have the same shape |
| Forms.HandleForm | server.js:440-530 | runs the gate verdict, the field check and the transaction as the outcome function says |
| Forms.PatientFields | server.js:445-447 | the seven fields `/submit-data` checks |
| Forms.PatientFieldsRequired | server.js:445-449 | `/submit-data` passes its field check exactly when all seven fields are present and non-empty |
| Forms.PatientRow | server.js:457-458 | the patient row binds the form fields in column order, `peso` before `altura` |
| Forms.SubmitData | server.js:440-530 | `POST /submit-data`: its gate, its field check and its transaction, as the outcome function says |
| Forms.DoctorFields | server.js:862-864 | the three fields `/insertar-medico` checks |
| Forms.DoctorFieldsRequired | server.js:862-866 | `/insertar-medico` passes its field check exactly when all three fields are present and non-empty |
| Forms.InsertDoctor | server.js:859-938 | `POST /insertar-medico`, as the outcome function says |
| Forms.HospitalFields | server.js:949-951 | the two fields `POST /hospital` checks |
| Forms.HospitalFieldsRequired | server.js:949-953 | `POST /hospital` passes its field check exactly when both fields are present and non-empty |
| Forms.InsertHospital | server.js:945-1025 | `POST /hospital`, as the outcome function says |
| Forms.EquipmentRow | server.js:1125-1126 | the equipment row binds the six form fields in the column order of the insert |
| Forms.EquipmentFields | server.js:1113-1115 | the six fields `/insertar-equipo` checks |
| Forms.EquipmentFieldsRequired | server.js:1113-1117 | `/insertar-equipo` passes its field check exactly when all six fields are present and non-empty |
| Forms.InsertEquipment | server.js:1110-1193 | `POST /insertar-equipo`, as the outcome function says |
| Forms.HeadingsDistinguishOutcome | server.js:471-498 | each handler's failure and success headings differ |
| Forms.SubmittedPatientStored | server.js:440-530 | after the success page the patients gain exactly the submitted row and the users and doctors are unchanged; after any other reply the tables are unchanged |
| Accounts.RegisterOutcome | server.js:119-186 | the reply and the tables `/registrar` leaves, step by step: begin, code lookup, insert, commit (properties in `RegistrationContract`) |
| Accounts.Register | server.js:119-186 | `POST /registrar` on the database, as the registration outcome says |
| Accounts.RegistrationContract | server.js:119-186 | only full success redirects to `/login`; it adds exactly one user with the digest of the password and the code's role and changes nothing else; an unknown code or any failed step leaves the tables unchanged |
| Accounts.FindUser | server.js:197-208 | `results[0]` of the name query |
| Accounts.FindUserIsFirst | server.js:197-208 | the lookup finds nothing exactly when no user has the name, and otherwise the user at the first position holding it |
| Accounts.FindUserAppend | server.js:197-208 | a user appended at the end is found only when no earlier user has the name |
| Accounts.Login | server.js:193-221 | a session is opened exactly when the query succeeds, the name exists and the password matches, and it holds the stored user's name and role with a redirect to `/`; a refused query, an unknown name and a wrong password are answered with status 200 and, respectively, "Error al obtener el usuario", "Usuario no encontrado" and "Contraseña incorrecta"; they store nothing in the session, so a user already signed in stays signed in |
| Accounts.RegisteredUserCanSignIn | server.js:119-221 | after a successful registration under a new name, signing in with the same password opens a session with the code's role |
| Accounts.DuplicateNameShadowed | server.js:119-221 | registering a name already taken does not change what signing in under that name gives |
| Spreadsheet.Cell | server.js:1440-1446 | a column without a cell is bound as NULL |
| Spreadsheet.RowTuple | server.js:1438-1446 | the tuple of one sheet row, its columns in the insert's order |
| Spreadsheet.RowTuples | server.js:1440-1446 | one tuple per sheet row, in order, each the row's columns in insert order |
| Spreadsheet.RowTuplesAppend | server.js:1440-1446 | the tuples of two concatenated sheets are the first sheet's tuples followed by the second's |
| Spreadsheet.UploadOutcome | server.js:1420-1484 | the reply and the tables `/upload-x` leaves, from the gate verdict, the rows, the faults and the old tables (properties in `UploadContract`) |
| Spreadsheet.UploadContract | server.js:1420-1484 | an empty sheet gets 400 and changes nothing; the success page comes exactly when the gates admit, the sheet has rows and no step fails; then every tuple is appended in order and nothing else changes; otherwise the tables are unchanged |
| Spreadsheet.UploadPatients | server.js:1420-1484 | `POST /upload-x` on the database, as the import outcome says |
| Spreadsheet.SheetRowMatchesForm | server.js:1440-1448 | a sheet row with the form's columns is stored as the same patient the form at line 457 would store |
| PdfLayout.Offset | server.js:1581 | the x position of a column, the sum of the widths before it |
| PdfLayout.OffsetStep | server.js:1581 | each column starts where the previous one ends |
| PdfLayout.ColumnOffsets | server.js:1577 | the seven columns start at 0, 50, 150, 250, 300, 350 and 400, and the table ends at 550; the equipment report uses the same widths |
| PdfLayout.TextOf | server.js:1588 | `cell.toString()`: a value's text; on a NULL cell the call throws, which the drawing loop treats as stopping |
| PdfLayout.Cells | server.js:1580-1582 | a row's cells carry its texts at one height, each cell abutting the next |
| PdfLayout.CellsAtOffsets | server.js:1581 | cell `i` of a row starts at the sum of the widths before column `i` and is `columnWidths[i]` wide |
| PdfLayout.GridPrefix | server.js:1586-1591 | the layout of the first k rows is a prefix of the layout of all of them |
| PdfLayout.ReportsFit | server.js:1566-1577 | both reports' headers and rows fit in the seven widths |
| PdfLayout.PatientTable | server.js:1567-1575 | one row of seven cells per patient result: id, name, surname, age, weight, height, heart rate |
| PdfLayout.EquipmentTable | server.js:1777-1783 | one row of five cells per equipment result: id, name, status, description, last maintenance |
| PdfLayout.Layout | server.js:1579-1591 | the whole table: the header cells at the top, then each result row one row height lower |
| PdfLayout.DrawHeaders | server.js:1579-1583 | the header loop draws one cell per header at the top position |
| PdfLayout.DrawRow | server.js:1587-1589 | the row loop completes exactly when no cell is NULL; otherwise it stops at a proper prefix of the row |
| PdfLayout.DrawTable | server.js:1579-1591 | drawing completes exactly when no result cell is NULL; then every cell is placed as the layout says and `y` ends one row below the last; otherwise the cells drawn are a proper prefix of the table; the equipment report draws the same way |
| PdfLayout.DrawPatientReport | server.js:1566-1591 | the patient report's table fits the seven widths; it completes exactly when no patient column is NULL, and then lays out the patient headers and one row per patient |
| PdfLayout.DrawEquipmentReport | server.js:1776-1799 | the equipment report's table fits the seven widths; it completes exactly when no equipment column is NULL, and then lays out the equipment headers and one row per item |

## Left out

- HTTP, sessions, static files, `res.sendFile` and `res.download` are framework I/O. Sessions are given as an optional user carrying name and role. Replies carry only the status, the plain text or the page heading, and a search reply its rows or its JSON error. Page HTML and client scripts are not modelled. Of the navigation bar, the options kept and their rendered items are modelled (`menu.dfy`); the markup around them is not.
- The MySQL server and its SQL are replaced by the in-memory tables. Whether a statement fails is a parameter of each database step and of each search (`Search.Respond`). The `if (err)` branches of the routes that only read (`/filtrar-pacientes` at line 773, `/ordenar-pacientes` at 786, `/mis-pacientes` at 1286, `/download-pdf` at 1552, `/promedio-pacientes` at 1612 and the like) are not modelled. Row ids, `AUTO_INCREMENT`, views, joins and the `AVG`/`COUNT` aggregates are computed by the database and are not modelled. `/filtrar-pacientes` is modelled only as the choice of query.
- Concurrency on the one shared connection is not modelled. Two requests interleaving their transactions would share one transaction in the source; each handler here runs alone.
- `bcrypt` is modelled symbolically. The salt is a parameter, and `compareSync` compares the passwords. The 72-byte truncation is left out.
- `codigos_acceso` is a map, so a code names at most one role. The source reads `results[0]` and does not depend on more.
- Accounts.Register: the body fields are taken as strings. An absent password makes `bcrypt.hashSync` throw, and an absent name is bound as NULL (line 153); neither case is modelled.
- Accounts.Login: "the first user with that name" assumes the database returns rows in insertion order. SQL leaves that order unspecified.
- Accounts.Login: the body fields are taken as strings. An absent password makes `bcrypt.compareSync` throw inside the query callback, and an absent name finds no row; neither case is modelled.
- Accounts.FindUser: the name is compared exactly. Depending on the column's collation, the `=` at line 197 may compare case-insensitively (as the `_ci` collations do) or ignore trailing spaces (as the PAD SPACE collations do), so the source may find a user whose stored name differs from the one given.
- Store.Database.LookupAccessCode: the code is looked up exactly in a map. The `=` at line 128 compares under the column's collation, which may also accept a code differing in case.
- Search.Run: the rows are returned in the view's order. A `SELECT` without `ORDER BY` does not promise an order, so "in order" in the search lemmas holds only for a database that keeps it.
- Routes.RouteTableMeetsPolicy: the access policy is proved for anonymous requests and the four roles only. The roles come from `codigos_acceso`, and nothing in the server checks them; the model assumes the access codes hand out only those four. Any other stored role is judged by `requireRole`'s substring test (`StringArgumentIsSubstring`), under which a role such as `""` or `"dmin"` passes `requireRole('admin')`.
- Query and body parameters are strings or absent. Arrays and objects that the query parser can produce are not modelled.
- `LIKE` escapes with `\`, case-insensitive collations and accent folding are not modelled. The search lemmas cover queries without `%`, `_` and `\`, plus the `%` query.
- `xlsx` parsing and PDFKit rendering are foreign libraries. The sheet is given as parsed rows, and the PDF as the cells drawn with their coordinates. Page breaks, fonts and the `doc.y` start position (a parameter) are not modelled.
- Spreadsheet.UploadPatients: a request without a file makes `req.file.path` throw before any check. That case is not modelled; the rows are given.
- `/upload-e-x` binds a malformed SQL string, so its insert has no defined behaviour. Only its gate chain is modelled.
- `/gestionar` (the generic column update), `/eliminar-registros` (the generic delete) and the `archivos_pdf` insert of `/upload-pdf` are not modelled beyond their gates. They build SQL from request text and are outside the core.
- Multer storage, file names drawn from `Date.now()` and `Math.random()`, and the size and MIME limits are not modelled. The upload stage is a chain stage that always continues.
- PdfLayout.DrawTable: a NULL cell makes `toString` throw inside a database callback, which crashes the process. The model stops drawing and reports that it did not complete.
