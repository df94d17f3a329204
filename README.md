# Bodega: a verified model of the tool-lending back end

Bodega is a small warehouse system: tools (`herramientas`) are lent to requesters
(`solicitantes`) as loans (`prestamos`) and come back as returns (`devoluciones`).
Every tool splits its `stock_total` between the warehouse (`en_bodega`) and the
loans (`prestadas`). An Express server answers JSON over a SQLite database, behind
an authentication middleware that checks a bearer JWT and, in its strict form, a
server-side session table.

This Dafny project models three pieces of that system and proves their properties.

- **Bookkeeping** (`bookkeeping.dfy`, `server.dfy`). The write handlers of `server.js`:
  - tool create, update and delete;
  - loan and return creation;
  - the delete guards for categories and requesters;
  - requester registration;
  - the self-protection rules of the user delete and update.

  `Bookkeeping` gives each handler as a pure transition `Db -> Step(response, after)`.
  Its contracts state the success conditions as if-and-only-ifs, the 400/404 answers,
  "unchanged on error", and the whole new state. They also state that loans and returns
  keep `en_bodega + prestadas` and that completed loans stay untouched. `Server.Store` is
  the same database as a mutable object. Its methods run the statements in the source's
  order: lookup, INSERT, guarded UPDATE, ROLLBACK. Each method is proved to end in the
  state and answer of its transition.
- **Strict authentication** (`jwt.dfy`, `auth.dfy`). `AuthMiddleware` of
  `middleware/auth.js`: the session table (create, verify, invalidate, sweep), the
  `authenticate` chain and the `authorize` role check.
- **JWT-only authentication** (`auth_simple.dfy`). The variant of
  `middleware/auth_simple.js`, which never reads the session table. It is kept
  separate and compared with the strict one.
- **CSV export** (`csv.dfy`). The `esc` quoting, the record and document joins, the
  loop that builds the lines, and a parser for the output that inverts it.

Conventions:
- Times are integer milliseconds and dates are integer day numbers.
- A JavaScript "falsy" field is `""`, `0` or `None`.
- SQL NULL is `None`.
- The JWT check is a function parameter `Jwt.Verifier`.
- Row ids come from a per-table counter that never reuses an id. This assumes the
  tables are declared with AUTOINCREMENT; the SQL schema is not part of this model.
  Without AUTOINCREMENT, SQLite can hand out again the largest id after a delete. A
  rolled-back insert restores the counter.
- A new loan is 'Activo'. The loan INSERT (server.js:613-620) binds no `estado`, so
  this assumes the schema's column default is 'Activo'.

## Model

| member | source | states |
|---|---|---|
| Jwt.BearerToken | middleware/auth.js:127-134 | removing the first `Bearer ` anywhere in the header yields the token; the token is missing exactly when the header is absent or the removal leaves the empty string |
| Jwt.RemoveFirstAbsent | middleware/auth.js:127 | `replace` leaves a header without `Bearer ` unchanged |
| Jwt.RemoveFirstAt | middleware/auth.js:127 | `replace` removes exactly the first occurrence, wherever it is |
| Jwt.BearerHeaderYieldsToken | middleware/auth.js:127 | `Bearer <t>` with a non-empty t yields t |
| Jwt.HeaderWithoutPrefixIsToken | middleware/auth.js:127 | a non-empty header without the prefix is itself taken as the token |
| Jwt.BarePrefixIsMissingToken | middleware/auth.js:127-134 | a header of just `Bearer ` counts as a missing token |
| Auth.FindSession | middleware/auth.js:67-84 | `verifySession` (`Auth.AuthMiddleware.VerifySession` applies it to the middleware's own table) finds nothing iff no row has the token, is active, unexpired and belongs to an existing user; otherwise it answers the first such row joined with its user |
| Auth.Swept | middleware/auth.js:102-118 | the sweep deactivates exactly the active rows with expiry at or before now, and changes nothing else |
| Auth.Invalidated | middleware/auth.js:87-99 | logout deactivates every row carrying the token, and changes nothing else |
| Auth.Check | middleware/auth.js:127-164 | every refusal is a 401; missing token gives 'Token no proporcionado'; a JWT the oracle rejects gives 'Token inválido o expirado' before any lookup; success iff a token, a valid JWT and a verifying session row exist, with the context taken from the first such row |
| Auth.Authorize | middleware/auth.js:176-190 | 401 iff no user context; pass iff the role list is empty or holds the user's role; otherwise 403 |
| Auth.Request.constructor | middleware/auth.js:122 | a request starts with its header and no user context |
| Auth.AuthMiddleware.constructor | middleware/auth.js:5-9 | the middleware opens on whatever `sesiones` rows the database file already holds, with its id counter past every stored id |
| Auth.AuthMiddleware.CreateSession | middleware/auth.js:47-64 | appends one active row expiring `SessionTimeout` (15 minutes) after now, with a fresh id, and answers it with the token |
| Auth.AuthMiddleware.InvalidateSession | middleware/auth.js:87-99 | the table becomes `Invalidated` and the change count is the number of rows with the token |
| Auth.AuthMiddleware.CleanupExpiredSessions | middleware/auth.js:102-118 | the table becomes `Swept` and the change count is the number of expired active rows |
| Auth.AuthMiddleware.Authenticate | middleware/auth.js:121-173 | sweeps first, then answers as `Check` on the swept table and sets `req.usuario` only on success; a failing sweep or lookup answers 500 |
| Auth.InvalidateThenVerifyFails | middleware/auth.js:87-99 | after invalidate, verify finds nothing for that token |
| Auth.SweepIdempotent | middleware/auth.js:102-118 | a second sweep at the same time changes nothing and counts no changes |
| Auth.SweepKeepsVerify | middleware/auth.js:102-118 | the sweep never changes a verify result at the sweep time or later |
| Auth.SweepKeepsCheck | middleware/auth.js:125 | the sweep at the start of `authenticate` never changes its decision |
| Auth.LogoutRevokes | middleware/auth.js:146-152 | after logout the token is refused with 401 whatever the JWT check says |
| Auth.ExpiredSessionRefused | middleware/auth.js:146-152 | a token whose rows have all expired is refused with 401 |
| Auth.FreshSessionAuthenticates | middleware/auth.js:121-164 | a session just created for an existing user, with a valid JWT, authenticates every request before it expires |
| Auth.EmptyRoleListAllowsEveryone | middleware/auth.js:176-188 | an empty role list passes every authenticated user |
| Auth.AuthorizeMonotone | middleware/auth.js:182 | widening a non-empty role list never refuses a user it accepted |
| AuthSimple.Check | middleware/auth_simple.js:57-86 | every refusal is a 401; a missing token gives 'Token no proporcionado'; a JWT the oracle rejects gives 'Token inválido o expirado'; success iff a token whose JWT verifies, with the context taken from the claims and the token |
| AuthSimple.Authorize | middleware/auth_simple.js:98-112 | 401 iff no user context; pass iff the list is empty or holds the role; otherwise 403 |
| AuthSimple.Request.constructor | middleware/auth_simple.js:58 | a request starts with its header and no user context |
| AuthSimple.AuthMiddleware.constructor | middleware/auth_simple.js:4-8 | the middleware opens on whatever `sesiones` rows the database file already holds, with its id counter past every stored id |
| AuthSimple.AuthMiddleware.CreateSession | middleware/auth_simple.js:37-54 | appends one active row expiring 15 minutes after now, with a fresh id |
| AuthSimple.AuthMiddleware.Authenticate | middleware/auth_simple.js:57-95 | answers as `Check` and sets `req.usuario` from the claims only on success, without any session state |
| AuthSimple.AuthorizeAgreesWithStrict | middleware/auth_simple.js:98-112 | both variants make the same 401/403/pass decision for the same role, a null role included |
| AuthSimple.LogoutDoesNotRevoke | middleware/auth_simple.js:57-86 | after logout, a token whose JWT still verifies is accepted by this variant and refused by the strict one |
| AuthSimple.StrictAcceptanceImpliesSimple | middleware/auth_simple.js:57-86 | whatever the strict variant accepts, this one accepts with the same token |
| Csv.Esc | server.js:262-266 | NULL becomes the empty string and every other value is wrapped in double quotes |
| Csv.DoubleQuotes | server.js:264 | doubling the quotes never shortens the text; `ReadQuotedEscaped` proves a reader recovers the original from it |
| Csv.DoubleQuotesKeepsPlainText | server.js:264 | text without a double quote is unchanged, and text with one grows |
| Csv.BuildCsv | server.js:259-270 | the loop that pushes one line per row yields the header line followed by the escaped, comma-joined records, joined with newlines; the loan export at lines 293-304 builds its document the same way |
| Csv.LineRoundTrip | server.js:262-267 | parsing an escaped record gives back its cells: nothing for NULL, the exact text for every other value (section 2 of RFC 4180) |
| Csv.ReadQuotedEscaped | server.js:264-265 | a quoted field with doubled quotes reads back as the original text |
| Csv.DocumentStartsWithHeader | server.js:259-270 | the document begins with the header line, followed by a newline when there are rows |
| Bookkeeping.Lend | server.js:631-637 | a stock move shifts exactly q from the warehouse to the loans, keeps their sum, and changes nothing else in the tool |
| Bookkeeping.CreateTool | server.js:132-154 | succeeds iff codigo, nombre, categoria_id and stock_total are truthy, else 400 with nothing changed; the new tool has its whole stock in the warehouse, none lent, and estado 'Activo' unless given |
| Bookkeeping.EnBodegaFinal | server.js:186-193 | an explicit en_bodega wins; otherwise the result is the smaller of the current value and a numeric stock_total, or the current value |
| Bookkeeping.UpdateTool | server.js:157-209 | 404 with nothing changed iff the tool is unknown; otherwise only that tool changes, every column taken from the body and en_bodega/prestadas falling back as `enBodegaFinal`/`prestadasFinal` say |
| Bookkeeping.DeleteTool | server.js:212-241 | 400 iff an active loan uses the tool; else 404 iff absent; else only that tool is removed |
| Bookkeeping.DeleteCategory | server.js:541-555 | 400 iff any tool references the category; else 404 iff absent; else only the category is removed |
| Bookkeeping.DeleteRequester | server.js:783-809 | 400 iff the requester has an active loan; else 404 iff absent; else only the requester is removed |
| Bookkeeping.CreateLoan | server.js:598-653 | succeeds iff the fields are truthy and the tool exists with en_bodega ≥ q; missing fields give 400 and a short or unknown tool gives 400 'No hay suficiente stock disponible', both with nothing changed; success inserts an Activo loan of q, lends q on that tool only, keeps every tool's sum and every completed loan |
| Bookkeeping.Condition | server.js:700-702 | the recorded condition is the one sent, or 'Buena' when it is empty |
| Bookkeeping.Returned | server.js:725-732 | a return of q ≥ outstanding completes the loan with 0 outstanding; a smaller one keeps it Activo with q less |
| Bookkeeping.CreateReturn | server.js:669-744 | succeeds iff the fields are truthy and the loan is Activo; missing fields give 400 and any other loan id gives 404, both with nothing changed; success appends the return row with dias_uso = return day − fecha_salida, moves q back on the loan's tool, uncapped, and completes or reduces the loan |
| Bookkeeping.Register | server.js:813-855 | 400 iff a field is missing or a requester has the same name or (when sent) e-mail; otherwise inserts the requester with a fresh id |
| Bookkeeping.DeleteUser | server.js:1105-1127 | deleting one's own account is 400; otherwise the user is removed, or 404 iff absent |
| Bookkeeping.UpdateUser | server.js:1130-1155 | a non-empty role for one's own account that differs from one's role is 400; otherwise the five columns are overwritten, or 404 iff absent |
| Bookkeeping.LoanThenFullReturnRestoresTools | server.js:598-744 | a loan of q followed by a return of q on it completes the loan and leaves every tool as it was |
| Bookkeeping.LentToolCannotBeDeleted | server.js:212-241 | after a loan, deleting its tool is refused with 400 |
| Bookkeeping.FullReturnReleasesRequester | server.js:783-809 | once a requester's only active loan is fully returned, the requester can be deleted |
| Bookkeeping.RegisterTwiceFails | server.js:813-855 | registering the same requester twice is refused the second time |
| Bookkeeping.CreateToolKeepsBalance | server.js:132-154 | if every tool has stock_total = en_bodega + prestadas, that still holds after a tool is created |
| Bookkeeping.LoanKeepsBalance | server.js:598-653 | every tool balanced before a loan is still balanced after it |
| Bookkeeping.ReturnKeepsBalance | server.js:669-744 | every tool balanced before a return is still balanced after it, over-returns included |
| Bookkeeping.DeletesKeepBalance | server.js:212-241 | deleting a tool, a category or a requester keeps every remaining tool balanced |
| Bookkeeping.LoanExample | server.js:598-653 | ten units in the warehouse, a loan of three leaves seven in the warehouse and three lent |
| Bookkeeping.ReturnExample | server.js:669-744 | returning those three units four days later restores ten and zero, completes the loan and records four days of use in 'Buena' condition |
| Bookkeeping.OverReturnIsNotCapped | server.js:711-732 | returning five units on a three-unit loan completes it and leaves twelve in the warehouse of a ten-unit tool and minus two lent |
| Bookkeeping.StockUpdateMayUnbalance | server.js:186-195 | an update that only lowers stock_total can leave en_bodega + prestadas different from stock_total |
| Bookkeeping.SelfUpdateWithoutRoleClearsRole | server.js:1133-1145 | an administrator updating their own account without a role is not refused, and their role column becomes NULL |
| Server.Store.constructor | server.js:19-33 | the store opens holding the given tables, which must satisfy the database invariant |
| Server.Store.MoveStock | server.js:631-637 | the guarded or unguarded stock UPDATE changes one row iff the tool exists (and holds enough when guarded), and nothing else |
| Server.Store.CreateTool | server.js:132-154 | ends in the state and answer of `Bookkeeping.CreateTool` |
| Server.Store.UpdateTool | server.js:157-209 | reads the current counts, then writes; ends as `Bookkeeping.UpdateTool` |
| Server.Store.DeleteTool | server.js:212-241 | counts active loans, then deletes; ends as `Bookkeeping.DeleteTool` |
| Server.Store.DeleteCategory | server.js:541-555 | counts the category's tools, then deletes; ends as `Bookkeeping.DeleteCategory` |
| Server.Store.DeleteRequester | server.js:783-809 | counts active loans, then deletes; ends as `Bookkeeping.DeleteRequester` |
| Server.Store.CreateLoan | server.js:598-653 | inserts the loan, runs the guarded UPDATE and rolls the insert back when no row changed; ends as `Bookkeeping.CreateLoan` and keeps the invariant |
| Server.Store.CreateReturn | server.js:669-744 | looks the loan up, inserts the return, moves the stock back, then completes or reduces the loan; ends as `Bookkeeping.CreateReturn` and keeps the invariant |
| Server.Store.Register | server.js:813-855 | looks for a duplicate, then inserts; ends as `Bookkeeping.Register` |
| Server.Store.DeleteUser | server.js:1105-1127 | ends as `Bookkeeping.DeleteUser` |
| Server.Store.UpdateUser | server.js:1130-1155 | ends as `Bookkeeping.UpdateUser` |

## Left out

- Database errors in the `server.js` handlers are not modelled: each handler is one atomic step that commits fully or leaves the store as it was. Most such errors answer 500, with two exceptions. An error in the loan's guarded stock UPDATE answers 400 'No hay suficiente stock disponible' (server.js:639-641). An error in the return's loan lookup answers 404 'Préstamo no encontrado o ya devuelto' (server.js:683-686). The strict `authenticate` does model a failing sweep or lookup as 500.
- Concurrency and callback order (`db.serialize`, `BEGIN`/`ROLLBACK`/`COMMIT`, asynchronous callbacks) are not modelled. Interleaved requests and a row deleted between a handler's read and its write are outside the model.
- The codes `PRES-<ms>` and `DEV-<ms>` come from the clock. They are taken as parameters.
- Date parsing is not modelled. The day difference of `moment` becomes a subtraction of day numbers. The session expiry comparison becomes integer milliseconds: the source compares an ISO string with SQLite's `datetime('now')` text, and that string-ordering quirk is not reproduced.
- Every refusal of `authenticate` also carries `redirect: '/login.html'` in its JSON body (middleware/auth.js:130-170, middleware/auth_simple.js:63-75). `Response` keeps only the status and the error message.
- JWT signing and verification and bcrypt are foreign cryptography. `verifyToken` is the function parameter `Jwt.Verifier`, and hashing is left out.
- `Bookkeeping.UpdateTool`: only a JSON number or an absent value is modelled for `stock_total`, `en_bodega` and `prestadas`. The source's `typeof stock_total === 'number'` test means a numeric string skips the clamp; that case is not represented.
- `Bookkeeping.CreateTool`: `estado` absent and `estado` null are both `None`, so both get 'Activo'. In the source only an absent value takes the default and null is stored as NULL.
- `Bookkeeping.DeleteUser`: path ids and user ids are compared as integers. The source compares their decimal strings (server.js:1109), while SQLite compares `WHERE id = ?` (server.js:1113) after integer conversion. So user 5 sending `DELETE /api/usuarios/05` passes the guard, because "5" and "05" differ, and deletes their own row. The model refuses that request.
- `Bookkeeping.UpdateUser`: the same integer comparison replaces the source's decimal-string comparison of the path id with the acting user's id (server.js:1135). With a path such as `05` an administrator passes the guard and changes their own role, since the UPDATE matches the row by integer value. The model refuses that request.
- Read-only routes are not modelled: the listings, the JOIN views, `/api/resumen` and `/api/estadisticas`, `/api/auth/verify` and `/api/auth/me`.
- Some write routes are not modelled:
  - login (server.js:910-990) creates a session and updates `fecha_ultimo_acceso`, and its password check is a demo stub;
  - logout's error path (server.js:1000-1008) answers 500 when the invalidation fails, while its table update is modelled by `Auth.AuthMiddleware.InvalidateSession`;
  - password change (server.js:1016-1074) updates `password_hash`;
  - category create and rename (server.js:509-538);
  - requester create (server.js:758-780).
- The Excel export, backup and restore, schema bootstrap, static files and `listen` of `server.js` are not modelled. They are file-system and library I/O.
- The front end (`public/app.js`, `public/login.js`), `server_backup.js`, `fix_routes.js`, `fix_routes_simple.js` and `scripts/init-db.js` are not part of this model.
- The SQL schema is not part of this model. Column constraints such as UNIQUE codes and foreign keys are not enforced, and the listed tables and columns are the ones the handlers use.
- The id answered by loan and return creation is the row just inserted, which is what the connection's last insert id holds when the guarded UPDATE completes.
