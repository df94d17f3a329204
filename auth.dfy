/** The session-checking authentication middleware: JWT check plus a `sesiones`
    table that is swept for expiry on every request and can be revoked on logout. */
module Auth {
  import opened Wrappers
  import opened Schema
  import Jwt

  /** `sessionTimeout`: 15 minutes, in milliseconds (times are `Date.now()` values). */
  const SessionTimeout: int := 15 * 60 * 1000

  const MissingToken: string := "Token no proporcionado"
  const InvalidToken: string := "Token inválido o expirado"
  const InvalidSession: string := "Sesión no válida o expirada"
  const AuthError: string := "Error en autenticación"
  const NotAuthenticated: string := "No autenticado"
  const Forbidden: string := "No tienes permisos para realizar esta acción"

  /** One `sesiones` row. */
  datatype Session = Session(
    id: int,
    usuario_id: int,
    token: string,
    fecha_expiracion: int,
    ip_address: Option<string>,
    user_agent: Option<string>,
    activa: bool)

  /** A row of the `verifySession` query: the session joined with its user. */
  datatype SessionRow = SessionRow(session: Session, usuario: User)

  /** `req.usuario` as the strict middleware sets it. */
  datatype UserContext = UserContext(
    id: int,
    nombre_usuario: string,
    nombre_completo: Option<string>,
    rol: Option<string>,
    departamento: Option<string>,
    token: string)

  /** Which store call of `authenticate` rejects, if any; a rejection is the error its
      `catch` turns into a 500. */
  datatype Fault = NoFault | SweepFault | LookupFault

  /** The WHERE clause and the inner JOIN of `verifySession`: same token, active, not
      yet expired, and its user still exists. */
  predicate Verifies(s: Session, usuarios: map<int, User>, token: string, now: int) {
    s.token == token && s.activa && s.fecha_expiracion > now && s.usuario_id in usuarios
  }

  /** i is the first row of the table that `verifySession` accepts. */
  predicate FirstVerifying(rows: seq<Session>, usuarios: map<int, User>, token: string, now: int, i: int) {
    0 <= i < |rows| && Verifies(rows[i], usuarios, token, now) &&
    forall j :: 0 <= j < i ==> !Verifies(rows[j], usuarios, token, now)
  }

  /** `verifySession(token)`: the first accepted row, joined with its user, or none. */
  function FindSession(rows: seq<Session>, usuarios: map<int, User>, token: string, now: int): (r: Option<SessionRow>)
    ensures r.None? <==> forall i :: 0 <= i < |rows| ==> !Verifies(rows[i], usuarios, token, now)
    ensures r.Some? ==> exists i :: FirstVerifying(rows, usuarios, token, now, i) &&
                          r.value == SessionRow(rows[i], usuarios[rows[i].usuario_id])
  {
    if rows == [] then None
    else if Verifies(rows[0], usuarios, token, now) then
      assert FirstVerifying(rows, usuarios, token, now, 0);
      Some(SessionRow(rows[0], usuarios[rows[0].usuario_id]))
    else
      var r := FindSession(rows[1..], usuarios, token, now);
      assert forall i :: 0 <= i < |rows[1..]| ==> rows[1..][i] == rows[i + 1];
      assert r.Some? ==> exists i :: FirstVerifying(rows, usuarios, token, now, i) &&
                           r.value == SessionRow(rows[i], usuarios[rows[i].usuario_id]) by {
        if r.Some? {
          var k :| FirstVerifying(rows[1..], usuarios, token, now, k) &&
                   r.value == SessionRow(rows[1..][k], usuarios[rows[1..][k].usuario_id]);
          assert FirstVerifying(rows, usuarios, token, now, k + 1);
        }
      }
      r
  }

  /** The row as `cleanupExpiredSessions` leaves it. */
  function Expire(s: Session, now: int): Session {
    if s.activa && s.fecha_expiracion <= now then s.(activa := false) else s
  }

  /** `cleanupExpiredSessions`: `UPDATE sesiones SET activa = 0 WHERE fecha_expiracion <= now
      AND activa = 1`. It deactivates exactly the active rows that have expired and
      changes nothing else. */
  function Swept(rows: seq<Session>, now: int): (r: seq<Session>)
    ensures |r| == |rows|
    ensures forall i :: 0 <= i < |rows| ==>
      r[i] == rows[i].(activa := rows[i].activa && rows[i].fecha_expiracion > now)
  {
    if rows == [] then [] else [Expire(rows[0], now)] + Swept(rows[1..], now)
  }

  /** `invalidateSession(token)`: `UPDATE sesiones SET activa = 0 WHERE token = ?`. It
      deactivates every row carrying the token and changes nothing else. */
  function Invalidated(rows: seq<Session>, token: string): (r: seq<Session>)
    ensures |r| == |rows|
    ensures forall i :: 0 <= i < |rows| ==>
      r[i] == rows[i].(activa := rows[i].activa && rows[i].token != token)
  {
    if rows == [] then []
    else [if rows[0].token == token then rows[0].(activa := false) else rows[0]] + Invalidated(rows[1..], token)
  }

  /** The `changes` count of `cleanupExpiredSessions`: rows matched by its WHERE clause. */
  function ExpiredCount(rows: seq<Session>, now: int): nat {
    if rows == [] then 0
    else (if rows[0].activa && rows[0].fecha_expiracion <= now then 1 else 0) + ExpiredCount(rows[1..], now)
  }

  /** The `changes` count of `invalidateSession`: every row with the token, already
      inactive or not. */
  function TokenCount(rows: seq<Session>, token: string): nat {
    if rows == [] then 0
    else (if rows[0].token == token then 1 else 0) + TokenCount(rows[1..], token)
  }

  /** The user context `authenticate` builds from the session row. */
  function ContextOf(row: SessionRow, token: string): UserContext {
    UserContext(row.session.usuario_id, row.usuario.nombre_usuario, row.usuario.nombre_completo,
                row.usuario.rol, row.usuario.departamento, token)
  }

  /** The decision chain of `authenticate` after the sweep: extract the bearer token,
      check the JWT, then look the session up. Every refusal is a 401, and an invalid
      JWT is refused before the session table is consulted. */
  function Check(authorization: Option<string>, verify: Jwt.Verifier, rows: seq<Session>,
                 usuarios: map<int, User>, now: int): (r: Response<UserContext>)
    ensures r.Fail? ==> r.status == 401
    ensures Jwt.BearerToken(authorization).None? ==> r == Fail(401, MissingToken)
    ensures Jwt.BearerToken(authorization).Some? && verify(Jwt.BearerToken(authorization).value).None? ==>
              r == Fail(401, InvalidToken)
    ensures r.Ok? <==> Jwt.BearerToken(authorization).Some? && verify(Jwt.BearerToken(authorization).value).Some? &&
                       exists i :: 0 <= i < |rows| && Verifies(rows[i], usuarios, Jwt.BearerToken(authorization).value, now)
    ensures r.Ok? ==> r.value.token == Jwt.BearerToken(authorization).value &&
                      exists i :: FirstVerifying(rows, usuarios, r.value.token, now, i) &&
                                  r.value == ContextOf(SessionRow(rows[i], usuarios[rows[i].usuario_id]), r.value.token)
  {
    match Jwt.BearerToken(authorization)
    case None => Fail(401, MissingToken)
    case Some(token) =>
      if verify(token).None? then Fail(401, InvalidToken)
      else
        match FindSession(rows, usuarios, token, now)
        case None => Fail(401, InvalidSession)
        case Some(row) => Ok(ContextOf(row, token))
  }

  /** `authorize(rolesPermitidos)`: 401 without a user context, 403 when a non-empty
      role list lacks the user's role, otherwise the request passes. */
  function Authorize(rolesPermitidos: seq<string>, usuario: Option<UserContext>): (r: Response<()>)
    ensures r.Fail? ==> r.status in {401, 403}
    ensures r.Fail? && r.status == 401 <==> usuario.None?
    ensures r.Ok? <==> usuario.Some? &&
                       (rolesPermitidos == [] || (usuario.value.rol.Some? && usuario.value.rol.value in rolesPermitidos))
  {
    if usuario.None? then Fail(401, NotAuthenticated)
    else if |rolesPermitidos| > 0 && !(usuario.value.rol.Some? && usuario.value.rol.value in rolesPermitidos) then
      Fail(403, Forbidden)
    else Ok(())
  }

  /** The Express request as the middleware sees it: the `Authorization` header, and
      the `usuario` slot that `authenticate` fills. */
  class Request {
    const authorization: Option<string>
    var usuario: Option<UserContext>

    constructor (authorization: Option<string>)
      ensures this.authorization == authorization && usuario == None
    {
      this.authorization := authorization;
      usuario := None;
    }
  }

  /** `AuthMiddleware` with the `sesiones` table it owns; the `usuarios` table it
      joins against is passed to the calls that read it. */
  class AuthMiddleware {
    var sesiones: seq<Session>
    var nextSessionId: int

    ghost predicate Valid()
      reads this
    {
      nextSessionId >= 1 && forall i :: 0 <= i < |sesiones| ==> sesiones[i].id < nextSessionId
    }

    /** `new AuthMiddleware(db)`: the middleware takes over the `sesiones` rows the
        database file already holds, with the next id its counter would hand out. */
    constructor (rows: seq<Session>, next: int)
      requires next >= 1 && forall i :: 0 <= i < |rows| ==> rows[i].id < next
      ensures Valid() && sesiones == rows && nextSessionId == next
    {
      sesiones := rows;
      nextSessionId := next;
    }

    /** `createSession`: inserts one active row expiring `SessionTimeout` after now,
        and answers its new id and the token. */
    method CreateSession(usuarioId: int, token: string, ipAddress: Option<string>, userAgent: Option<string>, now: int)
      returns (id: int, sessionToken: string)
      requires Valid()
      modifies this
      ensures Valid()
      ensures id == old(nextSessionId) && sessionToken == token
      ensures sesiones == old(sesiones) + [Session(id, usuarioId, token, now + SessionTimeout, ipAddress, userAgent, true)]
    {
      id := nextSessionId;
      sesiones := sesiones + [Session(id, usuarioId, token, now + SessionTimeout, ipAddress, userAgent, true)];
      nextSessionId := nextSessionId + 1;
      sessionToken := token;
    }

    /** `verifySession(token)`, read from the current table. */
    function VerifySession(token: string, usuarios: map<int, User>, now: int): Option<SessionRow>
      reads this
    {
      FindSession(sesiones, usuarios, token, now)
    }

    /** `invalidateSession(token)` (logout). */
    method InvalidateSession(token: string) returns (changes: nat)
      requires Valid()
      modifies this
      ensures Valid() && nextSessionId == old(nextSessionId)
      ensures sesiones == Invalidated(old(sesiones), token)
      ensures changes == TokenCount(old(sesiones), token)
    {
      changes := TokenCount(sesiones, token);
      sesiones := Invalidated(sesiones, token);
    }

    /** `cleanupExpiredSessions()`. */
    method CleanupExpiredSessions(now: int) returns (changes: nat)
      requires Valid()
      modifies this
      ensures Valid() && nextSessionId == old(nextSessionId)
      ensures sesiones == Swept(old(sesiones), now)
      ensures changes == ExpiredCount(old(sesiones), now)
    {
      changes := ExpiredCount(sesiones, now);
      sesiones := Swept(sesiones, now);
    }

    /** `authenticate()`: sweep the expired sessions, then run the decision chain; on
        success `req.usuario` is set and the request passes on. A rejected store call
        answers 500. */
    method Authenticate(req: Request, verify: Jwt.Verifier, usuarios: map<int, User>, now: int, fault: Fault)
      returns (r: Response<()>)
      requires Valid()
      modifies this, req
      ensures Valid() && nextSessionId == old(nextSessionId)
      ensures fault == SweepFault ==> sesiones == old(sesiones) && r == Fail(500, AuthError)
      ensures fault != SweepFault ==> sesiones == Swept(old(sesiones), now)
      ensures fault != SweepFault ==>
        var c := Check(req.authorization, verify, Swept(old(sesiones), now), usuarios, now);
        var reachesLookup := Jwt.BearerToken(req.authorization).Some? &&
                             verify(Jwt.BearerToken(req.authorization).value).Some?;
        if fault == LookupFault && reachesLookup then r == Fail(500, AuthError)
        else (r.Ok? <==> c.Ok?) && (c.Fail? ==> r == Fail(c.status, c.error)) &&
             (c.Ok? ==> req.usuario == Some(c.value))
      ensures r.Fail? ==> req.usuario == old(req.usuario)
    {
      if fault == SweepFault {
        return Fail(500, AuthError);
      }
      var _ := CleanupExpiredSessions(now);
      var token := Jwt.BearerToken(req.authorization);
      if token.None? {
        return Fail(401, MissingToken);
      }
      if verify(token.value).None? {
        return Fail(401, InvalidToken);
      }
      if fault == LookupFault {
        return Fail(500, AuthError);
      }
      var session := VerifySession(token.value, usuarios, now);
      if session.None? {
        return Fail(401, InvalidSession);
      }
      req.usuario := Some(ContextOf(session.value, token.value));
      r := Ok(());
    }
  }

  // ----- Properties of the session table -----

  /** After logout, `verifySession` finds nothing for the token. */
  lemma {:induction false} InvalidateThenVerifyFails(rows: seq<Session>, usuarios: map<int, User>, token: string, now: int)
    ensures FindSession(Invalidated(rows, token), usuarios, token, now) == None
  {
    if rows != [] {
      InvalidateThenVerifyFails(rows[1..], usuarios, token, now);
    }
  }

  /** A second sweep at the same time changes nothing, and reports no changes. */
  lemma {:induction false} SweepIdempotent(rows: seq<Session>, now: int)
    ensures Swept(Swept(rows, now), now) == Swept(rows, now)
    ensures ExpiredCount(Swept(rows, now), now) == 0
  {
    if rows != [] {
      SweepIdempotent(rows[1..], now);
      assert Swept(rows, now)[1..] == Swept(rows[1..], now);
    }
  }

  /** The sweep never changes what `verifySession` answers, at the time of the sweep
      or any later time. */
  lemma {:induction false} SweepKeepsVerify(rows: seq<Session>, usuarios: map<int, User>, token: string, swept: int, now: int)
    requires swept <= now
    ensures FindSession(Swept(rows, swept), usuarios, token, now) == FindSession(rows, usuarios, token, now)
  {
    if rows != [] {
      SweepKeepsVerify(rows[1..], usuarios, token, swept, now);
      assert Swept(rows, swept)[1..] == Swept(rows[1..], swept);
    }
  }

  /** Hence the sweep that opens `authenticate` never changes its decision. */
  lemma SweepKeepsCheck(authorization: Option<string>, verify: Jwt.Verifier, rows: seq<Session>,
                        usuarios: map<int, User>, now: int)
    ensures Check(authorization, verify, Swept(rows, now), usuarios, now) == Check(authorization, verify, rows, usuarios, now)
  {
    var t := Jwt.BearerToken(authorization);
    if t.Some? {
      SweepKeepsVerify(rows, usuarios, t.value, now, now);
    }
  }

  /** After logout the token is refused with 401 on every later request, whatever the
      JWT check says. */
  lemma LogoutRevokes(authorization: Option<string>, verify: Jwt.Verifier, rows: seq<Session>,
                      usuarios: map<int, User>, token: string, now: int)
    requires Jwt.BearerToken(authorization) == Some(token)
    ensures Check(authorization, verify, Swept(Invalidated(rows, token), now), usuarios, now).Fail?
    ensures Check(authorization, verify, Swept(Invalidated(rows, token), now), usuarios, now).status == 401
  {
    SweepKeepsCheck(authorization, verify, Invalidated(rows, token), usuarios, now);
    InvalidateThenVerifyFails(rows, usuarios, token, now);
  }

  /** A token whose session rows have all expired is refused with 401. */
  lemma ExpiredSessionRefused(authorization: Option<string>, verify: Jwt.Verifier, rows: seq<Session>,
                              usuarios: map<int, User>, token: string, now: int)
    requires Jwt.BearerToken(authorization) == Some(token)
    requires forall i :: 0 <= i < |rows| && rows[i].token == token ==> rows[i].fecha_expiracion <= now
    ensures Check(authorization, verify, rows, usuarios, now).Fail?
    ensures Check(authorization, verify, rows, usuarios, now).status == 401
  {
  }

  /** Login followed by a request: a session just created for an existing user, with a
      JWT that checks, authenticates every request made before it expires, through the
      sweep, whatever rows came before it. */
  lemma FreshSessionAuthenticates(rows: seq<Session>, usuarios: map<int, User>, verify: Jwt.Verifier,
                                  id: int, usuarioId: int, token: string, ipAddress: Option<string>,
                                  userAgent: Option<string>, created: int, now: int)
    requires token != "" && verify(token).Some? && usuarioId in usuarios
    requires created <= now < created + SessionTimeout
    ensures var table := rows + [Session(id, usuarioId, token, created + SessionTimeout, ipAddress, userAgent, true)];
            Check(Some(Jwt.BearerPrefix + token), verify, Swept(table, now), usuarios, now).Ok?
  {
    var table := rows + [Session(id, usuarioId, token, created + SessionTimeout, ipAddress, userAgent, true)];
    Jwt.BearerHeaderYieldsToken(token);
    SweepKeepsCheck(Some(Jwt.BearerPrefix + token), verify, table, usuarios, now);
    assert Verifies(table[|rows|], usuarios, token, now);
  }

  /** `authorize` with an empty role list lets every authenticated user through. */
  lemma EmptyRoleListAllowsEveryone(usuario: UserContext)
    ensures Authorize([], Some(usuario)) == Ok(())
  {
  }

  /** Widening a non-empty role list never turns a pass into a refusal. */
  lemma AuthorizeMonotone(roles: seq<string>, wider: seq<string>, usuario: Option<UserContext>)
    requires roles != [] && forall x :: x in roles ==> x in wider
    ensures Authorize(roles, usuario).Ok? ==> Authorize(wider, usuario).Ok?
  {
  }
}
