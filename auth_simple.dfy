/** The JWT-only authentication middleware: the same token extraction and role check
    as the strict one, but `authenticate` trusts the signed claims alone and never
    reads the `sesiones` table, so a logout cannot revoke a token before it expires. */
module AuthSimple {
  import opened Wrappers
  import Jwt
  import Auth
  import Schema

  /** `sessionTimeout`: 15 minutes, in milliseconds. */
  const SessionTimeout: int := 15 * 60 * 1000

  const MissingToken: string := "Token no proporcionado"
  const InvalidToken: string := "Token inválido o expirado"
  const NotAuthenticated: string := "No autenticado"
  const Forbidden: string := "No tienes permisos para realizar esta acción"

  /** One `sesiones` row, as this variant's `createSession` inserts it. */
  datatype Session = Session(
    id: int,
    usuario_id: int,
    token: string,
    fecha_expiracion: int,
    ip_address: Option<string>,
    user_agent: Option<string>,
    activa: bool)

  /** `req.usuario` as this variant sets it: the claims plus the token. */
  datatype UserContext = UserContext(id: int, nombre_usuario: string, rol: Option<string>, token: string)

  /** The decision chain of `authenticate`: extract the bearer token, check the JWT,
      and build the user context from its claims. */
  function Check(authorization: Option<string>, verify: Jwt.Verifier): (r: Response<UserContext>)
    ensures r.Fail? ==> r.status == 401
    ensures Jwt.BearerToken(authorization).None? ==> r == Fail(401, MissingToken)
    ensures Jwt.BearerToken(authorization).Some? && verify(Jwt.BearerToken(authorization).value).None? ==>
              r == Fail(401, InvalidToken)
    ensures r.Ok? <==> Jwt.BearerToken(authorization).Some? && verify(Jwt.BearerToken(authorization).value).Some?
    ensures r.Ok? ==>
      var token := Jwt.BearerToken(authorization).value;
      var claims := verify(token).value;
      r.value == UserContext(claims.id, claims.nombre_usuario, claims.rol, token)
  {
    match Jwt.BearerToken(authorization)
    case None => Fail(401, MissingToken)
    case Some(token) =>
      match verify(token)
      case None => Fail(401, InvalidToken)
      case Some(claims) => Ok(UserContext(claims.id, claims.nombre_usuario, claims.rol, token))
  }

  /** `authorize(rolesPermitidos)` of this variant. */
  function Authorize(rolesPermitidos: seq<string>, usuario: Option<UserContext>): (r: Response<()>)
    ensures r.Fail? ==> r.status in {401, 403}
    ensures r.Fail? && r.status == 401 <==> usuario.None?
    ensures r.Ok? <==> usuario.Some? &&
                       (rolesPermitidos == [] || (usuario.value.rol.Some? && usuario.value.rol.value in rolesPermitidos))
  {
    if usuario.None? then Fail(401, NotAuthenticated)
    else if |rolesPermitidos| > 0 && !(usuario.value.rol.Some? && usuario.value.rol.value in rolesPermitidos) then
      Fail(403, Forbidden)
    else Ok(())
  }

  /** The Express request: the `Authorization` header and the `usuario` slot. */
  class Request {
    const authorization: Option<string>
    var usuario: Option<UserContext>

    constructor (authorization: Option<string>)
      ensures this.authorization == authorization && usuario == None
    {
      this.authorization := authorization;
      usuario := None;
    }
  }

  /** This variant's `AuthMiddleware`: it still records sessions at login, but only
      for logging. */
  class AuthMiddleware {
    var sesiones: seq<Session>
    var nextSessionId: int

    ghost predicate Valid()
      reads this
    {
      nextSessionId >= 1 && forall i :: 0 <= i < |sesiones| ==> sesiones[i].id < nextSessionId
    }

    /** `new AuthMiddleware(db)`: the middleware takes over the `sesiones` rows the
        database file already holds, with the next id its counter would hand out. */
    constructor (rows: seq<Session>, next: int)
      requires next >= 1 && forall i :: 0 <= i < |rows| ==> rows[i].id < next
      ensures Valid() && sesiones == rows && nextSessionId == next
    {
      sesiones := rows;
      nextSessionId := next;
    }

    /** `createSession`: inserts one active row expiring `SessionTimeout` after now. */
    method CreateSession(usuarioId: int, token: string, ipAddress: Option<string>, userAgent: Option<string>, now: int)
      returns (id: int, sessionToken: string)
      requires Valid()
      modifies this
      ensures Valid()
      ensures id == old(nextSessionId) && sessionToken == token
      ensures sesiones == old(sesiones) + [Session(id, usuarioId, token, now + SessionTimeout, ipAddress, userAgent, true)]
    {
      id := nextSessionId;
      sesiones := sesiones + [Session(id, usuarioId, token, now + SessionTimeout, ipAddress, userAgent, true)];
      nextSessionId := nextSessionId + 1;
      sessionToken := token;
    }

    /** `authenticate()`: on success `req.usuario` is set from the claims; the session
        table is neither swept nor read. */
    method Authenticate(req: Request, verify: Jwt.Verifier) returns (r: Response<()>)
      modifies req
      ensures var c := Check(req.authorization, verify);
              (r.Ok? <==> c.Ok?) && (c.Fail? ==> r == Fail(c.status, c.error)) &&
              (c.Ok? ==> req.usuario == Some(c.value))
      ensures r.Fail? ==> req.usuario == old(req.usuario)
    {
      var token := Jwt.BearerToken(req.authorization);
      if token.None? {
        return Fail(401, MissingToken);
      }
      var decoded := verify(token.value);
      if decoded.None? {
        return Fail(401, InvalidToken);
      }
      req.usuario := Some(UserContext(decoded.value.id, decoded.value.nombre_usuario, decoded.value.rol, token.value));
      r := Ok(());
    }
  }

  // ----- Comparison with the strict variant -----

  /** Both variants make the same 401 / 403 / pass decision for a user with the same
      role. */
  lemma AuthorizeAgreesWithStrict(roles: seq<string>, usuario: Option<UserContext>, strict: Option<Auth.UserContext>)
    requires usuario.None? <==> strict.None?
    requires usuario.Some? ==> strict.value.rol == usuario.value.rol
    ensures Authorize(roles, usuario) == Auth.Authorize(roles, strict)
  {
  }

  /** A valid JWT still authenticates after its session was invalidated (logout), where
      the strict variant refuses it: this variant cannot revoke a token before the JWT
      itself expires. */
  lemma LogoutDoesNotRevoke(authorization: Option<string>, verify: Jwt.Verifier, rows: seq<Auth.Session>,
                            usuarios: map<int, Schema.User>, token: string, now: int)
    requires Jwt.BearerToken(authorization) == Some(token) && verify(token).Some?
    ensures Check(authorization, verify).Ok?
    ensures Auth.Check(authorization, verify, Auth.Swept(Auth.Invalidated(rows, token), now), usuarios, now).Fail?
  {
    Auth.LogoutRevokes(authorization, verify, rows, usuarios, token, now);
  }

  /** Where the strict variant accepts a request, this one accepts it too, with the same
      token. The user ids may differ: the strict one comes from the session row, this
      one from the claims. */
  lemma StrictAcceptanceImpliesSimple(authorization: Option<string>, verify: Jwt.Verifier, rows: seq<Auth.Session>,
                                      usuarios: map<int, Schema.User>, now: int)
    requires Auth.Check(authorization, verify, rows, usuarios, now).Ok?
    ensures Check(authorization, verify).Ok?
    ensures Check(authorization, verify).value.token == Auth.Check(authorization, verify, rows, usuarios, now).value.token
  {
  }
}
