/** The inventory bookkeeping of the REST handlers, as pure transitions of the
    database: each handler either commits all of its writes or leaves the database
    as it was, and answers a JSON body or an error status. */
module Bookkeeping {
  import opened Wrappers
  import opened Schema
  import Auth

  const MissingFields: string := "Faltan campos requeridos"
  const ToolNotFound: string := "Herramienta no encontrada"
  const ToolHasActiveLoans: string := "No se puede eliminar: herramienta con préstamos activos"
  const CategoryHasTools: string := "No se puede eliminar: categoría con herramientas asociadas"
  const CategoryNotFound: string := "Categoría no encontrada"
  const InsufficientStock: string := "No hay suficiente stock disponible"
  const LoanNotFound: string := "Préstamo no encontrado o ya devuelto"
  const RequesterHasActiveLoans: string := "No se puede eliminar: solicitante con préstamos activos"
  const RequesterNotFound: string := "Solicitante no encontrado"
  const AlreadyRegistered: string := "El usuario ya existe"
  const SelfDelete: string := "No puedes eliminar tu propia cuenta"
  const SelfRoleChange: string := "No puedes cambiar tu propio rol"
  const UserNotFound: string := "Usuario no encontrado"

  /** `prestamos.estado`. */
  datatype LoanState = Activo | Completado

  /** One `herramientas` row. The columns a tool update may bind to NULL are optional;
      `en_bodega` and `prestadas` always hold numbers. */
  datatype Tool = Tool(
    codigo: Option<string>,
    nombre: Option<string>,
    categoria_id: Option<int>,
    stock_total: Option<int>,
    en_bodega: int,
    prestadas: int,
    estado: Option<string>)

  datatype Category = Category(nombre: string)

  datatype Requester = Requester(nombre: string, departamento: string, telefono: Option<string>, email: Option<string>)

  /** One `prestamos` row; `cantidad` is the quantity still out. Dates are day numbers. */
  datatype Loan = Loan(
    codigo_prestamo: string,
    herramienta_id: int,
    solicitante_id: int,
    cantidad: int,
    fecha_salida: int,
    fecha_retorno: Option<int>,
    observaciones: Option<string>,
    estado: LoanState)

  /** One `devoluciones` row. */
  datatype Return = Return(
    id: int,
    codigo_devolucion: string,
    prestamo_id: int,
    herramienta_id: int,
    cantidad: int,
    fecha_devolucion: int,
    dias_uso: int,
    estado_herramienta: string,
    observaciones: Option<string>)

  /** The tables the handlers touch, with the next row id of each table that gains
      rows here. */
  datatype Db = Db(
    herramientas: map<int, Tool>,
    categorias: map<int, Category>,
    solicitantes: map<int, Requester>,
    prestamos: map<int, Loan>,
    devoluciones: seq<Return>,
    usuarios: map<int, User>,
    nextHerramienta: int,
    nextSolicitante: int,
    nextPrestamo: int,
    nextDevolucion: int)

  /** The outcome of one handler: its answer and the database after it. */
  datatype Step<T> = Step(response: Response<T>, after: Db)

  /** The answer to a created loan or return: its row id and generated code. */
  datatype Created = Created(id: int, codigo: string)

  // ----- Request bodies (a falsy field is "", 0 or None) -----

  datatype ToolRequest = ToolRequest(codigo: string, nombre: string, categoria_id: int, stock_total: int, estado: Option<string>)

  datatype ToolUpdate = ToolUpdate(
    codigo: Option<string>,
    nombre: Option<string>,
    categoria_id: Option<int>,
    stock_total: Option<int>,
    en_bodega: Option<int>,
    prestadas: Option<int>,
    estado: Option<string>)

  datatype LoanRequest = LoanRequest(
    herramienta_id: int,
    solicitante_id: int,
    cantidad: int,
    fecha_salida: Option<int>,
    fecha_retorno: Option<int>,
    observaciones: Option<string>)

  datatype ReturnRequest = ReturnRequest(
    prestamo_id: int,
    cantidad: int,
    fecha_devolucion: Option<int>,
    estado_herramienta: Option<string>,
    observaciones: Option<string>)

  datatype Registration = Registration(
    nombre: string,
    departamento: string,
    telefono: Option<string>,
    email: Option<string>,
    usuario: string,
    password: string)

  datatype UserUpdate = UserUpdate(
    nombre_completo: Option<string>,
    email: Option<string>,
    departamento: Option<string>,
    rol: Option<string>,
    activo: bool)

  // ----- Invariants -----

  /** Row ids are positive and below the next id of their table; every active loan
      points at an existing tool; a completed loan has nothing outstanding. */
  ghost predicate Valid(db: Db) {
    && db.nextHerramienta >= 1 && db.nextSolicitante >= 1 && db.nextPrestamo >= 1 && db.nextDevolucion >= 1
    && (forall k :: k in db.herramientas ==> 1 <= k < db.nextHerramienta)
    && (forall k :: k in db.solicitantes ==> 1 <= k < db.nextSolicitante)
    && (forall k :: k in db.prestamos ==> 1 <= k < db.nextPrestamo)
    && (forall i :: 0 <= i < |db.devoluciones| ==> 1 <= db.devoluciones[i].id < db.nextDevolucion)
    && (forall k :: k in db.prestamos && db.prestamos[k].estado == Activo ==> db.prestamos[k].herramienta_id in db.herramientas)
    && (forall k :: k in db.prestamos && db.prestamos[k].estado == Completado ==> db.prestamos[k].cantidad == 0)
  }

  /** The stock of a tool is split between the warehouse and the loans. */
  predicate Balanced(t: Tool) {
    t.stock_total == Some(t.en_bodega + t.prestadas)
  }

  /** Every tool present before and after holds the same `en_bodega + prestadas`
      and the same `stock_total`. */
  ghost predicate StockKept(db: Db, after: Db) {
    forall k :: k in db.herramientas && k in after.herramientas ==>
      after.herramientas[k].en_bodega + after.herramientas[k].prestadas ==
        db.herramientas[k].en_bodega + db.herramientas[k].prestadas &&
      after.herramientas[k].stock_total == db.herramientas[k].stock_total
  }

  /** A completed loan is never touched again. */
  ghost predicate CompletedKept(db: Db, after: Db) {
    forall k :: k in db.prestamos && db.prestamos[k].estado == Completado ==>
      k in after.prestamos && after.prestamos[k] == db.prestamos[k]
  }

  /** The tool moved by q units from the warehouse to the loans (negative q moves back). */
  function Lend(t: Tool, q: int): (r: Tool)
    ensures r.en_bodega + r.prestadas == t.en_bodega + t.prestadas
    ensures r.prestadas - t.prestadas == q
    ensures r.(en_bodega := t.en_bodega, prestadas := t.prestadas) == t
  {
    t.(en_bodega := t.en_bodega - q, prestadas := t.prestadas + q)
  }

  // ----- POST /api/herramientas -----

  predicate ToolRequestComplete(req: ToolRequest) {
    req.codigo != "" && req.nombre != "" && req.categoria_id != 0 && req.stock_total != 0
  }

  /** A new tool has its whole stock in the warehouse and none on loan; `estado`
      defaults to 'Activo'. */
  function CreateTool(db: Db, req: ToolRequest): (r: Step<int>)
    ensures r.response.Ok? <==> ToolRequestComplete(req)
    ensures r.response.Fail? ==> r.response == Fail(400, MissingFields) && r.after == db
    ensures r.response.Ok? ==>
      var id := r.response.value;
      id == db.nextHerramienta && id in r.after.herramientas &&
      var t := r.after.herramientas[id];
      && r.after == db.(herramientas := db.herramientas[id := t], nextHerramienta := id + 1)
      && Balanced(t) && t.prestadas == 0 && t.en_bodega == req.stock_total
      && t.codigo == Some(req.codigo) && t.nombre == Some(req.nombre) && t.categoria_id == Some(req.categoria_id)
      && t.estado == Some(req.estado.GetOr("Activo"))
    ensures Valid(db) ==> Valid(r.after)
  {
    if !ToolRequestComplete(req) then Step(Fail(400, MissingFields), db)
    else
      var id := db.nextHerramienta;
      var t := Tool(Some(req.codigo), Some(req.nombre), Some(req.categoria_id), Some(req.stock_total),
                    req.stock_total, 0, Some(req.estado.GetOr("Activo")));
      Step(Ok(id), db.(herramientas := db.herramientas[id := t], nextHerramienta := id + 1))
  }

  // ----- PUT /api/herramientas/:id -----

  /** `enBodegaFinal`: an explicit `en_bodega` wins; otherwise the current value,
      clamped to a numeric `stock_total` when one is sent. */
  function EnBodegaFinal(actual: int, stock_total: Option<int>, en_bodega: Option<int>): (r: int)
    ensures en_bodega.Some? ==> r == en_bodega.value
    ensures en_bodega.None? ==> r <= actual && (stock_total.Some? ==> r <= stock_total.value)
    ensures en_bodega.None? ==> r == actual || (stock_total.Some? && r == stock_total.value)
  {
    if en_bodega.Some? then en_bodega.value
    else if stock_total.Some? then (if actual <= stock_total.value then actual else stock_total.value)
    else actual
  }

  /** Every column is overwritten from the body (an omitted one becomes NULL), except
      that `en_bodega` and `prestadas` fall back to computed values. */
  function UpdateTool(db: Db, id: int, req: ToolUpdate): (r: Step<()>)
    ensures r.response.Ok? <==> id in db.herramientas
    ensures r.response.Fail? ==> r.response == Fail(404, ToolNotFound) && r.after == db
    ensures r.response.Ok? ==>
      id in r.after.herramientas &&
      var old_ := db.herramientas[id];
      var t := r.after.herramientas[id];
      && r.after == db.(herramientas := db.herramientas[id := t])
      && t.codigo == req.codigo && t.nombre == req.nombre && t.categoria_id == req.categoria_id
      && t.stock_total == req.stock_total && t.estado == req.estado
      && t.en_bodega == EnBodegaFinal(old_.en_bodega, req.stock_total, req.en_bodega)
      && t.prestadas == req.prestadas.GetOr(old_.prestadas)
    ensures Valid(db) ==> Valid(r.after)
  {
    if id !in db.herramientas then Step(Fail(404, ToolNotFound), db)
    else
      var cur := db.herramientas[id];
      var t := Tool(req.codigo, req.nombre, req.categoria_id, req.stock_total,
                    EnBodegaFinal(cur.en_bodega, req.stock_total, req.en_bodega),
                    req.prestadas.GetOr(cur.prestadas), req.estado);
      Step(Ok(()), db.(herramientas := db.herramientas[id := t]))
  }

  // ----- DELETE /api/herramientas/:id, /api/categorias/:id, /api/solicitantes/:id -----

  ghost predicate ToolHasActiveLoan(db: Db, id: int) {
    exists k :: k in db.prestamos && db.prestamos[k].herramienta_id == id && db.prestamos[k].estado == Activo
  }

  ghost predicate CategoryInUse(db: Db, id: int) {
    exists k :: k in db.herramientas && db.herramientas[k].categoria_id == Some(id)
  }

  ghost predicate RequesterHasActiveLoan(db: Db, id: int) {
    exists k :: k in db.prestamos && db.prestamos[k].solicitante_id == id && db.prestamos[k].estado == Activo
  }

  /** `SELECT COUNT(*) FROM prestamos WHERE <herramienta_id or solicitante_id> = id
      AND estado = "Activo"` is positive. */
  function HasActiveLoanFor(loans: map<int, Loan>, tool: bool, id: int): bool {
    exists k :: k in loans && loans[k].estado == Activo &&
                (if tool then loans[k].herramienta_id else loans[k].solicitante_id) == id
  }

  /** A tool with an active loan cannot be deleted (400); otherwise it is removed, or
      404 when absent. Its loan history stays. */
  function DeleteTool(db: Db, id: int): (r: Step<()>)
    ensures r.response.Ok? <==> id in db.herramientas && !ToolHasActiveLoan(db, id)
    ensures ToolHasActiveLoan(db, id) ==> r.response == Fail(400, ToolHasActiveLoans)
    ensures !ToolHasActiveLoan(db, id) && id !in db.herramientas ==> r.response == Fail(404, ToolNotFound)
    ensures r.response.Fail? ==> r.after == db
    ensures r.response.Ok? ==> r.after == db.(herramientas := db.herramientas - {id})
    ensures Valid(db) ==> Valid(r.after)
  {
    if HasActiveLoanFor(db.prestamos, true, id) then Step(Fail(400, ToolHasActiveLoans), db)
    else if id !in db.herramientas then Step(Fail(404, ToolNotFound), db)
    else Step(Ok(()), db.(herramientas := db.herramientas - {id}))
  }

  /** A category that any tool references cannot be deleted (400); otherwise it is
      removed, or 404 when absent. */
  function DeleteCategory(db: Db, id: int): (r: Step<()>)
    ensures r.response.Ok? <==> id in db.categorias && !CategoryInUse(db, id)
    ensures CategoryInUse(db, id) ==> r.response == Fail(400, CategoryHasTools)
    ensures !CategoryInUse(db, id) && id !in db.categorias ==> r.response == Fail(404, CategoryNotFound)
    ensures r.response.Fail? ==> r.after == db
    ensures r.response.Ok? ==> r.after == db.(categorias := db.categorias - {id})
    ensures Valid(db) ==> Valid(r.after)
  {
    if exists k :: k in db.herramientas && db.herramientas[k].categoria_id == Some(id) then
      Step(Fail(400, CategoryHasTools), db)
    else if id !in db.categorias then Step(Fail(404, CategoryNotFound), db)
    else Step(Ok(()), db.(categorias := db.categorias - {id}))
  }

  /** A requester with an active loan cannot be deleted (400); completed loans do not
      block. Otherwise it is removed, or 404 when absent. */
  function DeleteRequester(db: Db, id: int): (r: Step<()>)
    ensures r.response.Ok? <==> id in db.solicitantes && !RequesterHasActiveLoan(db, id)
    ensures RequesterHasActiveLoan(db, id) ==> r.response == Fail(400, RequesterHasActiveLoans)
    ensures !RequesterHasActiveLoan(db, id) && id !in db.solicitantes ==> r.response == Fail(404, RequesterNotFound)
    ensures r.response.Fail? ==> r.after == db
    ensures r.response.Ok? ==> r.after == db.(solicitantes := db.solicitantes - {id})
    ensures Valid(db) ==> Valid(r.after)
  {
    if HasActiveLoanFor(db.prestamos, false, id) then Step(Fail(400, RequesterHasActiveLoans), db)
    else if id !in db.solicitantes then Step(Fail(404, RequesterNotFound), db)
    else Step(Ok(()), db.(solicitantes := db.solicitantes - {id}))
  }

  // ----- POST /api/prestamos -----

  predicate LoanRequestComplete(req: LoanRequest) {
    req.herramienta_id != 0 && req.solicitante_id != 0 && req.cantidad != 0 && req.fecha_salida.Some?
  }

  /** Inserts an active loan, then moves `cantidad` from the warehouse to the loans of
      the tool, on condition that the warehouse holds at least that much; when the
      tool is unknown or short, the insert is rolled back. */
  function CreateLoan(db: Db, req: LoanRequest, codigo: string): (r: Step<Created>)
    ensures r.response.Ok? <==>
      LoanRequestComplete(req) && req.herramienta_id in db.herramientas &&
      db.herramientas[req.herramienta_id].en_bodega >= req.cantidad
    ensures !LoanRequestComplete(req) ==> r.response == Fail(400, MissingFields)
    ensures LoanRequestComplete(req) && r.response.Fail? ==> r.response == Fail(400, InsufficientStock)
    ensures r.response.Fail? ==> r.after == db
    ensures r.response.Ok? ==>
      var id := db.nextPrestamo;
      var h := req.herramienta_id;
      && r.response.value == Created(id, codigo)
      && r.after == db.(prestamos := db.prestamos[id := Loan(codigo, h, req.solicitante_id, req.cantidad,
                                                         req.fecha_salida.value, req.fecha_retorno,
                                                         req.observaciones, Activo)],
                        nextPrestamo := id + 1,
                        herramientas := db.herramientas[h := Lend(db.herramientas[h], req.cantidad)])
    ensures StockKept(db, r.after)
    ensures Valid(db) ==> Valid(r.after) && CompletedKept(db, r.after)
  {
    if !LoanRequestComplete(req) then Step(Fail(400, MissingFields), db)
    else
      var id := db.nextPrestamo;
      var h := req.herramienta_id;
      if h in db.herramientas && db.herramientas[h].en_bodega >= req.cantidad then
        var loan := Loan(codigo, h, req.solicitante_id, req.cantidad, req.fecha_salida.value,
                         req.fecha_retorno, req.observaciones, Activo);
        Step(Ok(Created(id, codigo)),
             db.(prestamos := db.prestamos[id := loan], nextPrestamo := id + 1,
                 herramientas := db.herramientas[h := Lend(db.herramientas[h], req.cantidad)]))
      else Step(Fail(400, InsufficientStock), db)
  }

  // ----- POST /api/devoluciones -----

  predicate ReturnRequestComplete(req: ReturnRequest) {
    req.prestamo_id != 0 && req.cantidad != 0 && req.fecha_devolucion.Some?
  }

  /** `estado_herramienta || 'Buena'`. */
  function Condition(estado: Option<string>): (r: string)
    ensures r != ""
    ensures estado.Some? && estado.value != "" ==> r == estado.value
    ensures estado.None? || estado.value == "" ==> r == "Buena"
  {
    if estado.Some? && estado.value != "" then estado.value else "Buena"
  }

  /** The loan after a return of q: completed with nothing outstanding when q covers
      the outstanding quantity, else still active with q less outstanding. */
  function Returned(loan: Loan, q: int): (r: Loan)
    requires loan.estado == Activo
    ensures r.estado == Completado <==> q >= loan.cantidad
    ensures r.estado == Completado ==> r.cantidad == 0
    ensures r.estado == Activo ==> r.cantidad == loan.cantidad - q && r.cantidad > 0
    ensures r.(cantidad := loan.cantidad, estado := loan.estado) == loan
  {
    if q >= loan.cantidad then loan.(estado := Completado, cantidad := 0)
    else loan.(cantidad := loan.cantidad - q)
  }

  /** Looks up the active loan, appends the return row with its days of use, moves q
      back from the loans to the warehouse of the tool, uncapped, and completes or
      reduces the loan. */
  function CreateReturn(db: Db, req: ReturnRequest, codigo: string): (r: Step<Created>)
    ensures r.response.Ok? <==>
      ReturnRequestComplete(req) && req.prestamo_id in db.prestamos && db.prestamos[req.prestamo_id].estado == Activo
    ensures !ReturnRequestComplete(req) ==> r.response == Fail(400, MissingFields)
    ensures ReturnRequestComplete(req) && r.response.Fail? ==> r.response == Fail(404, LoanNotFound)
    ensures r.response.Fail? ==> r.after == db
    ensures r.response.Ok? ==>
      var id := db.nextDevolucion;
      var loan := db.prestamos[req.prestamo_id];
      var h := loan.herramienta_id;
      && r.response.value == Created(id, codigo)
      && r.after.devoluciones == db.devoluciones +
           [Return(id, codigo, req.prestamo_id, h, req.cantidad, req.fecha_devolucion.value,
                   req.fecha_devolucion.value - loan.fecha_salida, Condition(req.estado_herramienta), req.observaciones)]
      && r.after.prestamos == db.prestamos[req.prestamo_id := Returned(loan, req.cantidad)]
      && r.after.herramientas ==
           (if h in db.herramientas then db.herramientas[h := Lend(db.herramientas[h], -req.cantidad)] else db.herramientas)
      && r.after == db.(devoluciones := r.after.devoluciones, nextDevolucion := id + 1,
                        prestamos := r.after.prestamos, herramientas := r.after.herramientas)
    ensures StockKept(db, r.after) && CompletedKept(db, r.after)
    ensures db.devoluciones <= r.after.devoluciones
    ensures Valid(db) ==> Valid(r.after)
  {
    if !ReturnRequestComplete(req) then Step(Fail(400, MissingFields), db)
    else if req.prestamo_id !in db.prestamos || db.prestamos[req.prestamo_id].estado != Activo then
      Step(Fail(404, LoanNotFound), db)
    else
      var loan := db.prestamos[req.prestamo_id];
      var id := db.nextDevolucion;
      var fecha := req.fecha_devolucion.value;
      var row := Return(id, codigo, req.prestamo_id, loan.herramienta_id, req.cantidad, fecha,
                        fecha - loan.fecha_salida, Condition(req.estado_herramienta), req.observaciones);
      var h := loan.herramienta_id;
      var tools := if h in db.herramientas then db.herramientas[h := Lend(db.herramientas[h], -req.cantidad)]
                   else db.herramientas;
      Step(Ok(Created(id, codigo)),
           db.(devoluciones := db.devoluciones + [row], nextDevolucion := id + 1,
               herramientas := tools,
               prestamos := db.prestamos[req.prestamo_id := Returned(loan, req.cantidad)]))
  }

  // ----- POST /api/registro -----

  predicate RegistrationComplete(req: Registration) {
    req.nombre != "" && req.departamento != "" && req.usuario != "" && req.password != ""
  }

  /** `nombre = ? OR email = ?`: the same name, or the same e-mail when one is sent
      (SQL NULL equals nothing). */
  predicate SameRequester(s: Requester, nombre: string, email: Option<string>) {
    s.nombre == nombre || (email.Some? && s.email == email)
  }

  ghost predicate AlreadyExists(db: Db, nombre: string, email: Option<string>) {
    exists k :: k in db.solicitantes && SameRequester(db.solicitantes[k], nombre, email)
  }

  /** Requester self-registration: refused with 400 when a field is missing or a
      requester with the same name or e-mail exists; otherwise inserts the requester
      (the user name and password are not stored). */
  function Register(db: Db, req: Registration): (r: Step<int>)
    ensures r.response.Ok? <==> RegistrationComplete(req) && !AlreadyExists(db, req.nombre, req.email)
    ensures !RegistrationComplete(req) ==> r.response == Fail(400, MissingFields)
    ensures RegistrationComplete(req) && AlreadyExists(db, req.nombre, req.email) ==> r.response == Fail(400, AlreadyRegistered)
    ensures r.response.Fail? ==> r.after == db
    ensures r.response.Ok? ==>
      var id := r.response.value;
      && id == db.nextSolicitante
      && r.after == db.(solicitantes := db.solicitantes[id := Requester(req.nombre, req.departamento, req.telefono, req.email)],
                        nextSolicitante := id + 1)
    ensures Valid(db) ==> Valid(r.after)
  {
    if !RegistrationComplete(req) then Step(Fail(400, MissingFields), db)
    else if exists k :: k in db.solicitantes && SameRequester(db.solicitantes[k], req.nombre, req.email) then
      Step(Fail(400, AlreadyRegistered), db)
    else
      var id := db.nextSolicitante;
      Step(Ok(id), db.(solicitantes := db.solicitantes[id := Requester(req.nombre, req.departamento, req.telefono, req.email)],
                       nextSolicitante := id + 1))
  }

  // ----- DELETE and PUT /api/usuarios/:id -----

  /** An administrator cannot delete their own account (400); otherwise the user is
      removed, or 404 when absent. */
  function DeleteUser(db: Db, actor: Option<Auth.UserContext>, id: int): (r: Step<()>)
    ensures actor.Some? && actor.value.id == id ==> r.response == Fail(400, SelfDelete)
    ensures !(actor.Some? && actor.value.id == id) && id !in db.usuarios ==> r.response == Fail(404, UserNotFound)
    ensures r.response.Ok? <==> !(actor.Some? && actor.value.id == id) && id in db.usuarios
    ensures r.response.Fail? ==> r.after == db
    ensures r.response.Ok? ==> r.after == db.(usuarios := db.usuarios - {id})
    ensures Valid(db) ==> Valid(r.after)
  {
    if actor.Some? && actor.value.id == id then Step(Fail(400, SelfDelete), db)
    else if id !in db.usuarios then Step(Fail(404, UserNotFound), db)
    else Step(Ok(()), db.(usuarios := db.usuarios - {id}))
  }

  /** The self-protection rule of the user update: the acting user sends a non-empty
      role for their own account that differs from the role they hold. */
  predicate ChangesOwnRole(actor: Option<Auth.UserContext>, id: int, rol: Option<string>) {
    actor.Some? && actor.value.id == id && rol.Some? && rol.value != "" && Some(rol.value) != actor.value.rol
  }

  /** Refuses an administrator's change of their own role (400); otherwise overwrites
      name, e-mail, department, role and active flag from the body, an omitted one
      becoming NULL (false for the flag), or 404 when absent. */
  function UpdateUser(db: Db, actor: Option<Auth.UserContext>, id: int, req: UserUpdate): (r: Step<()>)
    ensures ChangesOwnRole(actor, id, req.rol) ==> r.response == Fail(400, SelfRoleChange)
    ensures !ChangesOwnRole(actor, id, req.rol) && id !in db.usuarios ==> r.response == Fail(404, UserNotFound)
    ensures r.response.Ok? <==> !ChangesOwnRole(actor, id, req.rol) && id in db.usuarios
    ensures r.response.Fail? ==> r.after == db
    ensures r.response.Ok? ==>
      id in r.after.usuarios &&
      var u := r.after.usuarios[id];
      && r.after == db.(usuarios := db.usuarios[id := u])
      && u.nombre_usuario == db.usuarios[id].nombre_usuario
      && u.nombre_completo == req.nombre_completo && u.email == req.email && u.departamento == req.departamento
      && u.rol == req.rol && u.activo == req.activo
    ensures Valid(db) ==> Valid(r.after)
  {
    if ChangesOwnRole(actor, id, req.rol) then Step(Fail(400, SelfRoleChange), db)
    else if id !in db.usuarios then Step(Fail(404, UserNotFound), db)
    else
      var u := db.usuarios[id].(nombre_completo := req.nombre_completo, email := req.email,
                                departamento := req.departamento, rol := req.rol, activo := req.activo);
      Step(Ok(()), db.(usuarios := db.usuarios[id := u]))
  }

  // ----- Properties across calls -----

  /** Lending q units of a tool and then returning the same q on that loan completes
      the loan and leaves every tool exactly as it was. */
  lemma LoanThenFullReturnRestoresTools(db: Db, lreq: LoanRequest, lcode: string, rreq: ReturnRequest, rcode: string)
    requires Valid(db)
    requires CreateLoan(db, lreq, lcode).response.Ok?
    requires rreq.prestamo_id == db.nextPrestamo && rreq.cantidad == lreq.cantidad && rreq.fecha_devolucion.Some?
    ensures
      var mid := CreateLoan(db, lreq, lcode).after;
      var fin := CreateReturn(mid, rreq, rcode);
      && fin.response.Ok?
      && fin.after.herramientas == db.herramientas
      && rreq.prestamo_id in fin.after.prestamos
      && fin.after.prestamos[rreq.prestamo_id].estado == Completado
      && fin.after.prestamos[rreq.prestamo_id].cantidad == 0
  {
    var mid := CreateLoan(db, lreq, lcode).after;
    var h := lreq.herramienta_id;
    assert mid.prestamos[rreq.prestamo_id].herramienta_id == h;
    assert mid.herramientas[h] == Lend(db.herramientas[h], lreq.cantidad);
    assert Lend(mid.herramientas[h], -rreq.cantidad) == db.herramientas[h];
    assert mid.herramientas[h := db.herramientas[h]] == db.herramientas;
  }

  /** While a tool is lent out it cannot be deleted. */
  lemma LentToolCannotBeDeleted(db: Db, lreq: LoanRequest, lcode: string)
    requires CreateLoan(db, lreq, lcode).response.Ok?
    ensures DeleteTool(CreateLoan(db, lreq, lcode).after, lreq.herramienta_id).response == Fail(400, ToolHasActiveLoans)
  {
    var mid := CreateLoan(db, lreq, lcode).after;
    assert mid.prestamos[db.nextPrestamo].herramienta_id == lreq.herramienta_id;
    assert ToolHasActiveLoan(mid, lreq.herramienta_id);
  }

  /** A requester whose only active loan is returned in full can then be deleted. */
  lemma FullReturnReleasesRequester(db: Db, rreq: ReturnRequest, rcode: string, s: int)
    requires ReturnRequestComplete(rreq) && rreq.prestamo_id in db.prestamos
    requires db.prestamos[rreq.prestamo_id].estado == Activo
    requires rreq.cantidad >= db.prestamos[rreq.prestamo_id].cantidad
    requires s in db.solicitantes
    requires forall k :: k in db.prestamos && k != rreq.prestamo_id && db.prestamos[k].estado == Activo ==>
               db.prestamos[k].solicitante_id != s
    ensures DeleteRequester(CreateReturn(db, rreq, rcode).after, s).response.Ok?
  {
    var fin := CreateReturn(db, rreq, rcode).after;
    assert fin.prestamos[rreq.prestamo_id].estado == Completado;
    forall k | k in fin.prestamos && fin.prestamos[k].estado == Activo
      ensures fin.prestamos[k].solicitante_id != s
    {
      assert k != rreq.prestamo_id;
      assert fin.prestamos[k] == db.prestamos[k];
    }
    assert !RequesterHasActiveLoan(fin, s);
  }

  /** Registering the same requester twice is refused the second time. */
  lemma RegisterTwiceFails(db: Db, req: Registration)
    requires Register(db, req).response.Ok?
    ensures Register(Register(db, req).after, req).response == Fail(400, AlreadyRegistered)
  {
    var mid := Register(db, req).after;
    assert SameRequester(mid.solicitantes[db.nextSolicitante], req.nombre, req.email);
  }

  /** Every tool's stock splits between the warehouse and the loans. */
  ghost predicate AllBalanced(db: Db) {
    forall k :: k in db.herramientas ==> Balanced(db.herramientas[k])
  }

  /** A step that keeps every tool's sum and stock, and adds no tool, keeps every tool
      balanced. */
  lemma BalanceCarriesOver(db: Db, after: Db)
    requires AllBalanced(db) && StockKept(db, after)
    requires after.herramientas.Keys <= db.herramientas.Keys
    ensures AllBalanced(after)
  {
    forall k | k in after.herramientas ensures Balanced(after.herramientas[k]) {
      assert k in db.herramientas;
    }
  }

  /** A new tool is balanced, so creating one keeps every tool balanced. */
  lemma CreateToolKeepsBalance(db: Db, req: ToolRequest)
    requires AllBalanced(db)
    ensures AllBalanced(CreateTool(db, req).after)
  {
  }

  /** Lending keeps every tool balanced. */
  lemma LoanKeepsBalance(db: Db, req: LoanRequest, code: string)
    requires AllBalanced(db)
    ensures AllBalanced(CreateLoan(db, req, code).after)
  {
    BalanceCarriesOver(db, CreateLoan(db, req, code).after);
  }

  /** Returning keeps every tool balanced, over-returns included. */
  lemma ReturnKeepsBalance(db: Db, req: ReturnRequest, code: string)
    requires AllBalanced(db)
    ensures AllBalanced(CreateReturn(db, req, code).after)
  {
    BalanceCarriesOver(db, CreateReturn(db, req, code).after);
  }

  /** The three guarded deletes keep every remaining tool balanced; `StockUpdateMayUnbalance`
      shows that the tool update is the one handler that does not. */
  lemma DeletesKeepBalance(db: Db, id: int)
    requires AllBalanced(db)
    ensures AllBalanced(DeleteTool(db, id).after)
    ensures AllBalanced(DeleteCategory(db, id).after)
    ensures AllBalanced(DeleteRequester(db, id).after)
  {
  }

  /** The running example, first half: ten units in the warehouse, three lent. */
  lemma LoanExample()
    ensures
      var t := Tool(Some("T1"), Some("Taladro"), Some(1), Some(10), 10, 0, Some("Activo"));
      var db := Db(map[1 := t], map[], map[], map[], [], map[], 2, 2, 1, 1);
      var s := CreateLoan(db, LoanRequest(1, 1, 3, Some(100), None, None), "PRES-1");
      && s.response == Ok(Created(1, "PRES-1"))
      && s.after.herramientas[1] == t.(en_bodega := 7, prestadas := 3)
      && s.after.prestamos[1] == Loan("PRES-1", 1, 1, 3, 100, None, None, Activo)
  {
  }

  /** The running example, second half: the three units come back four days later. */
  lemma ReturnExample()
    ensures
      var t := Tool(Some("T1"), Some("Taladro"), Some(1), Some(10), 7, 3, Some("Activo"));
      var db := Db(map[1 := t], map[], map[], map[1 := Loan("PRES-1", 1, 1, 3, 100, None, None, Activo)], [], map[], 2, 2, 2, 1);
      var s := CreateReturn(db, ReturnRequest(1, 3, Some(104), None, None), "DEV-1");
      && s.response == Ok(Created(1, "DEV-1"))
      && s.after.herramientas[1] == t.(en_bodega := 10, prestadas := 0)
      && s.after.prestamos[1] == Loan("PRES-1", 1, 1, 0, 100, None, None, Completado)
      && s.after.devoluciones == [Return(1, "DEV-1", 1, 1, 3, 104, 4, "Buena", None)]
  {
  }

  /** A return is not capped at the quantity outstanding: returning five units of a
      three-unit loan completes it, leaves more units in the warehouse than the tool has
      in stock and a negative count on loan. */
  lemma OverReturnIsNotCapped()
    ensures
      var t := Tool(Some("T1"), Some("Taladro"), Some(1), Some(10), 7, 3, Some("Activo"));
      var loan := Loan("PRES-1", 1, 1, 3, 100, None, None, Activo);
      var db := Db(map[1 := t], map[], map[], map[1 := loan], [], map[], 2, 2, 2, 1);
      var s := CreateReturn(db, ReturnRequest(1, 5, Some(101), None, None), "DEV-1");
      && s.response.Ok?
      && s.after.prestamos[1].estado == Completado
      && s.after.herramientas[1].en_bodega == 12 && s.after.herramientas[1].prestadas == -2
      && s.after.herramientas[1].en_bodega > t.stock_total.value
  {
  }

  /** A tool update that changes only the stock keeps the warehouse and loan counts it
      does not clamp, so the stock no longer splits between them. */
  lemma StockUpdateMayUnbalance()
    ensures
      var t := Tool(Some("T1"), Some("Taladro"), Some(1), Some(10), 7, 3, Some("Activo"));
      var db := Db(map[1 := t], map[], map[], map[], [], map[], 2, 1, 1, 1);
      var s := UpdateTool(db, 1, ToolUpdate(Some("T1"), Some("Taladro"), Some(1), Some(8), None, None, Some("Activo")));
      && Balanced(t)
      && s.response.Ok? && s.after.herramientas[1].en_bodega == 7 && s.after.herramientas[1].prestadas == 3
      && !Balanced(s.after.herramientas[1])
  {
  }

  /** An administrator who updates their own account without sending a role is not
      refused, and the role column becomes NULL. */
  lemma SelfUpdateWithoutRoleClearsRole(db: Db, actor: Auth.UserContext, req: UserUpdate)
    requires actor.id in db.usuarios && req.rol.None?
    ensures UpdateUser(db, Some(actor), actor.id, req).response.Ok?
    ensures UpdateUser(db, Some(actor), actor.id, req).after.usuarios[actor.id].rol.None?
  {
  }
}
