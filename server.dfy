/** The database behind the REST handlers as a mutable store. Each handler runs its
    statements one after another (a lookup, an INSERT, a guarded UPDATE, a ROLLBACK
    that restores what the transaction wrote) and is proved to end in the state, and
    with the answer, that the matching transition of `Bookkeeping` describes. */
module Server {
  import opened Wrappers
  import opened Schema
  import Auth
  import opened Bookkeeping

  class Store {
    var herramientas: map<int, Tool>
    var categorias: map<int, Category>
    var solicitantes: map<int, Requester>
    var prestamos: map<int, Loan>
    var devoluciones: seq<Return>
    var usuarios: map<int, User>
    var nextHerramienta: int
    var nextSolicitante: int
    var nextPrestamo: int
    var nextDevolucion: int

    /** The tables as one value. */
    function State(): Db
      reads this
    {
      Db(herramientas, categorias, solicitantes, prestamos, devoluciones, usuarios,
         nextHerramienta, nextSolicitante, nextPrestamo, nextDevolucion)
    }

    ghost predicate Valid()
      reads this
    {
      Bookkeeping.Valid(State())
    }

    /** Opens a store holding the given tables. */
    constructor(db: Db)
      requires Bookkeeping.Valid(db)
      ensures State() == db && Valid()
    {
      herramientas, categorias, solicitantes := db.herramientas, db.categorias, db.solicitantes;
      prestamos, devoluciones, usuarios := db.prestamos, db.devoluciones, db.usuarios;
      nextHerramienta, nextSolicitante := db.nextHerramienta, db.nextSolicitante;
      nextPrestamo, nextDevolucion := db.nextPrestamo, db.nextDevolucion;
    }

    /** `UPDATE herramientas SET en_bodega = en_bodega - q, prestadas = prestadas + q
        WHERE id = h [AND en_bodega >= q]`: the number of rows changed, 0 or 1. */
    method MoveStock(h: int, q: int, guarded: bool) returns (changes: int)
      modifies this
      ensures changes == (if h in old(herramientas) && (!guarded || old(herramientas)[h].en_bodega >= q) then 1 else 0)
      ensures State() == old(State()).(herramientas :=
                if changes == 1 then old(herramientas)[h := Lend(old(herramientas)[h], q)] else old(herramientas))
    {
      if h in herramientas && (!guarded || herramientas[h].en_bodega >= q) {
        herramientas := herramientas[h := Lend(herramientas[h], q)];
        changes := 1;
      } else {
        changes := 0;
      }
    }

    /** POST /api/herramientas. */
    method CreateTool(req: ToolRequest) returns (r: Response<int>)
      modifies this
      ensures Bookkeeping.CreateTool(old(State()), req) == Step(r, State())
      ensures old(Valid()) ==> Valid()
    {
      if !ToolRequestComplete(req) {
        return Fail(400, MissingFields);
      }
      var id := nextHerramienta;
      herramientas := herramientas[id := Tool(Some(req.codigo), Some(req.nombre), Some(req.categoria_id),
                                              Some(req.stock_total), req.stock_total, 0,
                                              Some(req.estado.GetOr("Activo")))];
      nextHerramienta := id + 1;
      r := Ok(id);
    }

    /** PUT /api/herramientas/:id: reads the current counts, then overwrites the row. */
    method UpdateTool(id: int, req: ToolUpdate) returns (r: Response<()>)
      modifies this
      ensures Bookkeeping.UpdateTool(old(State()), id, req) == Step(r, State())
      ensures old(Valid()) ==> Valid()
    {
      if id !in herramientas {
        return Fail(404, ToolNotFound);
      }
      var row := herramientas[id];
      var enBodegaFinal := EnBodegaFinal(row.en_bodega, req.stock_total, req.en_bodega);
      var prestadasFinal := req.prestadas.GetOr(row.prestadas);
      herramientas := herramientas[id := Tool(req.codigo, req.nombre, req.categoria_id, req.stock_total,
                                              enBodegaFinal, prestadasFinal, req.estado)];
      r := Ok(());
    }

    /** DELETE /api/herramientas/:id: counts the active loans of the tool, then deletes. */
    method DeleteTool(id: int) returns (r: Response<()>)
      modifies this
      ensures Bookkeeping.DeleteTool(old(State()), id) == Step(r, State())
      ensures old(Valid()) ==> Valid()
    {
      if HasActiveLoanFor(prestamos, true, id) {
        return Fail(400, ToolHasActiveLoans);
      }
      if id !in herramientas {
        return Fail(404, ToolNotFound);
      }
      herramientas := herramientas - {id};
      r := Ok(());
    }

    /** DELETE /api/categorias/:id: counts the tools of the category, then deletes. */
    method DeleteCategory(id: int) returns (r: Response<()>)
      modifies this
      ensures Bookkeeping.DeleteCategory(old(State()), id) == Step(r, State())
      ensures old(Valid()) ==> Valid()
    {
      if exists k :: k in herramientas && herramientas[k].categoria_id == Some(id) {
        return Fail(400, CategoryHasTools);
      }
      if id !in categorias {
        return Fail(404, CategoryNotFound);
      }
      categorias := categorias - {id};
      r := Ok(());
    }

    /** DELETE /api/solicitantes/:id: counts the active loans of the requester, then deletes. */
    method DeleteRequester(id: int) returns (r: Response<()>)
      modifies this
      ensures Bookkeeping.DeleteRequester(old(State()), id) == Step(r, State())
      ensures old(Valid()) ==> Valid()
    {
      if HasActiveLoanFor(prestamos, false, id) {
        return Fail(400, RequesterHasActiveLoans);
      }
      if id !in solicitantes {
        return Fail(404, RequesterNotFound);
      }
      solicitantes := solicitantes - {id};
      r := Ok(());
    }

    /** POST /api/prestamos: inserts the loan, then moves the stock on condition that
        the warehouse holds enough; when no row changes, rolls the insert back. */
    method CreateLoan(req: LoanRequest, codigo: string) returns (r: Response<Created>)
      modifies this
      ensures Bookkeeping.CreateLoan(old(State()), req, codigo) == Step(r, State())
      ensures old(Valid()) ==> Valid()
    {
      if !LoanRequestComplete(req) {
        return Fail(400, MissingFields);
      }
      // BEGIN TRANSACTION
      var savedLoans, savedNext := prestamos, nextPrestamo;
      var id := nextPrestamo;
      prestamos := prestamos[id := Loan(codigo, req.herramienta_id, req.solicitante_id, req.cantidad,
                                        req.fecha_salida.value, req.fecha_retorno, req.observaciones, Activo)];
      nextPrestamo := id + 1;
      var changes := MoveStock(req.herramienta_id, req.cantidad, true);
      if changes == 0 {
        // ROLLBACK
        prestamos, nextPrestamo := savedLoans, savedNext;
        return Fail(400, InsufficientStock);
      }
      // COMMIT
      r := Ok(Created(id, codigo));
    }

    /** POST /api/devoluciones: looks up the active loan, inserts the return row, moves
        the stock back, then completes or reduces the loan. */
    method CreateReturn(req: ReturnRequest, codigo: string) returns (r: Response<Created>)
      modifies this
      ensures Bookkeeping.CreateReturn(old(State()), req, codigo) == Step(r, State())
      ensures old(Valid()) ==> Valid()
    {
      if !ReturnRequestComplete(req) {
        return Fail(400, MissingFields);
      }
      // BEGIN TRANSACTION
      if req.prestamo_id !in prestamos || prestamos[req.prestamo_id].estado != Activo {
        // ROLLBACK: nothing was written yet
        return Fail(404, LoanNotFound);
      }
      var prestamo := prestamos[req.prestamo_id];
      var fecha := req.fecha_devolucion.value;
      var diasUso := fecha - prestamo.fecha_salida;
      var id := nextDevolucion;
      devoluciones := devoluciones + [Return(id, codigo, req.prestamo_id, prestamo.herramienta_id, req.cantidad,
                                             fecha, diasUso, Condition(req.estado_herramienta), req.observaciones)];
      nextDevolucion := id + 1;
      var _ := MoveStock(prestamo.herramienta_id, -req.cantidad, false);
      if req.cantidad >= prestamo.cantidad {
        prestamos := prestamos[req.prestamo_id := prestamo.(estado := Completado, cantidad := 0)];
      } else {
        prestamos := prestamos[req.prestamo_id := prestamo.(cantidad := prestamo.cantidad - req.cantidad)];
      }
      // COMMIT
      r := Ok(Created(id, codigo));
    }

    /** POST /api/registro: looks for a requester with the same name or e-mail, then inserts. */
    method Register(req: Registration) returns (r: Response<int>)
      modifies this
      ensures Bookkeeping.Register(old(State()), req) == Step(r, State())
      ensures old(Valid()) ==> Valid()
    {
      if !RegistrationComplete(req) {
        return Fail(400, MissingFields);
      }
      if exists k :: k in solicitantes && SameRequester(solicitantes[k], req.nombre, req.email) {
        return Fail(400, AlreadyRegistered);
      }
      var id := nextSolicitante;
      solicitantes := solicitantes[id := Requester(req.nombre, req.departamento, req.telefono, req.email)];
      nextSolicitante := id + 1;
      r := Ok(id);
    }

    /** DELETE /api/usuarios/:id. */
    method DeleteUser(actor: Option<Auth.UserContext>, id: int) returns (r: Response<()>)
      modifies this
      ensures Bookkeeping.DeleteUser(old(State()), actor, id) == Step(r, State())
      ensures old(Valid()) ==> Valid()
    {
      if actor.Some? && actor.value.id == id {
        return Fail(400, SelfDelete);
      }
      if id !in usuarios {
        return Fail(404, UserNotFound);
      }
      usuarios := usuarios - {id};
      r := Ok(());
    }

    /** PUT /api/usuarios/:id. */
    method UpdateUser(actor: Option<Auth.UserContext>, id: int, req: UserUpdate) returns (r: Response<()>)
      modifies this
      ensures Bookkeeping.UpdateUser(old(State()), actor, id, req) == Step(r, State())
      ensures old(Valid()) ==> Valid()
    {
      if ChangesOwnRole(actor, id, req.rol) {
        return Fail(400, SelfRoleChange);
      }
      if id !in usuarios {
        return Fail(404, UserNotFound);
      }
      var u := usuarios[id];
      usuarios := usuarios[id := u.(nombre_completo := req.nombre_completo, email := req.email,
                                    departamento := req.departamento, rol := req.rol, activo := req.activo)];
      r := Ok(());
    }
  }
}
