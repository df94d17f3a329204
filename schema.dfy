/** Rows of the `usuarios` table, read by the session check and written by the
    user administration handlers. */
module Schema {
  import opened Wrappers

  /** One `usuarios` row. `PUT /api/usuarios/:id` binds omitted body fields as NULL,
      so every column it writes is nullable here; `nombre_usuario` is never written
      after creation. */
  datatype User = User(
    nombre_usuario: string,
    email: Option<string>,
    nombre_completo: Option<string>,
    departamento: Option<string>,
    rol: Option<string>,
    activo: bool)
}
