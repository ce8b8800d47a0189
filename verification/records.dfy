/** The two kinds of stored record the dashboard lists: payments collected (cobros) and
    cash counts (encajes, shown as "arqueos"). Money is in integer cents. */
module Records {
  import opened Wrappers
  import opened Dates

  /** A payment. `createdBy` is the author as stored, normally a name but possibly any
      value; `fecha` is the stored date in whichever shape it was saved. */
  datatype Cobro = Cobro(
    id: string,
    clienteNombre: string,
    clienteCedula: string,
    numeroComprobante: Option<string>,
    observaciones: Option<string>,
    createdBy: JsValue,
    formaPago: string,
    fecha: DateField,
    monto: int)

  /** A cash count: who made it, when, what was collected and declared, and the
      difference between the two. */
  datatype Encaje = Encaje(
    id: string,
    usuarioNombre: string,
    observaciones: Option<string>,
    fecha: DateField,
    totalCobrado: int,
    totalDeclarado: int,
    diferencia: int)
}
