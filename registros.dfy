/**
 * The records the screens receive from the REST API, as far as the screens read them. A field
 * that may be absent (`undefined` or `null` in the JSON) is an `Option`; money is in cents.
 */
module Registros {
  import opened Wrappers

  /** A nested `{ id, nombre }` object (`id_categoria`, `id_proveedor`, `id_cliente`, ...). */
  datatype Referencia = Referencia(id: int, nombre: Option<string>)

  /** A product as `/farmacia/productos/` returns it, with its category and supplier nested. */
  datatype ProductoVista = ProductoVista(
    id: int, nombre: Option<string>, precio: int, stock: Option<int>,
    categoria: Option<Referencia>, proveedor: Option<Referencia>)

  /** The number JavaScript compares and multiplies when it meets `null`: `0`. */
  function Numero(v: Option<int>): (n: int)
    ensures v.Some? ==> n == v.value
    ensures v.None? ==> n == 0
  {
    v.GetOr(0)
  }

  /** The low-stock and out-of-stock cards of the two product screens (`0 < stock < 10`, `stock === 0`). */
  predicate Bajo(p: ProductoVista) { Numero(p.stock) < 10 && Numero(p.stock) > 0 }
  predicate Agotado(p: ProductoVista) { p.stock == Some(0) }

  /** The dashboards' `p.stock < 10`, where a `null` stock compares as `0`. */
  predicate MenosDeDiez(p: ProductoVista) { Numero(p.stock) < 10 }

  /** No stock left: `0`, a `null` stock, or a negative one. */
  predicate SinExistencias(p: ProductoVista) { Numero(p.stock) <= 0 }

  /** The three stock badges a product row can show. */
  datatype Insignia = SinStock | StockBajo | Disponible

  /** The row badge: "Sin Stock" only for a stock of exactly `0`, then "Stock Bajo" below 10. */
  function InsigniaDe(stock: Option<int>): Insignia
  {
    if stock == Some(0) then SinStock
    else if Numero(stock) < 10 then StockBajo
    else Disponible
  }

  /** A stock movement as `/farmacia/movimientos/` returns it, with the names the serializer adds. */
  datatype MovimientoVista = MovimientoVista(
    id: int, tipo: string, cantidad: int, fecha: int, idProducto: int,
    idProveedor: Option<int>, idCliente: Option<int>, responsable: Option<int>,
    productoNombre: Option<string>, proveedorNombre: Option<string>,
    clienteNombre: Option<string>, responsableNombre: Option<string>)

  /** `m.tipo === "entrada"`, `m.tipo === "salida"`. */
  predicate EsEntrada(m: MovimientoVista) { m.tipo == "entrada" }
  predicate EsSalida(m: MovimientoVista) { m.tipo == "salida" }

  /** An employee record: its own id and the id of the user account it belongs to. */
  datatype EmpleadoVista = EmpleadoVista(id: int, usuario: Option<int>)

  /** The client nested in an invoice: its id, name and user account. */
  datatype ClienteRef = ClienteRef(id: Option<int>, nombre: Option<string>, usuario: Option<int>)

  /** An invoice as `/farmacia/facturasventa/` returns it. */
  datatype FacturaVista = FacturaVista(
    id: int, fecha: Option<int>, cliente: Option<ClienteRef>, idEmpleado: Option<int>, total: Option<int>)

  /** `factura.id_cliente && factura.id_cliente.usuario === userId`. */
  predicate DelCliente(userId: int, f: FacturaVista)
  {
    f.cliente.Some? && f.cliente.value.usuario == Some(userId)
  }

  /**
   * A sale line as the client screens hold it: `id_factura` from the API, and the `factura_id`,
   * `factura_fecha` and `cliente_nombre` the screens may add from its invoice.
   */
  datatype DetalleVista = DetalleVista(
    id: int, idFactura: Option<int>, facturaId: Option<int>, fecha: Option<int>,
    subtotal: Option<int>, cantidad: Option<int>, clienteNombre: Option<string>)
}
