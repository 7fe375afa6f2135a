/**
 * The backend entities of `apps/task/models.py`. Money is in integer cents (`DecimalField` with
 * two decimal places), dates are day numbers, and a foreign key is the id of the row it names.
 */
module Modelos {
  import opened Wrappers

  datatype Categoria = Categoria(id: int, nombre: string)

  datatype Proveedor = Proveedor(id: int, nombre: string, contacto: string)

  datatype Producto = Producto(
    id: int, nombre: string, precio: int, stock: int, idCategoria: int, idProveedor: int)

  datatype Cliente = Cliente(id: int, nombre: string, correo: string, telefono: string)

  datatype Empleado = Empleado(id: int, nombre: string, telefono: string, cargo: string)

  /** An invoice names exactly one client and one employee: both keys are required. */
  datatype FacturaVenta = FacturaVenta(id: int, fecha: int, idCliente: int, idEmpleado: int)

  /** A sale line names exactly one invoice and one product. */
  datatype DetalleVenta = DetalleVenta(
    id: int, cantidad: int, precioUnitario: int, idFactura: int, idProducto: int)

  /** The two choices of `Movimiento.tipo`. */
  datatype Tipo = Entrada | Salida

  /**
   * A stock movement: a required product and an optional client. The model declares no supplier;
   * `idProveedor` is carried because the movement signals read it. `None` stands for an instance
   * on which the caller set no such attribute: reading it then raises `AttributeError` rather
   * than the supplier `ValidationError`, and the save is refused either way.
   */
  datatype Movimiento = Movimiento(
    id: int, tipo: Tipo, cantidad: int, fecha: int, idProducto: int,
    idCliente: Option<int>, idProveedor: Option<int>)

  /** `Producto.stock` starts at 0; `cantidad` of a sale line and of a movement starts at 1. */
  const StockInicial: int := 0
  const CantidadInicial: int := 1

  /** The stored value of a choice. */
  function TipoTexto(t: Tipo): (s: string)
    ensures s == "entrada" || s == "salida"
  {
    match t
    case Entrada => "entrada"
    case Salida => "salida"
  }

  /** The choice a stored value names; only the two declared values are valid. */
  function ParseTipo(s: string): (t: Option<Tipo>)
    ensures t.Some? <==> s == "entrada" || s == "salida"
    ensures t.Some? ==> TipoTexto(t.value) == s
  {
    if s == "entrada" then Some(Entrada) else if s == "salida" then Some(Salida) else None
  }

  /** Every choice survives a write and a read. */
  lemma ParseTipoTexto(t: Tipo)
    ensures ParseTipo(TipoTexto(t)) == Some(t)
  {
  }

  /** A new product row: the given fields, and the default stock. */
  function NuevoProducto(
    id: int, nombre: string, precio: int, idCategoria: int, idProveedor: int): (p: Producto)
    ensures p.stock == 0
    ensures p.id == id && p.nombre == nombre && p.precio == precio
    ensures p.idCategoria == idCategoria && p.idProveedor == idProveedor
  {
    Producto(id, nombre, precio, StockInicial, idCategoria, idProveedor)
  }

  /** A new sale line with the default quantity. */
  function NuevoDetalle(id: int, precioUnitario: int, idFactura: int, idProducto: int): (d: DetalleVenta)
    ensures d.cantidad == 1
    ensures d.id == id && d.precioUnitario == precioUnitario
    ensures d.idFactura == idFactura && d.idProducto == idProducto
  {
    DetalleVenta(id, CantidadInicial, precioUnitario, idFactura, idProducto)
  }

  /** A new movement with the default quantity and no client. */
  function NuevoMovimiento(id: int, tipo: Tipo, fecha: int, idProducto: int): (m: Movimiento)
    ensures m.cantidad == 1 && m.idCliente == None && m.idProveedor == None
    ensures m.id == id && m.tipo == tipo && m.fecha == fecha && m.idProducto == idProducto
  {
    Movimiento(id, tipo, CantidadInicial, fecha, idProducto, None, None)
  }

  /** The rejection a `unique=True` column raises. */
  datatype ErrorIntegridad = Duplicado(valor: string)

  predicate NombresUnicos(cs: seq<Categoria>)
  {
    forall i, j :: 0 <= i < j < |cs| ==> cs[i].nombre != cs[j].nombre
  }

  /** Inserting a category: refused when the name is taken, so names stay unique. */
  function InsertarCategoria(cs: seq<Categoria>, c: Categoria): (r: Result<seq<Categoria>, ErrorIntegridad>)
    ensures r.Ok? <==> forall x :: x in cs ==> x.nombre != c.nombre
    ensures r.Ok? ==> r.value == cs + [c]
    ensures r.Err? ==> r.error == Duplicado(c.nombre)
    ensures NombresUnicos(cs) && r.Ok? ==> NombresUnicos(r.value)
  {
    if exists x :: x in cs && x.nombre == c.nombre then Err(Duplicado(c.nombre)) else Ok(cs + [c])
  }

  predicate ContactosUnicos(ps: seq<Proveedor>)
  {
    forall i, j :: 0 <= i < j < |ps| ==> ps[i].contacto != ps[j].contacto
  }

  /** Inserting a supplier: refused when the contact is taken (the name may repeat). */
  function InsertarProveedor(ps: seq<Proveedor>, p: Proveedor): (r: Result<seq<Proveedor>, ErrorIntegridad>)
    ensures r.Ok? <==> forall x :: x in ps ==> x.contacto != p.contacto
    ensures r.Ok? ==> r.value == ps + [p]
    ensures r.Err? ==> r.error == Duplicado(p.contacto)
    ensures ContactosUnicos(ps) && r.Ok? ==> ContactosUnicos(r.value)
  {
    if exists x :: x in ps && x.contacto == p.contacto then Err(Duplicado(p.contacto)) else Ok(ps + [p])
  }

  /** Two suppliers with the same name and different contacts are both accepted. */
  lemma NombreProveedorRepetible(a: Proveedor, b: Proveedor)
    requires a.nombre == b.nombre && a.contacto != b.contacto
    ensures InsertarProveedor([a], b) == Ok([a, b])
  {
    assert [a] + [b] == [a, b];
  }
}
