/**
 * The administrator's product screen: statistics, the row badge, and the form state that the
 * edit button fills and a save or cancel empties.
 */
module Productos {
  import opened Wrappers
  import opened Seqs
  import opened Registros


  /** `p.precio * p.stock`, in cents; a missing stock multiplies as `0`. */
  function Valor(p: ProductoVista): int
  {
    p.precio * Numero(p.stock)
  }

  datatype Estadisticas = Estadisticas(total: nat, stockBajo: nat, sinStock: nat, valorTotal: int)

  /** `calcularEstadisticas`. */
  function CalcularEstadisticas(ps: seq<ProductoVista>): (e: Estadisticas)
    ensures e.total == |ps| && e.stockBajo <= e.total && e.sinStock <= e.total
    ensures ps == [] ==> e.valorTotal == 0
  {
    Estadisticas(|ps|, Count(ps, Bajo), Count(ps, Agotado), Sum(ps, Valor))
  }

  /** The inventory value grows by one product's value when that product is appended. */
  lemma ValorTotalAgregar(ps: seq<ProductoVista>, p: ProductoVista)
    ensures CalcularEstadisticas(ps + [p]).valorTotal == CalcularEstadisticas(ps).valorTotal + p.precio * Numero(p.stock)
  {
    SumSnoc(ps, p, Valor);
  }

  /** With non-negative prices and stocks the inventory value is never negative. */
  lemma {:induction false} ValorTotalNoNegativo(ps: seq<ProductoVista>)
    requires forall p :: p in ps ==> p.precio >= 0 && Numero(p.stock) >= 0
    ensures CalcularEstadisticas(ps).valorTotal >= 0
  {
    if ps != [] {
      ValorTotalNoNegativo(ps[1..]);
    }
  }

  /** Exactly one badge per row; for a positive stock, "Stock Bajo" is shown iff the product is counted as low. */
  lemma InsigniaYConteo(p: ProductoVista)
    ensures InsigniaDe(p.stock) == SinStock <==> Agotado(p)
    ensures Numero(p.stock) > 0 ==> (InsigniaDe(p.stock) == StockBajo <==> Bajo(p))
  {
  }

  /** A missing stock shows "Stock Bajo" although the low-stock card does not count it. */
  lemma StockAusenteInsignia(p: ProductoVista)
    requires p.stock.None?
    ensures InsigniaDe(p.stock) == StockBajo && !Bajo(p)
  {
  }

  /** A form field: the text typed in, or a value copied from a product (possibly `undefined`). */
  datatype Campo = Texto(s: string) | Numerico(n: int) | Indefinido

  datatype Formulario = Formulario(nombre: Campo, precio: Campo, stock: Campo, idCategoria: Campo, idProveedor: Campo)

  /** The empty form `{ nombre: "", precio: "", stock: "", id_categoria: "", id_proveedor: "" }`. */
  const FormularioVacio := Formulario(Texto(""), Texto(""), Texto(""), Texto(""), Texto(""))

  /** The screen's form state: the fields, the product being edited, and whether the modal is open. */
  datatype Pantalla = Pantalla(form: Formulario, editando: Option<ProductoVista>, modal: bool)

  function DeOpcional(o: Option<int>): Campo
  {
    if o.Some? then Numerico(o.value) else Indefinido
  }

  /** The edit button: the product is being edited and the form holds its own values. */
  function Editar(p: ProductoVista): (e: Pantalla)
    ensures e.editando == Some(p) && e.modal
    ensures e.form.nombre == (if p.nombre.Some? then Texto(p.nombre.value) else Indefinido)
    ensures e.form.precio == Numerico(p.precio)
    ensures e.form.stock == DeOpcional(p.stock)
    ensures p.categoria.Some? ==> e.form.idCategoria == Numerico(p.categoria.value.id)
    ensures p.categoria.None? ==> e.form.idCategoria == Indefinido
    ensures p.proveedor.Some? ==> e.form.idProveedor == Numerico(p.proveedor.value.id)
    ensures p.proveedor.None? ==> e.form.idProveedor == Indefinido
  {
    var nombre := if p.nombre.Some? then Texto(p.nombre.value) else Indefinido;
    var cat := if p.categoria.Some? then Some(p.categoria.value.id) else None;
    var prov := if p.proveedor.Some? then Some(p.proveedor.value.id) else None;
    Pantalla(Formulario(nombre, Numerico(p.precio), DeOpcional(p.stock), DeOpcional(cat), DeOpcional(prov)), Some(p), true)
  }

  /** `resetForm` (cancel). */
  function Cancelar(e: Pantalla): (r: Pantalla)
    ensures r.form == FormularioVacio && r.editando.None? && !r.modal
  {
    Pantalla(FormularioVacio, None, false)
  }

  /** `handleSubmit` after the request: a success empties the form; a failure leaves everything as it was. */
  function TrasGuardar(e: Pantalla, exito: bool): (r: Pantalla)
    ensures exito ==> r.form == FormularioVacio && r.editando.None? && !r.modal
    ensures !exito ==> r == e
  {
    if exito then Pantalla(FormularioVacio, None, false) else e
  }

  /** Every field of `FormularioVacio` is the empty text. */
  predicate Vacio(f: Formulario)
  {
    f.nombre == Texto("") && f.precio == Texto("") && f.stock == Texto("") &&
    f.idCategoria == Texto("") && f.idProveedor == Texto("")
  }

  /** Cancelling an edit and saving it successfully leave the same empty screen. */
  lemma CancelarIgualQueGuardar(p: ProductoVista)
    ensures Cancelar(Editar(p)) == TrasGuardar(Editar(p), true)
    ensures Vacio(Cancelar(Editar(p)).form)
  {
  }
}
