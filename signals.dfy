/**
 * The stock ledger kept by the signal handlers of `apps/task/signals.py`.
 *
 * A save runs the `pre_save` validator first; a `ValidationError` aborts the save and no
 * `post_save` handler runs. The sale-line handlers are meant to fix a new line's price and
 * subtotal, recompute its invoice's total and take its quantity out of stock; as written they
 * name a `subtotal` and a `total` that `models.py` does not declare, so every sale-line save
 * raises after its row is written (`CrearDetalleEscrito`, `ActualizarDetalleEscrito`), and the
 * intended behaviour is `CrearDetalle` and `ActualizarDetalle`. Creating a movement adds or
 * takes its quantity; deleting a movement undoes, unchecked, what its stored version would have
 * done.
 */
module Senales {
  import opened Wrappers
  import opened Seqs
  import opened Modelos

  /**
   * The three `ValidationError`s the validators raise, and the error a handler raises when it
   * names a field `models.py` does not declare (`ValueError` from `update_fields`,
   * `AttributeError` on a read).
   */
  datatype Error =
    | StockInsuficiente(disponible: int, solicitado: int)
    | FaltaProveedor
    | FaltaCliente
    | SinCampo(campo: string)

  /** A stored sale line: its declared fields and the `subtotal` the signals attach to it. */
  datatype Linea = Linea(detalle: DetalleVenta, subtotal: int)

  /** `validar_stock_detalle`: a line may not ask for more than the product's stock. */
  function ValidarDetalle(stock: int, cantidad: int): (e: Option<Error>)
    ensures e.Some? <==> stock < cantidad
    ensures e.Some? ==> e.value == StockInsuficiente(stock, cantidad)
  {
    if stock < cantidad then Some(StockInsuficiente(stock, cantidad)) else None
  }

  /**
   * `validar_movimiento`: an exit needs enough stock and a client, an entry needs a supplier;
   * the stock test comes first and the client test last.
   */
  function ValidarMovimiento(stock: int, m: Movimiento): (e: Option<Error>)
    ensures e.None? <==>
      (m.tipo == Salida ==> m.cantidad <= stock && m.idCliente.Some?) &&
      (m.tipo == Entrada ==> m.idProveedor.Some?)
    ensures m.tipo == Salida && stock < m.cantidad ==> e == Some(StockInsuficiente(stock, m.cantidad))
    ensures e == Some(FaltaProveedor) <==> m.tipo == Entrada && m.idProveedor.None?
    ensures e == Some(FaltaCliente) <==> m.tipo == Salida && m.cantidad <= stock && m.idCliente.None?
  {
    if m.tipo == Salida && stock < m.cantidad then Some(StockInsuficiente(stock, m.cantidad))
    else if m.tipo == Entrada && m.idProveedor.None? then Some(FaltaProveedor)
    else if m.tipo == Salida && m.idCliente.None? then Some(FaltaCliente)
    else None
  }

  /** The signed quantity of a movement: what an entry adds to stock, or minus what an exit takes. */
  function Delta(m: Movimiento): int
  {
    match m.tipo
    case Entrada => m.cantidad
    case Salida => -m.cantidad
  }

  /** The stock change `actualizar_stock_movimiento` makes for a created movement. */
  function Aplicar(stock: int, m: Movimiento): (r: int)
    ensures r == stock + Delta(m)
    ensures Revertir(r, m) == stock
  {
    match m.tipo
    case Entrada => stock + m.cantidad
    case Salida => stock - m.cantidad
  }

  /** The stock change `revertir_stock_movimiento` makes for a deleted movement. */
  function Revertir(stock: int, m: Movimiento): (r: int)
    ensures r == stock - Delta(m)
  {
    match m.tipo
    case Entrada => stock - m.cantidad
    case Salida => stock + m.cantidad
  }

  /** Stock of every product after saving `m`; only a creation touches stock, and only `m`'s product. */
  function StockTrasGuardar(stock: map<int, int>, m: Movimiento, creado: bool): (r: map<int, int>)
    requires m.idProducto in stock
    ensures r.Keys == stock.Keys
    ensures forall q :: q in stock && q != m.idProducto ==> r[q] == stock[q]
    ensures creado && m.tipo == Entrada ==> r[m.idProducto] == stock[m.idProducto] + m.cantidad
    ensures creado && m.tipo == Salida ==> r[m.idProducto] == stock[m.idProducto] - m.cantidad
    ensures !creado ==> r == stock
  {
    if creado then stock[m.idProducto := Aplicar(stock[m.idProducto], m)] else stock
  }

  /** Stock of every product after deleting the stored movement `m`. */
  function StockTrasEliminar(stock: map<int, int>, m: Movimiento): (r: map<int, int>)
    requires m.idProducto in stock
    ensures r.Keys == stock.Keys
    ensures forall q :: q in stock && q != m.idProducto ==> r[q] == stock[q]
    ensures m.tipo == Entrada ==> r[m.idProducto] == stock[m.idProducto] - m.cantidad
    ensures m.tipo == Salida ==> r[m.idProducto] == stock[m.idProducto] + m.cantidad
  {
    stock[m.idProducto := Revertir(stock[m.idProducto], m)]
  }

  /** Creating a movement and then deleting it gives every product its original stock back. */
  lemma CrearEliminarRestaura(stock: map<int, int>, m: Movimiento)
    requires m.idProducto in stock
    ensures StockTrasEliminar(StockTrasGuardar(stock, m, true), m) == stock
  {
  }

  /**
   * Deleting reverts the STORED version: creating `m`, editing it into `m2` (same product and
   * type) and deleting it leaves the stock off by the difference of the two quantities.
   */
  lemma EditarEliminarDesvia(stock: map<int, int>, m: Movimiento, m2: Movimiento)
    requires m.idProducto in stock && m2.idProducto == m.idProducto && m2.tipo == m.tipo
    ensures var p := m.idProducto;
      var s := StockTrasEliminar(StockTrasGuardar(StockTrasGuardar(stock, m, true), m2, false), m2);
      s[p] == stock[p] + (if m.tipo == Entrada then 1 else -1) * (m.cantidad - m2.cantidad)
  {
  }

  /** An exit that passes validation leaves non-negative stock non-negative. */
  lemma SalidaAceptadaNoNegativa(stock: map<int, int>, m: Movimiento)
    requires m.idProducto in stock && stock[m.idProducto] >= 0
    requires m.tipo == Salida && ValidarMovimiento(stock[m.idProducto], m).None?
    ensures StockTrasGuardar(stock, m, true)[m.idProducto] >= 0
  {
  }

  /**
   * Deleting is not validated: an entry of 10 into empty stock, then an accepted exit of 8, then
   * deleting the entry leaves the product at -8.
   */
  lemma EliminarEntradaNegativa()
    ensures var entrada := Movimiento(1, Entrada, 10, 0, 7, None, Some(3));
      var salida := Movimiento(2, Salida, 8, 0, 7, Some(5), None);
      var s1 := StockTrasGuardar(map[7 := 0], entrada, true);
      var s2 := StockTrasGuardar(s1, salida, true);
      ValidarMovimiento(0, entrada).None? && ValidarMovimiento(s1[7], salida).None? &&
      StockTrasEliminar(s2, entrada)[7] == -8
  {
  }

  /**
   * A line is re-validated on every save against the stock it already consumed, so once its
   * creation has taken its quantity out of stock (as `CrearDetalle` intends), re-saving the
   * unchanged line is refused when it took more than half the stock.
   */
  lemma ReguardarDetalleRechazado(stock: int, cantidad: int)
    requires ValidarDetalle(stock, cantidad).None? && 2 * cantidad > stock
    ensures ValidarDetalle(stock - cantidad, cantidad) == Some(StockInsuficiente(stock - cantidad, cantidad))
  {
  }

  predicate DeFactura(f: int, l: Linea)
  {
    l.detalle.idFactura == f
  }

  function Subtotal(l: Linea): int
  {
    l.subtotal
  }

  /** `sum(detalle.subtotal for detalle in factura.detalles.all())`. */
  function SumaSubtotales(ls: seq<Linea>, f: int): int
  {
    Sum(Filter(ls, l => DeFactura(f, l)), Subtotal)
  }

  /** Appending a line adds its subtotal to its own invoice's sum and nothing to any other. */
  lemma SumaSubtotalesSnoc(ls: seq<Linea>, l: Linea, f: int)
    ensures SumaSubtotales(ls + [l], f) == SumaSubtotales(ls, f) + (if DeFactura(f, l) then l.subtotal else 0)
  {
    var p := l => DeFactura(f, l);
    FilterAppend(ls, [l], p);
    SumAppend(Filter(ls, p), Filter([l], p), Subtotal);
  }

  /** Replacing line `i` changes its invoice's sum by the difference of the two subtotals. */
  lemma SumaSubtotalesUpdate(ls: seq<Linea>, i: nat, l: Linea, f: int)
    requires i < |ls|
    ensures SumaSubtotales(ls[i := l], f) ==
      SumaSubtotales(ls, f) - (if DeFactura(f, ls[i]) then ls[i].subtotal else 0)
        + (if DeFactura(f, l) then l.subtotal else 0)
  {
    var p := l => DeFactura(f, l);
    var pre, post := ls[..i], ls[i + 1..];
    assert ls == pre + [ls[i]] + post;
    assert ls[i := l] == pre + [l] + post;
    FilterAppend(pre + [ls[i]], post, p);
    FilterAppend(pre, [ls[i]], p);
    FilterAppend(pre + [l], post, p);
    FilterAppend(pre, [l], p);
    SumAppend(Filter(pre + [ls[i]], p), Filter(post, p), Subtotal);
    SumAppend(Filter(pre, p), Filter([ls[i]], p), Subtotal);
    SumAppend(Filter(pre + [l], p), Filter(post, p), Subtotal);
    SumAppend(Filter(pre, p), Filter([l], p), Subtotal);
  }

  /** The products, invoices, sale lines and movements the signals read and write. */
  class Farmacia {
    var stock: map<int, int>
    var precio: map<int, int>
    /** Sale lines in creation order; a line's id is its position. */
    var detalles: seq<Linea>
    var totales: map<int, int>
    var movimientos: map<int, Movimiento>
    var siguienteMovimiento: int

    /** Every row's foreign keys name existing rows, and ids are what the rows are stored under. */
    ghost predicate Valid()
      reads this
    {
      precio.Keys == stock.Keys &&
      (forall i :: 0 <= i < |detalles| ==>
         detalles[i].detalle.id == i && detalles[i].detalle.idProducto in stock &&
         detalles[i].detalle.idFactura in totales) &&
      (forall id :: id in movimientos ==>
         movimientos[id].id == id && id < siguienteMovimiento && movimientos[id].idProducto in stock)
    }

    /** A database holding products and invoices with no lines or movements yet. */
    constructor (stock0: map<int, int>, precio0: map<int, int>, facturas: set<int>)
      requires precio0.Keys == stock0.Keys
      ensures Valid()
      ensures stock == stock0 && precio == precio0 && detalles == [] && movimientos == map[]
      ensures totales.Keys == facturas && forall f :: f in facturas ==> totales[f] == 0
    {
      stock, precio, detalles := stock0, precio0, [];
      totales := map f | f in facturas :: 0;
      movimientos, siguienteMovimiento := map[], 0;
    }

    /**
     * Saving a new sale line, as the handlers intend it. The price the caller sent is replaced by the product's price, the
     * subtotal is quantity times that price, the invoice total is recomputed from all its lines,
     * and the quantity leaves stock. The nested `save(update_fields=...)` re-runs the validator
     * against the same, not yet reduced, stock and recomputes the same total.
     */
    method CrearDetalle(cantidad: int, precioEnviado: int, idFactura: int, idProducto: int)
      returns (r: Result<int, Error>)
      requires Valid() && idProducto in stock && idFactura in totales
      modifies this
      ensures Valid()
      ensures r.Err? <==> old(stock)[idProducto] < cantidad
      ensures r.Err? ==> r.error == StockInsuficiente(old(stock)[idProducto], cantidad) && unchanged(this)
      ensures r.Ok? ==>
        var precioU := old(precio)[idProducto];
        r.value == |old(detalles)| &&
        detalles == old(detalles) + [Linea(DetalleVenta(r.value, cantidad, precioU, idFactura, idProducto), cantidad * precioU)] &&
        totales == old(totales)[idFactura := old(SumaSubtotales(detalles, idFactura)) + cantidad * precioU] &&
        totales[idFactura] == SumaSubtotales(detalles, idFactura) &&
        stock == old(stock)[idProducto := old(stock)[idProducto] - cantidad] &&
        precio == old(precio) && movimientos == old(movimientos) && siguienteMovimiento == old(siguienteMovimiento)
    {
      var e := ValidarDetalle(stock[idProducto], cantidad);
      if e.Some? {
        return Err(e.value);
      }
      var id := |detalles|;
      var precioU := precio[idProducto];
      var l := Linea(DetalleVenta(id, cantidad, precioU, idFactura, idProducto), cantidad * precioU);
      SumaSubtotalesSnoc(detalles, l, idFactura);
      detalles := detalles + [l];
      totales := totales[idFactura := SumaSubtotales(detalles, idFactura)];
      stock := stock[idProducto := stock[idProducto] - cantidad];
      r := Ok(id);
    }

    /**
     * Saving an existing sale line, as the handlers intend it: validated against current stock; its fields are replaced
     * but its subtotal and the stock are not touched, and its (new) invoice's total is recomputed.
     */
    method ActualizarDetalle(id: int, cantidad: int, precioUnitario: int, idFactura: int, idProducto: int)
      returns (e: Option<Error>)
      requires Valid() && 0 <= id < |detalles| && idProducto in stock && idFactura in totales
      modifies this
      ensures Valid()
      ensures e == ValidarDetalle(old(stock)[idProducto], cantidad)
      ensures e.Some? ==> unchanged(this)
      ensures e.None? ==>
        detalles == old(detalles)[id := Linea(DetalleVenta(id, cantidad, precioUnitario, idFactura, idProducto), old(detalles)[id].subtotal)] &&
        totales == old(totales)[idFactura := SumaSubtotales(detalles, idFactura)] &&
        stock == old(stock) && precio == old(precio) && movimientos == old(movimientos) &&
        siguienteMovimiento == old(siguienteMovimiento)
    {
      e := ValidarDetalle(stock[idProducto], cantidad);
      if e.Some? {
        return;
      }
      detalles := detalles[id := Linea(DetalleVenta(id, cantidad, precioUnitario, idFactura, idProducto), detalles[id].subtotal)];
      totales := totales[idFactura := SumaSubtotales(detalles, idFactura)];
    }

    /**
     * `CrearDetalle` as the handlers are written. `DetalleVenta` declares no `subtotal`, so the
     * nested `save(update_fields=['precio_unitario', 'subtotal'])` raises `ValueError` before it
     * writes anything, and the two later `post_save` handlers never run. The INSERT already made
     * stays (no transaction wraps the save): the line keeps the price the caller sent and has no
     * subtotal (its slot holds 0, and nothing can read it), and neither the invoice total nor the
     * stock changes.
     */
    method CrearDetalleEscrito(cantidad: int, precioEnviado: int, idFactura: int, idProducto: int)
      returns (r: Result<int, Error>)
      requires Valid() && idProducto in stock && idFactura in totales
      modifies this`detalles
      ensures Valid()
      ensures r.Err?
      ensures old(stock)[idProducto] < cantidad ==>
        r.error == StockInsuficiente(old(stock)[idProducto], cantidad) && detalles == old(detalles)
      ensures cantidad <= old(stock)[idProducto] ==>
        r.error == SinCampo("subtotal") &&
        detalles == old(detalles) + [Linea(DetalleVenta(|old(detalles)|, cantidad, precioEnviado, idFactura, idProducto), 0)]
      ensures stock == old(stock) && totales == old(totales)
    {
      var e := ValidarDetalle(stock[idProducto], cantidad);
      if e.Some? {
        return Err(e.value);
      }
      detalles := detalles + [Linea(DetalleVenta(|detalles|, cantidad, precioEnviado, idFactura, idProducto), 0)];
      r := Err(SinCampo("subtotal"));
    }

    /**
     * `ActualizarDetalle` as the handlers are written: validated, and the UPDATE stays; then
     * `actualizar_total_factura` reads `subtotal` off the invoice's lines, which include the
     * saved one and have no such attribute, so it raises `AttributeError` and the total is not
     * recomputed.
     */
    method ActualizarDetalleEscrito(id: int, cantidad: int, precioUnitario: int, idFactura: int, idProducto: int)
      returns (e: Option<Error>)
      requires Valid() && 0 <= id < |detalles| && idProducto in stock && idFactura in totales
      modifies this`detalles
      ensures Valid()
      ensures e.Some?
      ensures old(stock)[idProducto] < cantidad ==>
        e.value == StockInsuficiente(old(stock)[idProducto], cantidad) && detalles == old(detalles)
      ensures cantidad <= old(stock)[idProducto] ==>
        e.value == SinCampo("subtotal") &&
        detalles == old(detalles)[id := Linea(DetalleVenta(id, cantidad, precioUnitario, idFactura, idProducto), old(detalles)[id].subtotal)]
      ensures stock == old(stock) && totales == old(totales)
    {
      e := ValidarDetalle(stock[idProducto], cantidad);
      if e.Some? {
        return;
      }
      detalles := detalles[id := Linea(DetalleVenta(id, cantidad, precioUnitario, idFactura, idProducto), detalles[id].subtotal)];
      e := Some(SinCampo("subtotal"));
    }

    /** Saving a new movement: validated, stored under a fresh id, and applied to its product's stock. */
    method CrearMovimiento(
      tipo: Tipo, cantidad: int, fecha: int, idProducto: int, idCliente: Option<int>, idProveedor: Option<int>)
      returns (r: Result<int, Error>)
      requires Valid() && idProducto in stock
      modifies this
      ensures Valid()
      ensures var m := Movimiento(old(siguienteMovimiento), tipo, cantidad, fecha, idProducto, idCliente, idProveedor);
        var e := ValidarMovimiento(old(stock)[idProducto], m);
        (e.Some? ==> r == Err(e.value) && unchanged(this)) &&
        (e.None? ==>
           r == Ok(m.id) && m.id !in old(movimientos) &&
           movimientos == old(movimientos)[m.id := m] &&
           stock == StockTrasGuardar(old(stock), m, true) &&
           detalles == old(detalles) && totales == old(totales) && precio == old(precio))
    {
      var m := Movimiento(siguienteMovimiento, tipo, cantidad, fecha, idProducto, idCliente, idProveedor);
      var e := ValidarMovimiento(stock[idProducto], m);
      if e.Some? {
        return Err(e.value);
      }
      movimientos := movimientos[m.id := m];
      siguienteMovimiento := siguienteMovimiento + 1;
      stock := StockTrasGuardar(stock, m, true);
      r := Ok(m.id);
    }

    /** Saving an existing movement: validated again, stored, and no stock changes. */
    method ActualizarMovimiento(m: Movimiento) returns (e: Option<Error>)
      requires Valid() && m.id in movimientos && m.idProducto in stock
      modifies this`movimientos
      ensures Valid()
      ensures e == ValidarMovimiento(stock[m.idProducto], m)
      ensures movimientos == if e.None? then old(movimientos)[m.id := m] else old(movimientos)
    {
      e := ValidarMovimiento(stock[m.idProducto], m);
      if e.None? {
        movimientos := movimientos[m.id := m];
      }
    }

    /** Deleting a movement reverts its stored version's stock change, without any check. */
    method EliminarMovimiento(id: int) returns (encontrado: bool)
      requires Valid()
      modifies this`movimientos, this`stock
      ensures Valid()
      ensures encontrado <==> id in old(movimientos)
      ensures encontrado ==>
        movimientos == old(movimientos) - {id} &&
        stock == StockTrasEliminar(old(stock), old(movimientos)[id])
      ensures !encontrado ==> movimientos == old(movimientos) && stock == old(stock)
    {
      encontrado := id in movimientos;
      if encontrado {
        var m := movimientos[id];
        movimientos := movimientos - {id};
        stock := StockTrasEliminar(stock, m);
      }
    }
  }

  /**
   * A product with stock 5 and price 100 and a first line of 2 units on invoice 7. As written the
   * save raises, the stock stays 5 and the total 0; the intended handlers store the line, leave 3
   * in stock and set the total to 200.
   */
  method DiscrepanciaDetalle()
    returns (rEscrito: Result<int, Error>, stockEscrito: int, totalEscrito: int,
             rCorregido: Result<int, Error>, stockCorregido: int, totalCorregido: int)
    ensures rEscrito == Err(SinCampo("subtotal")) && stockEscrito == 5 && totalEscrito == 0
    ensures rCorregido == Ok(0) && stockCorregido == 3 && totalCorregido == 200
  {
    var escrito := new Farmacia(map[1 := 5], map[1 := 100], {7});
    rEscrito := escrito.CrearDetalleEscrito(2, 100, 7, 1);
    stockEscrito, totalEscrito := escrito.stock[1], escrito.totales[7];
    var corregido := new Farmacia(map[1 := 5], map[1 := 100], {7});
    rCorregido := corregido.CrearDetalle(2, 100, 7, 1);
    stockCorregido, totalCorregido := corregido.stock[1], corregido.totales[7];
  }
}
