/**
 * The sale cart of the employee's sale screen: the lines kept in `venta.detalles`, the running
 * `total` updated on every change, the validation loop run before saving, and the product search.
 */
module RegistrarVenta {
  import opened Wrappers
  import opened Seqs
  import opened Text
  import opened Registros

  /** One cart line; prices are in cents. */
  datatype Linea = Linea(idProducto: int, nombre: Option<string>, cantidad: int, precioUnitario: int, subtotal: int)

  function Subtotal(l: Linea): int { l.subtotal }
  function Cantidad(l: Linea): int { l.cantidad }

  /** Σ subtotal over the lines. */
  function SumaSubtotales(ds: seq<Linea>): int
  {
    Sum(ds, Subtotal)
  }

  /** `totalItems`: Σ cantidad over the lines. */
  function TotalItems(ds: seq<Linea>): int
  {
    Sum(ds, Cantidad)
  }

  /** No two lines are for the same product. */
  predicate ProductosDistintos(ds: seq<Linea>)
  {
    forall i, j :: 0 <= i < j < |ds| ==> ds[i].idProducto != ds[j].idProducto
  }

  /** Every line holds at least one unit and its subtotal is quantity × unit price. */
  predicate LineasCoherentes(ds: seq<Linea>)
  {
    forall i :: 0 <= i < |ds| ==> ds[i].cantidad >= 1 && ds[i].subtotal == ds[i].cantidad * ds[i].precioUnitario
  }

  /** `detalles.findIndex(d => d.id_producto === id)`. */
  function IndiceDe(ds: seq<Linea>, id: int): (r: int)
    ensures -1 <= r < |ds|
    ensures r == -1 <==> forall j :: 0 <= j < |ds| ==> ds[j].idProducto != id
    ensures r >= 0 ==> ds[r].idProducto == id && forall j :: 0 <= j < r ==> ds[j].idProducto != id
  {
    if ds == [] then -1
    else if ds[0].idProducto == id then 0
    else
      var r := IndiceDe(ds[1..], id);
      if r == -1 then -1 else r + 1
  }

  /** The new line of a product added for the first time: one unit at the product's price. */
  function NuevaLinea(p: ProductoVista): Linea
  {
    Linea(p.id, p.nombre, 1, p.precio, p.precio)
  }

  /** Line `i` with quantity `n` and its subtotal recomputed. */
  function ConCantidad(ds: seq<Linea>, i: nat, n: int): (r: seq<Linea>)
    requires i < |ds|
    ensures |r| == |ds| && r[i].cantidad == n && r[i].subtotal == n * ds[i].precioUnitario
    ensures r[i].idProducto == ds[i].idProducto && r[i].precioUnitario == ds[i].precioUnitario
    ensures forall j :: 0 <= j < |ds| && j != i ==> r[j] == ds[j]
  {
    ds[i := ds[i].(cantidad := n, subtotal := n * ds[i].precioUnitario)]
  }

  /** `detalles.splice(i, 1)`: line `i` goes, the others keep their order. */
  function SinLinea(ds: seq<Linea>, i: nat): (r: seq<Linea>)
    requires i < |ds|
    ensures |r| == |ds| - 1
    ensures forall j :: 0 <= j < i ==> r[j] == ds[j]
    ensures forall j :: i <= j < |r| ==> r[j] == ds[j + 1]
  {
    ds[..i] + ds[i + 1..]
  }

  predicate MismoId(id: int, p: ProductoVista) { p.id == id }

  /** `productos.find(p => p.id === id)`. */
  function ProductoDe(productos: seq<ProductoVista>, id: int): (r: Option<ProductoVista>)
    ensures r.Some? ==> r.value in productos && r.value.id == id
    ensures r.None? <==> forall p :: p in productos ==> p.id != id
  {
    Find(productos, p => MismoId(id, p))
  }

  /** A quantity the stock check of `actualizarCantidad` turns down: above a known product's stock. */
  predicate Excede(productos: seq<ProductoVista>, id: int, n: int)
  {
    var p := ProductoDe(productos, id);
    p.Some? && n > Numero(p.value.stock)
  }

  /** Why `validarVenta` refuses, one case per alert. */
  datatype Motivo = SinCliente | SinProductos | SinEmpleado | NoEncontrado(nombre: Option<string>) |
    StockInsuficiente(nombre: Option<string>, disponible: int)

  /** A line the loop of `validarVenta` lets through: its product is listed and has the stock. */
  predicate LineaVendible(productos: seq<ProductoVista>, l: Linea)
  {
    var p := ProductoDe(productos, l.idProducto);
    p.Some? && l.cantidad <= Numero(p.value.stock)
  }

  /**
   * The cart's stock property against the loaded product list: every line names a listed product
   * and holds no more than its stock. The list is loaded once, and every cart operation keeps it.
   */
  predicate Vendibles(productos: seq<ProductoVista>, ds: seq<Linea>)
  {
    forall i :: 0 <= i < |ds| ==> LineaVendible(productos, ds[i])
  }

  /** A product the list holds under its id, with stock, can be appended as a one-unit line. */
  lemma VendiblesSnoc(productos: seq<ProductoVista>, ds: seq<Linea>, p: ProductoVista)
    requires Vendibles(productos, ds) && ProductoDe(productos, p.id) == Some(p) && Numero(p.stock) > 0
    ensures Vendibles(productos, ds + [NuevaLinea(p)])
  {
    assert LineaVendible(productos, NuevaLinea(p));
  }

  class Venta {
    var idCliente: string
    var detalles: seq<Linea>
    var total: int

    /** The cart's invariant: the running total is Σ subtotals, lines are coherent and distinct. */
    ghost predicate Valid()
      reads this
    {
      total == SumaSubtotales(detalles) && LineasCoherentes(detalles) && ProductosDistintos(detalles)
    }

    /** The initial state `{ id_cliente: "", detalles: [] }` with `total` 0. */
    constructor ()
      ensures Valid() && idCliente == "" && detalles == [] && total == 0
    {
      idCliente := "";
      detalles := [];
      total := 0;
    }

    /** The client select. */
    method SeleccionarCliente(id: string)
      modifies this`idCliente
      ensures idCliente == id
    {
      idCliente := id;
    }

    /** `eliminarProducto(i)`: exactly line `i` goes and the total drops by its subtotal. */
    method EliminarProducto(i: nat)
      requires Valid() && i < |detalles|
      modifies this`detalles, this`total
      ensures Valid()
      ensures detalles == SinLinea(old(detalles), i)
      ensures total == old(total) - old(detalles[i].subtotal)
      ensures forall productos :: Vendibles(productos, old(detalles)) ==> Vendibles(productos, detalles)
    {
      var eliminado := detalles[i].subtotal;
      SumRemove(detalles, i, Subtotal);
      detalles := SinLinea(detalles, i);
      total := total - eliminado;
    }

    /**
     * `actualizarCantidad(i, n)`: below 1 the line is removed; above a known product's stock
     * nothing changes; otherwise the line gets quantity `n` and the total moves by the change of
     * its subtotal.
     */
    method ActualizarCantidad(i: nat, n: int, productos: seq<ProductoVista>) returns (cambiado: bool)
      requires Valid() && i < |detalles|
      modifies this`detalles, this`total
      ensures Valid()
      ensures n < 1 ==> cambiado && detalles == SinLinea(old(detalles), i) && total == old(total) - old(detalles[i].subtotal)
      ensures n >= 1 && Excede(productos, old(detalles[i].idProducto), n) ==>
        !cambiado && detalles == old(detalles) && total == old(total)
      ensures n >= 1 && !Excede(productos, old(detalles[i].idProducto), n) ==>
        cambiado && detalles == ConCantidad(old(detalles), i, n) &&
        total == old(total) - old(detalles[i].subtotal) + n * old(detalles[i].precioUnitario)
      ensures Vendibles(productos, old(detalles)) ==> Vendibles(productos, detalles)
    {
      if n < 1 {
        EliminarProducto(i);
        return true;
      }
      if Excede(productos, detalles[i].idProducto, n) {
        return false;
      }
      var anterior := detalles[i].subtotal;
      var nuevo := n * detalles[i].precioUnitario;
      var ds := ConCantidad(detalles, i, n);
      SumUpdate(detalles, i, ds[i], Subtotal);
      assert ds == detalles[i := ds[i]];
      detalles := ds;
      total := total - anterior + nuevo;
      return true;
    }

    /** `incrementarCantidad(i)`. */
    method IncrementarCantidad(i: nat, productos: seq<ProductoVista>) returns (cambiado: bool)
      requires Valid() && i < |detalles|
      modifies this`detalles, this`total
      ensures Valid()
      ensures var n := old(detalles[i].cantidad) + 1;
        if Excede(productos, old(detalles[i].idProducto), n) then !cambiado && detalles == old(detalles) && total == old(total)
        else cambiado && detalles == ConCantidad(old(detalles), i, n)
      ensures Vendibles(productos, old(detalles)) ==> Vendibles(productos, detalles)
    {
      cambiado := ActualizarCantidad(i, detalles[i].cantidad + 1, productos);
    }

    /** `decrementarCantidad(i)`: a line holding one unit is removed. */
    method DecrementarCantidad(i: nat, productos: seq<ProductoVista>) returns (cambiado: bool)
      requires Valid() && i < |detalles|
      modifies this`detalles, this`total
      ensures Valid()
      ensures old(detalles[i].cantidad) == 1 ==> cambiado && detalles == SinLinea(old(detalles), i)
      ensures var n := old(detalles[i].cantidad) - 1;
        n >= 1 ==>
          if Excede(productos, old(detalles[i].idProducto), n) then !cambiado && detalles == old(detalles)
          else cambiado && detalles == ConCantidad(old(detalles), i, n)
      ensures Vendibles(productos, old(detalles)) ==> Vendibles(productos, detalles)
    {
      cambiado := ActualizarCantidad(i, detalles[i].cantidad - 1, productos);
    }

    /**
     * `agregarProducto(p)`: a product without stock is refused; a product already in the cart
     * gets one more unit; any other product is appended as a new line of one unit.
     */
    method AgregarProducto(p: ProductoVista, productos: seq<ProductoVista>) returns (agregado: bool)
      requires Valid()
      modifies this`detalles, this`total
      ensures Valid()
      ensures Numero(p.stock) <= 0 ==> !agregado && detalles == old(detalles) && total == old(total)
      ensures Numero(p.stock) > 0 && IndiceDe(old(detalles), p.id) == -1 ==>
        agregado && detalles == old(detalles) + [NuevaLinea(p)] && total == old(total) + p.precio
      ensures Numero(p.stock) > 0 && IndiceDe(old(detalles), p.id) >= 0 ==>
        var i := IndiceDe(old(detalles), p.id);
        var n := old(detalles[i].cantidad) + 1;
        if Excede(productos, p.id, n) then !agregado && detalles == old(detalles)
        else agregado && detalles == ConCantidad(old(detalles), i, n)
      ensures agregado ==> TotalItems(detalles) == TotalItems(old(detalles)) + 1
      ensures Vendibles(productos, old(detalles)) && ProductoDe(productos, p.id) == Some(p) ==>
        Vendibles(productos, detalles)
    {
      if Numero(p.stock) <= 0 {
        return false;
      }
      var i := IndiceDe(detalles, p.id);
      if i != -1 {
        ghost var antes := detalles;
        agregado := IncrementarCantidad(i, productos);
        if agregado {
          SumUpdate(antes, i, detalles[i], Cantidad);
          assert detalles == antes[i := detalles[i]];
        }
      } else {
        AnadirLinea(p, productos);
        agregado := true;
      }
    }

    /** The new-line branch of `agregarProducto`: one unit at the product's price is appended. */
    method AnadirLinea(p: ProductoVista, productos: seq<ProductoVista>)
      requires Valid() && IndiceDe(detalles, p.id) == -1 && Numero(p.stock) > 0
      modifies this`detalles, this`total
      ensures Valid()
      ensures detalles == old(detalles) + [NuevaLinea(p)] && total == old(total) + p.precio
      ensures TotalItems(detalles) == TotalItems(old(detalles)) + 1
      ensures Vendibles(productos, old(detalles)) && ProductoDe(productos, p.id) == Some(p) ==>
        Vendibles(productos, detalles)
    {
      var l := NuevaLinea(p);
      if Vendibles(productos, detalles) && ProductoDe(productos, p.id) == Some(p) {
        VendiblesSnoc(productos, detalles, p);
      }
      SumSnoc(detalles, l, Subtotal);
      SumSnoc(detalles, l, Cantidad);
      detalles := detalles + [l];
      total := total + p.precio;
    }

    /**
     * `validarVenta`: a client, at least one line and a known employee, then each line in order
     * must name a listed product with enough stock. The first failing check is the reason.
     */
    method ValidarVenta(productos: seq<ProductoVista>, empleadoId: Option<int>) returns (motivo: Option<Motivo>)
      ensures motivo.None? <==>
        idCliente != "" && |detalles| > 0 && empleadoId.Some? && empleadoId.value != 0 &&
        forall l :: l in detalles ==> LineaVendible(productos, l)
      ensures idCliente == "" ==> motivo == Some(SinCliente)
      ensures idCliente != "" && detalles == [] ==> motivo == Some(SinProductos)
      ensures Vendibles(productos, detalles) ==>
        (motivo.None? <==> idCliente != "" && |detalles| > 0 && empleadoId.Some? && empleadoId.value != 0)
    {
      if idCliente == "" {
        return Some(SinCliente);
      }
      if |detalles| == 0 {
        return Some(SinProductos);
      }
      if empleadoId.None? || empleadoId.value == 0 {
        return Some(SinEmpleado);
      }
      var k := 0;
      while k < |detalles|
        invariant 0 <= k <= |detalles|
        invariant forall j :: 0 <= j < k ==> LineaVendible(productos, detalles[j])
      {
        var l := detalles[k];
        var p := ProductoDe(productos, l.idProducto);
        if p.None? {
          return Some(NoEncontrado(l.nombre));
        }
        if l.cantidad > Numero(p.value.stock) {
          return Some(StockInsuficiente(p.value.nombre, Numero(p.value.stock)));
        }
        k := k + 1;
      }
      return None;
    }
  }

  /** Every cart line holds at least one unit, so there are at least as many items as lines. */
  lemma {:induction false} ItemsAlMenosLineas(ds: seq<Linea>)
    requires LineasCoherentes(ds)
    ensures TotalItems(ds) >= |ds|
  {
    if ds != [] {
      assert LineasCoherentes(ds[1..]) by {
        forall i | 0 <= i < |ds[1..]|
          ensures ds[1..][i].cantidad >= 1 && ds[1..][i].subtotal == ds[1..][i].cantidad * ds[1..][i].precioUnitario
        {
          assert ds[1..][i] == ds[i + 1];
        }
      }
      ItemsAlMenosLineas(ds[1..]);
    }
  }

  /** A product is found at most once by `findIndex`, so adding a product twice yields one line of two units. */
  lemma AgregarDosVeces(p: ProductoVista)
    ensures IndiceDe([NuevaLinea(p)], p.id) == 0
    ensures ConCantidad([NuevaLinea(p)], 0, 2) == [Linea(p.id, p.nombre, 2, p.precio, 2 * p.precio)]
  {
  }

  predicate NombreContiene(termino: string, p: ProductoVista)
  {
    p.nombre.Some? && Contains(ToLower(p.nombre.value), ToLower(termino))
  }

  /** `productosFiltrados`: all products for an empty term, else those whose name contains it. */
  function ProductosFiltrados(productos: seq<ProductoVista>, termino: string): (r: seq<ProductoVista>)
    ensures termino == "" ==> r == productos
    ensures IsSublist(r, productos)
    ensures termino != "" ==> forall p :: p in r <==> p in productos && NombreContiene(termino, p)
  {
    if termino == "" then
      SublistaPropia(productos);
      productos
    else Filter(productos, p => NombreContiene(termino, p))
  }
}
