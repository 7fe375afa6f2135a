/**
 * The employee's product lookup screen: stock statistics, the combined search / category /
 * stock filter, the list of category names and the page the back button leads to.
 */
module ConsultarProducto {
  import opened Wrappers
  import opened Seqs
  import opened Text
  import opened Sesion
  import opened Registros

  /** The third stock class of the statistics cards. */
  predicate Suficiente(p: ProductoVista) { Numero(p.stock) >= 10 }

  datatype Estadisticas = Estadisticas(total: nat, stockBajo: nat, sinStock: nat, disponible: nat)

  /** `calcularEstadisticas`. */
  function CalcularEstadisticas(ps: seq<ProductoVista>): (e: Estadisticas)
    ensures e.total == |ps|
    ensures e.stockBajo <= e.total && e.sinStock <= e.total && e.disponible <= e.total
  {
    Estadisticas(|ps|, Count(ps, Bajo), Count(ps, Agotado), Count(ps, Suficiente))
  }

  /** No product falls in two classes. */
  lemma ClasesDisjuntas(p: ProductoVista)
    ensures !(Bajo(p) && Agotado(p)) && !(Bajo(p) && Suficiente(p)) && !(Agotado(p) && Suficiente(p))
  {
  }

  /** With every stock present and non-negative, the three counts add up to the total. */
  lemma ClasesSumanTotal(ps: seq<ProductoVista>)
    requires forall p :: p in ps ==> p.stock.Some? && p.stock.value >= 0
    ensures var e := CalcularEstadisticas(ps); e.stockBajo + e.sinStock + e.disponible == e.total
  {
    CountPartition3(ps, Bajo, Agotado, Suficiente);
  }

  /** A product whose stock is missing lands in no class, so its card counts fall short of the total. */
  lemma StockAusenteSinClase(p: ProductoVista)
    requires p.stock.None?
    ensures var e := CalcularEstadisticas([p]); e.stockBajo + e.sinStock + e.disponible == 0 && e.total == 1
  {
  }

  /** `x?.toLowerCase() || ""`. */
  function Minusculas(o: Option<string>): (r: string)
    ensures o.None? ==> r == ""
    ensures o.Some? ==> r == ToLower(o.value)
  {
    if o.Some? then ToLower(o.value) else ""
  }

  /** `producto.id_categoria?.nombre`. */
  function NombreCategoria(p: ProductoVista): Option<string>
  {
    if p.categoria.Some? then p.categoria.value.nombre else None
  }

  predicate CoincideBusqueda(p: ProductoVista, termino: string)
  {
    var t := ToLower(termino);
    Contains(Minusculas(p.nombre), t) || Contains(Minusculas(NombreCategoria(p)), t)
  }

  predicate CoincideCategoria(p: ProductoVista, categoria: string)
  {
    categoria == "" || NombreCategoria(p) == Some(categoria)
  }

  /** The stock filter; `producto.stock || 0` turns a missing stock into `0`, an unknown value keeps all. */
  predicate CoincideStock(p: ProductoVista, filtro: string)
  {
    var s := Numero(p.stock);
    if filtro == "" then true
    else if filtro == "bajo" then s < 10 && s > 0
    else if filtro == "sin" then s == 0
    else if filtro == "disponible" then s >= 10
    else true
  }

  predicate Mostrado(p: ProductoVista, termino: string, categoria: string, filtro: string)
  {
    CoincideBusqueda(p, termino) && CoincideCategoria(p, categoria) && CoincideStock(p, filtro)
  }

  /** `productosFiltrados`: an order-preserving sub-list holding exactly the products all three filters keep. */
  function ProductosFiltrados(ps: seq<ProductoVista>, termino: string, categoria: string, filtro: string)
    : (r: seq<ProductoVista>)
    ensures IsSublist(r, ps)
    ensures forall p :: p in r <==>
      p in ps && CoincideBusqueda(p, termino) && CoincideCategoria(p, categoria) && CoincideStock(p, filtro)
  {
    Filter(ps, p => Mostrado(p, termino, categoria, filtro))
  }

  /** An empty search term matches every product. */
  lemma BusquedaVacia(p: ProductoVista)
    ensures CoincideBusqueda(p, "")
  {
    ContainsEmpty(Minusculas(p.nombre));
  }

  /** The search does not depend on the letter case of the term. */
  lemma BusquedaSinMayusculas(p: ProductoVista, termino: string)
    ensures CoincideBusqueda(p, termino) == CoincideBusqueda(p, ToLower(termino))
  {
    ToLowerIdempotent(termino);
  }

  /** With all three filters empty the whole list is shown. */
  lemma SinFiltrosTodos(ps: seq<ProductoVista>)
    ensures ProductosFiltrados(ps, "", "", "") == ps
  {
    forall p | p in ps
      ensures Mostrado(p, "", "", "")
    {
      BusquedaVacia(p);
    }
    FilterTodos(ps, p => Mostrado(p, "", "", ""));
  }

  /** With every stock present and non-negative, the stock filter selects exactly the card classes. */
  lemma FiltroStockSegunClases(p: ProductoVista)
    ensures CoincideStock(p, "bajo") <==> Bajo(p)
    ensures p.stock.Some? ==> (CoincideStock(p, "sin") <==> Agotado(p))
    ensures CoincideStock(p, "disponible") <==> Suficiente(p)
    ensures p.stock.None? ==> CoincideStock(p, "sin") && !Agotado(p)
  {
  }

  /** The category names present in the list (`.filter(Boolean)` drops missing and empty names). */
  function NombresCategoria(ps: seq<ProductoVista>): (r: seq<string>)
    ensures forall c :: c in r <==> c != "" && exists p :: p in ps && NombreCategoria(p) == Some(c)
  {
    if ps == [] then []
    else
      var resto := NombresCategoria(ps[1..]);
      var n := NombreCategoria(ps[0]);
      assert forall p :: p in ps <==> p == ps[0] || p in ps[1..];
      if Presente(n) then [n.value] + resto else resto
  }

  /** `categoriasUnicas`: duplicate-free, exactly the non-empty category names of the products. */
  function CategoriasUnicas(ps: seq<ProductoVista>): (r: seq<string>)
    ensures forall i, j :: 0 <= i < j < |r| ==> r[i] != r[j]
    ensures forall c :: c in r <==> c != "" && exists p :: p in ps && NombreCategoria(p) == Some(c)
  {
    Dedup(NombresCategoria(ps), {})
  }

  /** `getBackPath`: the administrator goes back to `/admin`, every other role to `/empleado`. */
  function RutaVolver(s: Almacen): (r: string)
    ensures r == "/admin" <==> Leer(s, "rol") == Some("administrador")
    ensures r == "/empleado" <==> Leer(s, "rol") != Some("administrador")
  {
    if Leer(s, "rol") == Some("administrador") then "/admin" else "/empleado"
  }

  /** The row badge and the statistics classes agree on every non-negative stock. */
  lemma InsigniaSegunClase(p: ProductoVista)
    requires p.stock.Some? && p.stock.value >= 0
    ensures InsigniaDe(p.stock) == SinStock <==> Agotado(p)
    ensures InsigniaDe(p.stock) == StockBajo <==> Bajo(p)
    ensures InsigniaDe(p.stock) == Disponible <==> Suficiente(p)
  {
  }
}
