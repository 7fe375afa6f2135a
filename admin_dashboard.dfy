/**
 * The administrator's dashboard: the role check, the four figures it loads, and logout.
 */
module AdminDashboard {
  import opened Wrappers
  import opened Seqs
  import opened Text
  import opened Sesion
  import opened Registros

  /** `localStorage.getItem("rol")?.trim().toLowerCase() === "administrador"`; no token is needed. */
  predicate Autorizado(s: Almacen)
  {
    Leer(s, "rol").Some? && ToLower(Trim(Leer(s, "rol").value)) == "administrador"
  }

  /** White space around the stored role does not change the decision. */
  lemma RolConEspacios(s: Almacen, p: string, u: string, q: string)
    requires TodoEspacio(p) && TodoEspacio(q)
    ensures Autorizado(s["rol" := Texto(p + u + q)]) == Autorizado(s["rol" := Texto(u)])
  {
    var s1, s2 := s["rol" := Texto(p + u + q)], s["rol" := Texto(u)];
    assert Leer(s1, "rol") == Some(p + u + q);
    assert Leer(s2, "rol") == Some(u);
    TrimRodeado(p, u, q);
  }

  datatype Estadisticas = Estadisticas(totalProductos: nat, totalVentas: nat, stockBajo: nat, totalMovimientos: nat)

  const Inicial := Estadisticas(0, 0, 0, 0)

  /** The three lists the `fetch` calls return. */
  datatype Datos = Datos(productos: seq<ProductoVista>, ventas: seq<FacturaVista>, movimientos: seq<MovimientoVista>)

  /** The figures of `cargarEstadisticas`: three lengths and the products with stock under 10. */
  function Calcular(d: Datos): (e: Estadisticas)
    ensures e.totalProductos == |d.productos| && e.totalVentas == |d.ventas| && e.totalMovimientos == |d.movimientos|
    ensures e.stockBajo == Count(d.productos, Bajo) + Count(d.productos, SinExistencias)
    ensures e.stockBajo <= e.totalProductos
  {
    CountDisjointUnion(d.productos, Bajo, SinExistencias, MenosDeDiez);
    Estadisticas(|d.productos|, |d.ventas|, Count(d.productos, MenosDeDiez), |d.movimientos|)
  }

  /** Where the screen ends: a navigation and the figures. */
  datatype Salida = Salida(destino: Option<string>, stats: Estadisticas)

  /**
   * `cargarEstadisticas`: `None` stands for a request that is rejected or a product body that is
   * not a list, whose `filter` throws; the error is only logged and the figures stay at zero.
   */
  function Cargar(s: Almacen, datos: Option<Datos>): (r: Salida)
    ensures !Autorizado(s) ==> r == Salida(Some("/login"), Inicial)
    ensures Autorizado(s) ==> r.destino.None?
    ensures Autorizado(s) && datos.Some? ==> r.stats == Calcular(datos.value)
    ensures Autorizado(s) && datos.None? ==> r.stats == Inicial
  {
    if !Autorizado(s) then Salida(Some("/login"), Inicial)
    else if datos.None? then Salida(None, Inicial)
    else Salida(None, Calcular(datos.value))
  }

  /** After a logout the dashboard turns the next visit away. */
  lemma TrasCerrarSesion(s: Almacen, datos: Option<Datos>)
    ensures Cargar(CerrarSesion(s).0, datos).destino == Some("/login")
  {
    assert !Autorizado(Vacio);
  }
}
