/**
 * The employee's dashboard: who may see it, the four figures it loads, and how a failed load
 * or a logout ends the session.
 */
module EmpleadoDashboard {
  import opened Wrappers
  import opened Seqs
  import opened Text
  import opened Sesion
  import opened Registros

  /** `token && localStorage.getItem("rol")?.toLowerCase() === "empleado"`. */
  predicate Autorizado(s: Almacen)
  {
    Presente(Leer(s, "access")) && Leer(s, "rol").Some? && ToLower(Leer(s, "rol").value) == "empleado"
  }

  datatype Estadisticas = Estadisticas(totalProductos: nat, stockBajo: nat, ventasHoy: nat, movimientosHoy: nat)

  const Inicial := Estadisticas(0, 0, 0, 0)

  /** The three lists `Promise.all` returns. */
  datatype Datos = Datos(productos: seq<ProductoVista>, ventas: seq<FacturaVista>, movimientos: seq<MovimientoVista>)

  predicate VentaDe(hoy: int, v: FacturaVista) { v.fecha == Some(hoy) }
  predicate MovimientoDe(hoy: int, m: MovimientoVista) { m.fecha == hoy }

  /**
   * The figures of `cargarDatosDashboard`. "Stock bajo" here counts every stock under 10, the
   * empty ones included, so it is the product screens' low-stock count plus the products with no
   * stock left.
   */
  function Calcular(d: Datos, hoy: int): (e: Estadisticas)
    ensures e.totalProductos == |d.productos|
    ensures e.stockBajo == Count(d.productos, Bajo) + Count(d.productos, SinExistencias)
    ensures e.ventasHoy + Count(d.ventas, v => !VentaDe(hoy, v)) == |d.ventas|
    ensures e.movimientosHoy + Count(d.movimientos, m => !MovimientoDe(hoy, m)) == |d.movimientos|
  {
    CountDisjointUnion(d.productos, Bajo, SinExistencias, MenosDeDiez);
    CountPartition2(d.ventas, v => VentaDe(hoy, v), v => !VentaDe(hoy, v));
    CountPartition2(d.movimientos, m => MovimientoDe(hoy, m), m => !MovimientoDe(hoy, m));
    Estadisticas(|d.productos|, Count(d.productos, MenosDeDiez),
      Count(d.ventas, v => VentaDe(hoy, v)), Count(d.movimientos, m => MovimientoDe(hoy, m)))
  }

  /** Where the screen ends: the storage, a navigation, the greeting, the figures, an alert. */
  datatype Salida = Salida(almacen: Almacen, destino: Option<string>, nombre: string, stats: Estadisticas, alerta: bool)

  /** `payload.username || "Empleado"`. */
  function Saludo(carga: Carga): string
  {
    if carga.username.Some? && carga.username.value != "" then carga.username.value else "Empleado"
  }

  /**
   * `cargarDatosDashboard`, given the decoded token (`None` when it cannot be decoded) and the
   * outcome of the three requests (`Err` with the failed response's status, if it had one).
   */
  function Cargar(s: Almacen, carga: Option<Carga>, datos: Result<Datos, Option<int>>, hoy: int): (r: Salida)
    ensures !Autorizado(s) ==> r == Salida(s, Some("/login"), "Empleado", Inicial, false)
    ensures Autorizado(s) && carga.None? ==> r == Salida(s, None, "Empleado", Inicial, true)
    ensures Autorizado(s) && carga.Some? && datos.Err? && datos.error in {Some(401), Some(403)} ==>
      r == Salida(Vacio, Some("/login"), Saludo(carga.value), Inicial, false)
    ensures Autorizado(s) && carga.Some? && datos.Err? && datos.error !in {Some(401), Some(403)} ==>
      r == Salida(s, None, Saludo(carga.value), Inicial, true)
    ensures Autorizado(s) && carga.Some? && datos.Ok? ==>
      r == Salida(s, None, Saludo(carga.value), Calcular(datos.value, hoy), false)
  {
    if !Autorizado(s) then Salida(s, Some("/login"), "Empleado", Inicial, false)
    else if carga.None? then Salida(s, None, "Empleado", Inicial, true)
    else
      var nombre := Saludo(carga.value);
      match datos
      case Ok(d) => Salida(s, None, nombre, Calcular(d, hoy), false)
      case Err(st) =>
        if st == Some(401) || st == Some(403) then Salida(Vacio, Some("/login"), nombre, Inicial, false)
        else Salida(s, None, nombre, Inicial, true)
  }

  /** After a logout, or after a load the server refused with 401/403, the next visit goes straight to /login. */
  lemma SesionCerradaRedirige(s: Almacen, carga: Option<Carga>, st: Option<int>,
    otra: Option<Carga>, otros: Result<Datos, Option<int>>, hoy: int)
    requires carga.Some? && (st == Some(401) || st == Some(403))
    ensures Cargar(CerrarSesion(s).0, otra, otros, hoy).destino == Some("/login")
    ensures Cargar(Cargar(s, carga, Err(st), hoy).almacen, otra, otros, hoy).destino == Some("/login")
  {
    assert !Autorizado(Vacio);
  }
}
