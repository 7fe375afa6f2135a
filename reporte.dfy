/**
 * The reports screen: the role check, the four figures, and which PDF each download button
 * asks for.
 */
module Reporte {
  import opened Wrappers
  import opened Seqs
  import opened Sesion
  import opened Registros

  /** `localStorage.getItem("rol") === "administrador"`: exact, without trimming or lower-casing. */
  predicate Autorizado(s: Almacen)
  {
    Leer(s, "rol") == Some("administrador")
  }

  datatype Estadisticas = Estadisticas(totalVentas: nat, totalProductos: nat, stockBajo: nat, movimientosMes: nat)

  const Inicial := Estadisticas(0, 0, 0, 0)

  /** A product as `ProductoSerializer` sends it, with the `low_stock` field the screen reads. */
  datatype FilaProducto = FilaProducto(producto: ProductoVista, lowStock: Option<bool>)

  /** `ProductoSerializer` lists the model's own fields, and `Producto` has no `low_stock`. */
  function Serializar(p: ProductoVista): FilaProducto { FilaProducto(p, None) }

  predicate MarcadoBajo(f: FilaProducto) { f.lowStock == Some(true) }

  /** `productos.filter(p => p.low_stock).length`, as written. */
  function StockBajoEscrito(fs: seq<FilaProducto>): (n: nat)
    ensures n <= |fs|
  {
    Count(fs, MarcadoBajo)
  }

  /** As written, the count is zero for every product list the backend can send. */
  lemma {:induction false} StockBajoEscritoSiempreCero(ps: seq<ProductoVista>)
    ensures StockBajoEscrito(Map(ps, Serializar)) == 0
  {
    if ps != [] {
      assert Map(ps, Serializar)[1..] == Map(ps[1..], Serializar);
      StockBajoEscritoSiempreCero(ps[1..]);
    }
  }

  /** The count as the other two dashboards take it: products with stock under 10. */
  function StockBajo(ps: seq<ProductoVista>): (n: nat)
    ensures n == Count(ps, Bajo) + Count(ps, SinExistencias)
  {
    CountDisjointUnion(ps, Bajo, SinExistencias, MenosDeDiez);
    Count(ps, MenosDeDiez)
  }

  const Ejemplo := ProductoVista(1, Some("Ibuprofeno"), 500, Some(3), None, None)

  /** One product with 3 units left: the written count says 0, the intended count says 1. */
  lemma StockBajoDiscrepa()
    ensures StockBajoEscrito(Map([Ejemplo], Serializar)) == 0
    ensures StockBajo([Ejemplo]) == 1
  {
    StockBajoEscritoSiempreCero([Ejemplo]);
    assert Filter([Ejemplo], MenosDeDiez) == [Ejemplo];
  }

  /** The three lists `Promise.all` returns; the products as the serializer sends them. */
  datatype Datos = Datos(ventas: seq<FacturaVista>, productos: seq<FilaProducto>, movimientos: seq<MovimientoVista>)

  /**
   * The figures of `cargarEstadisticas`, as written. `movimientosMes` is the number of all
   * movements: the screen does not look at their dates.
   */
  function Calcular(d: Datos): (e: Estadisticas)
    ensures e.totalVentas == |d.ventas| && e.totalProductos == |d.productos| && e.movimientosMes == |d.movimientos|
    ensures e.stockBajo == Count(d.productos, MarcadoBajo)
  {
    Estadisticas(|d.ventas|, |d.productos|, StockBajoEscrito(d.productos), |d.movimientos|)
  }

  /** For every product list the backend sends, the screen reports no product with low stock. */
  lemma CalcularSinStockBajo(ventas: seq<FacturaVista>, ps: seq<ProductoVista>, ms: seq<MovimientoVista>)
    ensures Calcular(Datos(ventas, Map(ps, Serializar), ms)).stockBajo == 0
  {
    StockBajoEscritoSiempreCero(ps);
  }

  function ProductoDe(f: FilaProducto): ProductoVista { f.producto }

  /** The figures with the corrected low-stock count; the other three are those of `Calcular`. */
  function CalcularCorregido(d: Datos): (e: Estadisticas)
    ensures e == Calcular(d).(stockBajo := e.stockBajo)
    ensures e.stockBajo == Count(Map(d.productos, ProductoDe), Bajo) + Count(Map(d.productos, ProductoDe), SinExistencias)
  {
    Estadisticas(|d.ventas|, |d.productos|, StockBajo(Map(d.productos, ProductoDe)), |d.movimientos|)
  }

  /** Where the screen ends: a navigation, the figures, an alert. */
  datatype Salida = Salida(destino: Option<string>, stats: Estadisticas, alerta: bool)

  /** `cargarEstadisticas`: `None` stands for a failed request, which raises an alert. */
  function Cargar(s: Almacen, datos: Option<Datos>): (r: Salida)
    ensures !Autorizado(s) ==> r == Salida(Some("/login"), Inicial, false)
    ensures Autorizado(s) && datos.None? ==> r == Salida(None, Inicial, true)
    ensures Autorizado(s) && datos.Some? ==> r == Salida(None, Calcular(datos.value), false)
  {
    if !Autorizado(s) then Salida(Some("/login"), Inicial, false)
    else if datos.None? then Salida(None, Inicial, true)
    else Salida(None, Calcular(datos.value), false)
  }

  /** What a download button requests: the endpoint and the name the file is saved under. */
  datatype Descarga = Descarga(endpoint: string, archivo: string)

  /** The `switch` of `descargarReporte`: three report types; any other returns before any request. */
  function DescargaDe(tipo: string): (r: Option<Descarga>)
    ensures r.Some? <==> tipo in {"productos", "movimientos", "ventas"}
    ensures tipo == "productos" ==> r == Some(Descarga("/farmacia/productos/all_pdf/", "reporte_productos.pdf"))
    ensures tipo == "movimientos" ==> r == Some(Descarga("/farmacia/movimientos/all_pdf/", "reporte_movimientos.pdf"))
    ensures tipo == "ventas" ==> r == Some(Descarga("/farmacia/detallesventa/all_pdf/", "reporte_ventas.pdf"))
  {
    if tipo == "productos" then Some(Descarga("/farmacia/productos/all_pdf/", "reporte_productos.pdf"))
    else if tipo == "movimientos" then Some(Descarga("/farmacia/movimientos/all_pdf/", "reporte_movimientos.pdf"))
    else if tipo == "ventas" then Some(Descarga("/farmacia/detallesventa/all_pdf/", "reporte_ventas.pdf"))
    else None
  }

  /** Each report file is named after its type. */
  lemma ArchivoPorTipo(tipo: string)
    requires DescargaDe(tipo).Some?
    ensures DescargaDe(tipo).value.archivo == "reporte_" + tipo + ".pdf"
  {
    if tipo == "productos" {
      assert "reporte_" + "productos" + ".pdf" == "reporte_productos.pdf";
    } else if tipo == "movimientos" {
      assert "reporte_" + "movimientos" + ".pdf" == "reporte_movimientos.pdf";
    } else {
      assert "reporte_" + "ventas" + ".pdf" == "reporte_ventas.pdf";
    }
  }

  /** The alert after a download: only success opens with the check mark, and it names the type. */
  function AvisoDescarga(tipo: string, exito: bool): (r: string)
    ensures r != [] && (r[0] == '✅' <==> exito)
    ensures exito ==> |r| >= 10 + |tipo| && r[10..10 + |tipo|] == tipo
    ensures !exito ==> r == "Error al generar el reporte PDF"
  {
    if exito then "✅ Reporte " + tipo + " descargado exitosamente" else "Error al generar el reporte PDF"
  }
}
