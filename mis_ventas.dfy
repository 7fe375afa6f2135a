/**
 * The employee's sales list: the sales loaded for the signed-in employee, the search and date
 * filters, and the three figures under the list.
 */
module MisVentas {
  import opened Wrappers
  import opened Seqs
  import opened Text
  import opened Sesion
  import opened Registros

  /** `emp.usuario === payload.user_id`. */
  predicate DelUsuario(carga: Carga, e: EmpleadoVista)
  {
    carga.userId.Some? && e.usuario == carga.userId
  }

  /** `v.id_empleado === empleadoId`. */
  predicate DelEmpleado(id: int, v: FacturaVista)
  {
    v.idEmpleado == Some(id)
  }

  /**
   * `empleadoId`: without a token `null`; with one, the id of the first employee whose user is
   * the token's user (`None` inside when there is none). `None` outside: the token could not be
   * decoded or the employee list failed, so the load fails.
   */
  function EmpleadoActual(s: Almacen, carga: Option<Carga>, empleados: Option<seq<EmpleadoVista>>)
    : (r: Option<Option<int>>)
    ensures !Presente(Leer(s, "access")) ==> r == Some(None)
    ensures r.None? <==> Presente(Leer(s, "access")) && (carga.None? || empleados.None?)
    ensures r == Some(None) && Presente(Leer(s, "access")) ==>
      forall e :: e in empleados.value ==> !DelUsuario(carga.value, e)
    ensures r.Some? && r.value.Some? ==>
      exists i :: 0 <= i < |empleados.value| && DelUsuario(carga.value, empleados.value[i]) &&
        empleados.value[i].id == r.value.value &&
        forall j :: 0 <= j < i ==> !DelUsuario(carga.value, empleados.value[j])
  {
    if !Presente(Leer(s, "access")) then Some(None)
    else if carga.None? || empleados.None? then None
    else
      match Find(empleados.value, e => DelUsuario(carga.value, e))
      case Some(e) => Some(Some(e.id))
      case None => Some(None)
  }

  /** `if (empleadoId)`: a found, non-zero id keeps that employee's sales; otherwise every sale. */
  function VentasDelEmpleado(empleadoId: Option<int>, ventas: seq<FacturaVista>): (r: seq<FacturaVista>)
    ensures IsSublist(r, ventas)
    ensures IdPresente(empleadoId) ==> forall v :: v in r <==> v in ventas && DelEmpleado(empleadoId.value, v)
    ensures !IdPresente(empleadoId) ==> r == ventas
  {
    if IdPresente(empleadoId) then Filter(ventas, v => DelEmpleado(empleadoId.value, v))
    else
      SublistaPropia(ventas);
      ventas
  }

  /**
   * `cargarVentas`: the sales the screen holds, or `None` when the load fails (an alert, and the
   * list stays empty).
   */
  function Cargar(s: Almacen, carga: Option<Carga>, empleados: Option<seq<EmpleadoVista>>,
    facturas: Option<seq<FacturaVista>>): (r: Option<seq<FacturaVista>>)
    ensures r.Some? <==> EmpleadoActual(s, carga, empleados).Some? && facturas.Some?
    ensures r.Some? ==> r.value == VentasDelEmpleado(EmpleadoActual(s, carga, empleados).value, facturas.value)
  {
    var emp := EmpleadoActual(s, carga, empleados);
    if emp.None? || facturas.None? then None else Some(VentasDelEmpleado(emp.value, facturas.value))
  }

  /** `venta.id_cliente?.nombre?.toLowerCase().includes(searchTerm.toLowerCase()) || venta.id.toString().includes(searchTerm)`. */
  predicate CoincideBusqueda(termino: string, v: FacturaVista)
  {
    (v.cliente.Some? && v.cliente.value.nombre.Some? && Contains(ToLower(v.cliente.value.nombre.value), ToLower(termino)))
    || Contains(IntToString(v.id), termino)
  }

  /** `!filterDate || venta.fecha === filterDate`; `None` is the empty date field. */
  predicate CoincideFecha(fecha: Option<int>, v: FacturaVista)
  {
    fecha.None? || v.fecha == fecha
  }

  /** `ventasFiltradas`. */
  function VentasFiltradas(ventas: seq<FacturaVista>, termino: string, fecha: Option<int>): (r: seq<FacturaVista>)
    ensures IsSublist(r, ventas)
    ensures forall v :: v in r <==> v in ventas && CoincideBusqueda(termino, v) && CoincideFecha(fecha, v)
  {
    Filter(ventas, v => CoincideBusqueda(termino, v) && CoincideFecha(fecha, v))
  }

  /** With an empty search and no date, every sale is listed. */
  lemma SinFiltrosTodas(ventas: seq<FacturaVista>)
    ensures VentasFiltradas(ventas, "", None) == ventas
  {
    forall v | v in ventas
      ensures CoincideBusqueda("", v)
    {
      ContainsEmpty(IntToString(v.id));
    }
    FilterTodos(ventas, v => CoincideBusqueda("", v) && CoincideFecha(None, v));
  }

  /** Searching for a sale's own id always finds it, whatever its client. */
  lemma BuscarPorId(ventas: seq<FacturaVista>, v: FacturaVista)
    requires v in ventas
    ensures v in VentasFiltradas(ventas, IntToString(v.id), None)
  {
    var t := IntToString(v.id);
    assert OccursAt(t, t, 0) by {
      assert t[0..|t|] == t;
    }
  }

  function TotalDe(v: FacturaVista): int { Numero(v.total) }

  /** "Ingresos Totales": Σ `total || 0`, in cents. */
  function Ingresos(vs: seq<FacturaVista>): (r: int)
    ensures vs == [] ==> r == 0
    ensures (forall v :: v in vs ==> Numero(v.total) >= 0) ==> r >= 0
  {
    SumNoNegativa(vs, TotalDe);
    Sum(vs, TotalDe)
  }

  /** The filtered list's income is at most the whole list's when no total is negative. */
  lemma {:induction false} IngresosFiltradosAcotados(ventas: seq<FacturaVista>, p: FacturaVista -> bool)
    requires forall v :: v in ventas ==> TotalDe(v) >= 0
    ensures 0 <= Ingresos(Filter(ventas, p)) <= Ingresos(ventas)
  {
    if ventas != [] {
      assert forall v :: v in ventas[1..] ==> v in ventas;
      IngresosFiltradosAcotados(ventas[1..], p);
    }
  }

  /** `v.id_cliente?.id`: `None` for a sale without a client or a client without an id. */
  function ClienteDe(v: FacturaVista): Option<int>
  {
    if v.cliente.Some? then v.cliente.value.id else None
  }

  /** "Clientes Únicos": `new Set(ventasFiltradas.map(v => v.id_cliente?.id)).size`. */
  function ClientesUnicos(vs: seq<FacturaVista>): (n: nat)
    ensures n <= |vs|
    ensures vs != [] ==> n >= 1
  {
    ImageBound(vs, ClienteDe);
    assert vs != [] ==> ClienteDe(vs[0]) in Image(vs, ClienteDe);
    |Image(vs, ClienteDe)|
  }
}
