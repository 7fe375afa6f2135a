/**
 * The client's dashboard: invoices rebuilt from the client's sale lines (or, when that endpoint
 * fails, from the invoices of the client with their lines), the three totals, the five most
 * recent invoices shown, and how a load error is reported.
 */
module ClienteDashboard {
  import opened Wrappers
  import opened Seqs
  import opened Sesion
  import opened Registros
  import opened Agrupacion

  /** An invoice card: id, date, its lines and their total in cents. */
  datatype FacturaCliente = FacturaCliente(id: int, fecha: Option<int>, productos: seq<DetalleVista>, total: int)

  /** `if (detalle.id_factura)`: only lines naming an invoice are grouped. */
  predicate TieneFactura(d: DetalleVista) { d.idFactura.Some? && d.idFactura.value != 0 }

  function IdDe(d: DetalleVista): int { d.idFactura.GetOr(0) }

  /** `parseFloat(detalle.subtotal || 0)`, in cents. */
  function Subtotal(d: DetalleVista): int { Numero(d.subtotal) }

  function ConFactura(ds: seq<DetalleVista>): seq<DetalleVista> { Filter(ds, TieneFactura) }

  /** The card of invoice `c`: its lines in input order, the date of the first one, their total. */
  function FacturaDe(ds: seq<DetalleVista>, c: int): (f: FacturaCliente)
    ensures f.id == c
    ensures forall d :: d in f.productos <==> d in ds && TieneFactura(d) && IdDe(d) == c
  {
    var g := Grupo(ConFactura(ds), IdDe, c);
    FacturaCliente(c, if g == [] then None else g[0].fecha, g, Sum(g, Subtotal))
  }

  /** The invoice ids in order of first occurrence. */
  function Claves(ds: seq<DetalleVista>): seq<int> { ClavesEnOrden(ConFactura(ds), IdDe) }

  /** The primary path's result: one card per invoice id, in order of first occurrence. */
  function FacturasPrimarias(ds: seq<DetalleVista>): seq<FacturaCliente>
  {
    Map(Claves(ds), c => FacturaDe(ds, c))
  }

  /** `factura.productos.push(detalle)` and `factura.total += ...`. */
  function Anadir(f: FacturaCliente, d: DetalleVista): FacturaCliente
  {
    f.(productos := f.productos + [d], total := f.total + Subtotal(d))
  }

  /** The lines naming an invoice, after one more line. */
  lemma ConFacturaSnoc(ds: seq<DetalleVista>, d: DetalleVista)
    ensures ConFactura(ds + [d]) == if TieneFactura(d) then ConFactura(ds) + [d] else ConFactura(ds)
  {
    FilterAppend(ds, [d], TieneFactura);
    if !TieneFactura(d) {
      assert ConFactura(ds) + [] == ConFactura(ds);
    }
  }

  /** A line with a new invoice id opens a card at the end; any other line leaves the id order alone. */
  lemma PasoClaves(ds: seq<DetalleVista>, d: DetalleVista)
    ensures Claves(ds + [d]) ==
      if TieneFactura(d) && IdDe(d) !in Claves(ds) then Claves(ds) + [IdDe(d)] else Claves(ds)
  {
    ConFacturaSnoc(ds, d);
    if TieneFactura(d) {
      ClavesSnoc(ConFactura(ds), d, IdDe);
    }
  }

  /** The group of an id not seen yet is empty. */
  lemma GrupoNuevoVacio(ds: seq<DetalleVista>, c: int)
    requires c !in Claves(ds)
    ensures Grupo(ConFactura(ds), IdDe, c) == []
  {
  }

  /** The group of an id already seen is not empty. */
  lemma GrupoViejoLleno(ds: seq<DetalleVista>, c: int)
    requires c in Claves(ds)
    ensures Grupo(ConFactura(ds), IdDe, c) != []
  {
    var x :| x in ConFactura(ds) && IdDe(x) == c;
    assert x in Grupo(ConFactura(ds), IdDe, c);
  }

  /** The card of the line's own id after the line: a new card, or the old card with the line added. */
  lemma PasoPropia(ds: seq<DetalleVista>, d: DetalleVista)
    requires TieneFactura(d)
    ensures IdDe(d) !in Claves(ds) ==> FacturaDe(ds + [d], IdDe(d)) == Anadir(FacturaCliente(IdDe(d), d.fecha, [], 0), d)
    ensures IdDe(d) in Claves(ds) ==> FacturaDe(ds + [d], IdDe(d)) == Anadir(FacturaDe(ds, IdDe(d)), d)
  {
    var c := IdDe(d);
    ConFacturaSnoc(ds, d);
    GrupoSnoc(ConFactura(ds), d, IdDe, c);
    var g := Grupo(ConFactura(ds), IdDe, c);
    SumSnoc(g, d, Subtotal);
    if c !in Claves(ds) {
      GrupoNuevoVacio(ds, c);
      assert g + [d] == [d];
    } else {
      GrupoViejoLleno(ds, c);
      assert (g + [d])[0] == g[0];
    }
  }

  /** Every other card is unchanged by the line. */
  lemma PasoOtra(ds: seq<DetalleVista>, d: DetalleVista, c: int)
    requires !TieneFactura(d) || c != IdDe(d)
    ensures FacturaDe(ds + [d], c) == FacturaDe(ds, c)
  {
    ConFacturaSnoc(ds, d);
    if TieneFactura(d) {
      GrupoSnoc(ConFactura(ds), d, IdDe, c);
      assert Grupo(ConFactura(ds), IdDe, c) + [] == Grupo(ConFactura(ds), IdDe, c);
    }
  }

  /** One turn of the `forEach`: open the card when the id is new, then add the line to it. */
  function Paso(m: map<int, FacturaCliente>, d: DetalleVista): map<int, FacturaCliente>
  {
    if !TieneFactura(d) then m
    else
      var c := IdDe(d);
      var f := if c in m then m[c] else FacturaCliente(c, d.fecha, [], 0);
      m[c := Anadir(f, d)]
  }

  /** `facturasMap` after the `forEach` over `ds`. */
  function Plegar(ds: seq<DetalleVista>): map<int, FacturaCliente>
  {
    if ds == [] then map[] else Paso(Plegar(ds[..|ds| - 1]), ds[|ds| - 1])
  }

  /** The map the `forEach` builds has a card for exactly the ids seen. */
  lemma {:induction false} PlegarClaves(ds: seq<DetalleVista>)
    ensures forall c :: c in Plegar(ds) <==> c in Claves(ds)
  {
    if ds != [] {
      var ini, d := ds[..|ds| - 1], ds[|ds| - 1];
      assert ds == ini + [d];
      PlegarClaves(ini);
      PasoClaves(ini, d);
    }
  }

  /** The card the `forEach` builds for an id is the card of that id's lines. */
  lemma {:induction false} PlegarCorrecto(ds: seq<DetalleVista>)
    ensures forall c :: c in Plegar(ds) ==> Plegar(ds)[c] == FacturaDe(ds, c)
  {
    if ds != [] {
      var ini, d := ds[..|ds| - 1], ds[|ds| - 1];
      assert ds == ini + [d];
      PlegarCorrecto(ini);
      PlegarClaves(ini);
      forall c | c in Plegar(ds)
        ensures Plegar(ds)[c] == FacturaDe(ds, c)
      {
        if TieneFactura(d) && c == IdDe(d) {
          PasoPropia(ini, d);
        } else {
          PasoOtra(ini, d, c);
        }
      }
    }
  }

  /** One turn of the `forEach` over `ds[..k]`, stated on the id order and on the map. */
  lemma PasoBucle(ds: seq<DetalleVista>, k: nat)
    requires k < |ds|
    ensures Claves(ds[..k + 1]) ==
      if TieneFactura(ds[k]) && IdDe(ds[k]) !in Plegar(ds[..k]) then Claves(ds[..k]) + [IdDe(ds[k])] else Claves(ds[..k])
    ensures Plegar(ds[..k + 1]) == Paso(Plegar(ds[..k]), ds[k])
  {
    assert ds[..k + 1] == ds[..k] + [ds[k]];
    assert ds[..k + 1][..k] == ds[..k];
    PlegarClaves(ds[..k]);
    PasoClaves(ds[..k], ds[k]);
  }

  /**
   * The `forEach` over the lines that fills `facturasMap`; `orden` is the map's insertion
   * order, which JavaScript's `Map` keeps.
   */
  method LlenarMapa(ds: seq<DetalleVista>) returns (m: map<int, FacturaCliente>, orden: seq<int>)
    ensures m == Plegar(ds)
    ensures orden == Claves(ds)
  {
    m := map[];
    orden := [];
    var k := 0;
    assert Claves(ds[..0]) == [];
    while k < |ds|
      invariant 0 <= k <= |ds|
      invariant orden == Claves(ds[..k])
      invariant m == Plegar(ds[..k])
    {
      PasoBucle(ds, k);
      m, orden := Visitar(m, orden, ds[k]);
      k := k + 1;
    }
    assert ds[..k] == ds;
  }

  /** One turn of the `forEach`: open the invoice on its first line, then add the line to it. */
  method Visitar(m0: map<int, FacturaCliente>, orden0: seq<int>, d: DetalleVista)
    returns (m: map<int, FacturaCliente>, orden: seq<int>)
    ensures m == Paso(m0, d)
    ensures orden == if TieneFactura(d) && IdDe(d) !in m0 then orden0 + [IdDe(d)] else orden0
  {
    m, orden := m0, orden0;
    if TieneFactura(d) {
      var c := d.idFactura.value;
      if c !in m {
        m := m[c := FacturaCliente(c, d.fecha, [], 0)];
        orden := orden + [c];
      }
      m := m[c := Anadir(m[c], d)];
    }
  }

  /** `agruparFacturas`: the `forEach`, then `Array.from(facturasMap.values())`. */
  method AgruparFacturas(ds: seq<DetalleVista>) returns (facturas: seq<FacturaCliente>)
    ensures facturas == FacturasPrimarias(ds)
  {
    var m, orden := LlenarMapa(ds);
    PlegarClaves(ds);
    PlegarCorrecto(ds);
    forall i | 0 <= i < |orden|
      ensures orden[i] in m
    {
      assert orden[i] in Claves(ds);
    }
    facturas := seq(|orden|, i requires 0 <= i < |orden| && orden[i] in m => m[orden[i]]);
  }

  /** A line without an invoice id is in no card; every other line is in exactly the card of its id. */
  lemma UnaFacturaPorLinea(ds: seq<DetalleVista>, d: DetalleVista)
    requires d in ds
    ensures !TieneFactura(d) ==> forall f :: f in FacturasPrimarias(ds) ==> d !in f.productos
    ensures TieneFactura(d) ==> forall f :: f in FacturasPrimarias(ds) ==> (d in f.productos <==> f.id == IdDe(d))
    ensures TieneFactura(d) ==> exists f :: f in FacturasPrimarias(ds) && f.id == IdDe(d)
  {
    var ks := Claves(ds);
    assert forall f :: f in FacturasPrimarias(ds) ==> exists i :: 0 <= i < |ks| && f == FacturaDe(ds, ks[i]);
    if TieneFactura(d) {
      assert d in ConFactura(ds);
      assert IdDe(d) in ks;
      var i :| 0 <= i < |ks| && ks[i] == IdDe(d);
      assert FacturasPrimarias(ds)[i] == FacturaDe(ds, IdDe(d));
    }
  }

  /** The cards carry distinct invoice ids. */
  lemma FacturasDistintas(ds: seq<DetalleVista>)
    ensures forall i, j :: 0 <= i < j < |FacturasPrimarias(ds)| ==> FacturasPrimarias(ds)[i].id != FacturasPrimarias(ds)[j].id
  {
  }

  function TotalDe(f: FacturaCliente): int { f.total }

  /** `totalGastado`: Σ of the card totals. */
  function TotalGastado(fs: seq<FacturaCliente>): (r: int)
    ensures fs == [] ==> r == 0
    ensures (forall f :: f in fs ==> f.total >= 0) ==> r >= 0
  {
    SumNoNegativa(fs, TotalDe);
    Sum(fs, TotalDe)
  }

  /** Σ of the card totals over a list of ids is Σ of the group sums over it. */
  lemma {:induction false} TotalesPorClave(ds: seq<DetalleVista>, ks: seq<int>)
    ensures TotalGastado(Map(ks, c => FacturaDe(ds, c))) == Sum(ks, c => Sum(Grupo(ConFactura(ds), IdDe, c), Subtotal))
  {
    if ks != [] {
      assert Map(ks, c => FacturaDe(ds, c))[1..] == Map(ks[1..], c => FacturaDe(ds, c));
      TotalesPorClave(ds, ks[1..]);
    }
  }

  /** On the primary path, the amount spent is Σ subtotal over the lines that name an invoice. */
  lemma TotalGastadoPrimario(ds: seq<DetalleVista>)
    ensures TotalGastado(FacturasPrimarias(ds)) == Sum(ConFactura(ds), Subtotal)
  {
    TotalesPorClave(ds, Claves(ds));
    SumaPorGrupos(ConFactura(ds), IdDe, Claves(ds), Subtotal);
  }

  function CantidadDe(d: DetalleVista): int { Numero(d.cantidad) }

  /** `totalProductosComprados`: Σ `cantidad || 0` over all loaded lines. */
  function TotalProductos(ds: seq<DetalleVista>): (r: int)
    ensures ds == [] ==> r == 0
    ensures (forall d :: d in ds ==> Numero(d.cantidad) >= 0) ==> r >= 0
  {
    SumNoNegativa(ds, CantidadDe);
    Sum(ds, CantidadDe)
  }

  /** The fallback card of one invoice: the loaded lines whose `id_factura` is its id. */
  function FacturaConDetalles(todos: seq<DetalleVista>, f: FacturaVista): (r: FacturaCliente)
    ensures r.id == f.id && r.fecha == f.fecha
    ensures forall d :: d in r.productos <==> d in todos && d.idFactura == Some(f.id)
  {
    var g := Filter(todos, (d: DetalleVista) => d.idFactura == Some(f.id));
    FacturaCliente(f.id, f.fecha, g, Sum(g, Subtotal))
  }

  /** The lines of each invoice's request, in invoice order; a failed request gives none. */
  function Aplanar(fs: seq<FacturaVista>, consulta: int -> Option<seq<DetalleVista>>): (r: seq<DetalleVista>)
    ensures forall d :: d in r <==> exists f :: f in fs && d in consulta(f.id).GetOr([])
  {
    if fs == [] then []
    else
      var resto := Aplanar(fs[1..], consulta);
      assert forall f :: f in fs <==> f == fs[0] || f in fs[1..];
      consulta(fs[0].id).GetOr([]) + resto
  }

  /** The fallback path: the client's own invoices, each with its lines. */
  function FacturasAlternativas(facturas: seq<FacturaVista>, userId: int, consulta: int -> Option<seq<DetalleVista>>)
    : (r: seq<FacturaCliente>)
    ensures |r| == |Filter(facturas, f => DelCliente(userId, f))|
    ensures forall i :: 0 <= i < |r| ==> r[i] == FacturaConDetalles(Aplanar(Filter(facturas, f => DelCliente(userId, f)), consulta),
      Filter(facturas, f => DelCliente(userId, f))[i])
  {
    var propias := Filter(facturas, f => DelCliente(userId, f));
    Map(propias, f => FacturaConDetalles(Aplanar(propias, consulta), f))
  }

  /** Only the invoices of the signed-in client are shown on the fallback path. */
  lemma AlternativaSoloPropias(facturas: seq<FacturaVista>, userId: int,
    consulta: int -> Option<seq<DetalleVista>>, c: FacturaCliente)
    requires c in FacturasAlternativas(facturas, userId, consulta)
    ensures exists f :: f in facturas && DelCliente(userId, f) && f.id == c.id
  {
    var propias := Filter(facturas, f => DelCliente(userId, f));
    var i :| 0 <= i < |FacturasAlternativas(facturas, userId, consulta)| && FacturasAlternativas(facturas, userId, consulta)[i] == c;
    assert propias[i] in propias;
  }

  /** What the dashboard ends with: the invoice cards, the loaded lines, and an error text. */
  datatype Estado = Estado(facturas: seq<FacturaCliente>, detalles: seq<DetalleVista>, error: Option<string>)

  /** How the outer `catch` reports an error, by the status of the response it carries. */
  datatype Reaccion = IrALogin | SinPermiso | ErrorGeneral

  function ManejarError(status: Option<int>): (r: Reaccion)
    ensures r == IrALogin <==> status == Some(401)
    ensures r == SinPermiso <==> status == Some(403)
  {
    if status == Some(401) then IrALogin else if status == Some(403) then SinPermiso else ErrorGeneral
  }

  const MensajeGeneral := "Error al cargar el dashboard. Intenta recargar la página."

  /**
   * `cargarDatosCliente`, given the three responses (`None` for a failed request). Without a user
   * id the screen throws an error of its own, which carries no response; both data paths catch
   * their own failures.
   */
  function Cargar(s: Almacen, misDetalles: Option<seq<DetalleVista>>, facturas: Option<seq<FacturaVista>>,
    consulta: int -> Option<seq<DetalleVista>>): (r: Estado)
    ensures !IdPresente(UsuarioId(s)) ==> r == Estado([], [], Some(MensajeGeneral))
    ensures IdPresente(UsuarioId(s)) && misDetalles.Some? ==>
      r == Estado(FacturasPrimarias(misDetalles.value), misDetalles.value, None)
    ensures IdPresente(UsuarioId(s)) && misDetalles.None? && facturas.Some? ==>
      r.facturas == FacturasAlternativas(facturas.value, UsuarioId(s).value, consulta) && r.error.None? &&
      r.detalles == Aplanar(Filter(facturas.value, f => DelCliente(UsuarioId(s).value, f)), consulta)
    ensures IdPresente(UsuarioId(s)) && misDetalles.None? && facturas.None? ==> r == Estado([], [], None)
  {
    var uid := UsuarioId(s);
    if !IdPresente(uid) then
      Estado([], [], if ManejarError(None) == ErrorGeneral then Some(MensajeGeneral) else None)
    else if misDetalles.Some? then
      Estado(FacturasPrimarias(misDetalles.value), misDetalles.value, None)
    else if facturas.Some? then
      var propias := Filter(facturas.value, f => DelCliente(uid.value, f));
      Estado(FacturasAlternativas(facturas.value, uid.value, consulta), Aplanar(propias, consulta), None)
    else Estado([], [], None)
  }

  /** The load never reaches the 401 or 403 branches, so it never clears the session. */
  lemma CargaNuncaVaALogin(s: Almacen, misDetalles: Option<seq<DetalleVista>>, facturas: Option<seq<FacturaVista>>,
    consulta: int -> Option<seq<DetalleVista>>)
    ensures Cargar(s, misDetalles, facturas, consulta).error.Some? ==>
      Cargar(s, misDetalles, facturas, consulta).error == Some(MensajeGeneral)
  {
  }

  /** `facturas.slice(0, 5)`: at most five cards, the first ones. */
  function Visibles(fs: seq<FacturaCliente>): (r: seq<FacturaCliente>)
    ensures |r| <= 5 && |r| <= |fs| && r <= fs
    ensures |fs| <= 5 ==> r == fs
  {
    if |fs| <= 5 then fs else fs[..5]
  }

  /** `facturas.length > 5`: the link to all purchases. */
  predicate VerTodas(fs: seq<FacturaCliente>) { |fs| > 5 }

  /** The link appears exactly when some card is not shown. */
  lemma EnlaceSiOcultas(fs: seq<FacturaCliente>)
    ensures VerTodas(fs) <==> |Visibles(fs)| < |fs|
  {
  }
}
