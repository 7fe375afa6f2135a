/**
 * The client's purchase history: which lines are loaded (the client's own invoices with their
 * lines, or else the personal endpoint), the summary figures, the grouping of lines into one
 * card per invoice key, and the cards' order, newest first.
 */
module MisCompras {
  import opened Wrappers
  import opened Seqs
  import opened Sesion
  import opened Registros
  import opened Agrupacion
  import opened Orden

  /** `detalle.factura_id || detalle.id_factura`; `None` is the key `undefined`. */
  type Clave = Option<int>

  function ClaveDe(d: DetalleVista): Clave
  {
    if d.facturaId.Some? && d.facturaId.value != 0 then d.facturaId else d.idFactura
  }

  /** `Number(d.subtotal || 0)`, in cents. */
  function Subtotal(d: DetalleVista): int { Numero(d.subtotal) }

  /** `detalle.cantidad || 1`. */
  function Unidades(d: DetalleVista): int
  {
    if d.cantidad.Some? && d.cantidad.value != 0 then d.cantidad.value else 1
  }

  // ---------------------------------------------------------------- loading

  /** `factura.id_cliente?.nombre || "Cliente"`. */
  function NombreCliente(f: FacturaVista): string
  {
    if f.cliente.Some? && f.cliente.value.nombre.Some? && f.cliente.value.nombre.value != "" then
      f.cliente.value.nombre.value
    else "Cliente"
  }

  /** A line of invoice `f`, tagged with the invoice's date, id and client name. */
  function Anotar(f: FacturaVista, d: DetalleVista): DetalleVista
  {
    d.(fecha := f.fecha, facturaId := Some(f.id), clienteNombre := Some(NombreCliente(f)))
  }

  /**
   * `Promise.all` over the invoices, then `.flat()`: the tagged lines of each invoice's request,
   * in invoice order; a request that fails yields no lines.
   */
  function LineasDe(fs: seq<FacturaVista>, consulta: int -> Option<seq<DetalleVista>>): (r: seq<DetalleVista>)
    ensures forall d :: d in r ==> exists f :: f in fs && d.facturaId == Some(f.id) && d.fecha == f.fecha
  {
    if fs == [] then []
    else
      var propias := Map(consulta(fs[0].id).GetOr([]), d => Anotar(fs[0], d));
      var resto := LineasDe(fs[1..], consulta);
      assert forall d :: d in propias ==> d.facturaId == Some(fs[0].id) && d.fecha == fs[0].fecha by {
        forall d | d in propias
          ensures d.facturaId == Some(fs[0].id) && d.fecha == fs[0].fecha
        {
          var i :| 0 <= i < |propias| && propias[i] == d;
        }
      }
      assert forall f :: f in fs[1..] ==> f in fs;
      propias + resto
  }

  /** Strategy 1: all invoices (`None` when that request fails), kept when their client is the user. */
  function Estrategia1(facturas: Option<seq<FacturaVista>>, uid: int, consulta: int -> Option<seq<DetalleVista>>)
    : seq<DetalleVista>
  {
    if facturas.None? then [] else LineasDe(Filter(facturas.value, f => DelCliente(uid, f)), consulta)
  }

  /** Strategy 1 only ever shows lines of invoices that belong to the signed-in client. */
  lemma Estrategia1SoloPropias(facturas: Option<seq<FacturaVista>>, uid: int,
    consulta: int -> Option<seq<DetalleVista>>, d: DetalleVista)
    requires d in Estrategia1(facturas, uid, consulta)
    ensures facturas.Some?
    ensures exists f :: f in facturas.value && DelCliente(uid, f) && d.facturaId == Some(f.id) && d.fecha == f.fecha
  {
    var propias := Filter(facturas.value, f => DelCliente(uid, f));
    var f :| f in propias && d.facturaId == Some(f.id) && d.fecha == f.fecha;
    assert f in facturas.value && DelCliente(uid, f);
  }

  /** The screen's state: the loaded lines, the "no purchases" flag and the error text. */
  datatype Estado = Estado(detalles: seq<DetalleVista>, sinCompras: bool, error: Option<string>)

  const MensajeError := "Error al cargar tus compras. Intenta recargar la página."

  /**
   * `cargarMisCompras`, given the three responses (`None` for a failed request). Without a user
   * id the screen throws an error of its own, which carries no response, so it sets the error
   * text and leaves the rest alone; both strategies catch their own failures.
   */
  function Cargar(previo: Estado, s: Almacen, facturas: Option<seq<FacturaVista>>,
    consulta: int -> Option<seq<DetalleVista>>, misDetalles: Option<seq<DetalleVista>>): (r: Estado)
    ensures !IdPresente(UsuarioId(s)) ==> r == previo.(error := Some(MensajeError))
    ensures IdPresente(UsuarioId(s)) ==> r.error == previo.error && (r.sinCompras <==> r.detalles == [])
    ensures IdPresente(UsuarioId(s)) && Estrategia1(facturas, UsuarioId(s).value, consulta) != [] ==>
      r.detalles == Estrategia1(facturas, UsuarioId(s).value, consulta)
    ensures IdPresente(UsuarioId(s)) && Estrategia1(facturas, UsuarioId(s).value, consulta) == [] ==>
      r.detalles == misDetalles.GetOr([])
  {
    var uid := UsuarioId(s);
    if !IdPresente(uid) then previo.(error := Some(MensajeError))
    else
      var primera := Estrategia1(facturas, uid.value, consulta);
      if primera != [] then previo.(detalles := primera, sinCompras := false)
      else if misDetalles.Some? && misDetalles.value != [] then previo.(detalles := misDetalles.value, sinCompras := false)
      else previo.(detalles := [], sinCompras := true)
  }

  // ---------------------------------------------------------------- summary figures

  /** `calcularTotalGeneral`. */
  function TotalGeneral(ds: seq<DetalleVista>): (r: int)
    ensures ds == [] ==> r == 0
    ensures (forall d :: d in ds ==> Numero(d.subtotal) >= 0) ==> r >= 0
  {
    SumNoNegativa(ds, Subtotal);
    Sum(ds, Subtotal)
  }

  /** `calcularPromedioCompra`: the total over the number of distinct invoice keys, 0 without lines. */
  function Promedio(ds: seq<DetalleVista>): (r: real)
    ensures ds == [] ==> r == 0.0
    ensures ds != [] ==> |Image(ds, ClaveDe)| > 0 && r == Cociente(TotalGeneral(ds), |Image(ds, ClaveDe)|)
  {
    if ds == [] then 0.0
    else
      ImageNoVacia(ds, ClaveDe);
      Cociente(TotalGeneral(ds), |Image(ds, ClaveDe)|)
  }

  /** `t / n` in floating point, read as exact division. */
  function Cociente(t: int, n: nat): (r: real)
    requires n > 0
    ensures r * (n as real) == t as real
  {
    t as real / n as real
  }

  /** What `obtenerUltimaCompra` returns: `null`, an invalid date, or a date. */
  datatype Ultima = Ninguna | Invalida | El(fecha: int)

  function MaxFecha(ds: seq<DetalleVista>): (m: int)
    requires ds != [] && forall d :: d in ds ==> d.fecha.Some?
    ensures forall d :: d in ds ==> d.fecha.value <= m
    ensures exists d :: d in ds && d.fecha == Some(m)
  {
    if |ds| == 1 then ds[0].fecha.value
    else
      var m := MaxFecha(ds[1..]);
      assert forall d :: d in ds[1..] ==> d in ds;
      if ds[0].fecha.value >= m then ds[0].fecha.value else m
  }

  /** `obtenerUltimaCompra`: `Math.max` over the lines' dates, `NaN` once one date is missing. */
  function UltimaCompra(ds: seq<DetalleVista>): (r: Ultima)
    ensures r == Ninguna <==> ds == []
    ensures r == Invalida <==> ds != [] && exists d :: d in ds && d.fecha.None?
    ensures r.El? ==> forall d :: d in ds ==> d.fecha.Some? && d.fecha.value <= r.fecha
    ensures r.El? ==> exists d :: d in ds && d.fecha == Some(r.fecha)
  {
    if ds == [] then Ninguna
    else if exists d :: d in ds && d.fecha.None? then Invalida
    else El(MaxFecha(ds))
  }

  // ---------------------------------------------------------------- grouping

  /** One entry of `detallesAgrupados`: the card's key, date, total, unit count and lines. */
  datatype Compra = Compra(id: Clave, fecha: Option<int>, total: int, productosCount: int, detalles: seq<DetalleVista>)

  /** The card of key `c`: its lines in input order, the date of the first one, and their sums. */
  function CompraDe(ds: seq<DetalleVista>, c: Clave): (g: Compra)
    ensures g.id == c
    ensures forall d :: d in g.detalles <==> d in ds && ClaveDe(d) == c
  {
    CompraDeLineas(c, Grupo(ds, ClaveDe, c))
  }

  /** The card of key `c` holding the lines `ls`. */
  function CompraDeLineas(c: Clave, ls: seq<DetalleVista>): Compra
  {
    Compra(c, if ls == [] then None else ls[0].fecha, Sum(ls, Subtotal), Sum(ls, Unidades), ls)
  }

  /** Adding a line to the end of a card with lines keeps its date and adds to its sums. */
  lemma AnadirLineas(c: Clave, ls: seq<DetalleVista>, d: DetalleVista)
    requires ls != []
    ensures CompraDeLineas(c, ls + [d]) == Anadir(CompraDeLineas(c, ls), d)
  {
    SumSnoc(ls, d, Subtotal);
    SumSnoc(ls, d, Unidades);
    assert (ls + [d])[0] == ls[0];
  }

  /** The keys in order of first occurrence. */
  function Claves(ds: seq<DetalleVista>): seq<Clave> { ClavesEnOrden(ds, ClaveDe) }

  /** `push(detalle)`, `total += …` and `productosCount += …` on one card. */
  function Anadir(g: Compra, d: DetalleVista): Compra
  {
    g.(detalles := g.detalles + [d], total := g.total + Subtotal(d), productosCount := g.productosCount + Unidades(d))
  }

  /** One step of the `reduce`: open the card when its key is new, then add the line. */
  function Paso(acc: map<Clave, Compra>, d: DetalleVista): map<Clave, Compra>
  {
    var c := ClaveDe(d);
    var g := if c in acc then acc[c] else Compra(c, d.fecha, 0, 0, []);
    acc[c := Anadir(g, d)]
  }

  /** The accumulator after the `reduce` over `ds`. */
  function Reducir(ds: seq<DetalleVista>): map<Clave, Compra>
  {
    if ds == [] then map[] else Paso(Reducir(ds[..|ds| - 1]), ds[|ds| - 1])
  }

  lemma PasoClaves(ds: seq<DetalleVista>, d: DetalleVista)
    ensures Claves(ds + [d]) == if ClaveDe(d) in Claves(ds) then Claves(ds) else Claves(ds) + [ClaveDe(d)]
  {
    ClavesSnoc(ds, d, ClaveDe);
  }

  /** The group of a key not seen yet is empty. */
  lemma GrupoNuevoVacio(ds: seq<DetalleVista>, c: Clave)
    requires c !in Claves(ds)
    ensures Grupo(ds, ClaveDe, c) == []
  {
  }

  /** The group of a key already seen is not empty. */
  lemma GrupoViejoLleno(ds: seq<DetalleVista>, c: Clave)
    requires c in Claves(ds)
    ensures Grupo(ds, ClaveDe, c) != []
  {
    var x :| x in ds && ClaveDe(x) == c;
    assert x in Grupo(ds, ClaveDe, c);
  }

  /** A line with a new key opens a card holding just that line. */
  lemma PasoNueva(ds: seq<DetalleVista>, d: DetalleVista)
    requires ClaveDe(d) !in Claves(ds)
    ensures CompraDe(ds + [d], ClaveDe(d)) == Anadir(Compra(ClaveDe(d), d.fecha, 0, 0, []), d)
  {
    var c := ClaveDe(d);
    GrupoSnoc(ds, d, ClaveDe, c);
    GrupoNuevoVacio(ds, c);
    assert Grupo(ds + [d], ClaveDe, c) == [d];
    assert Sum([d], Subtotal) == Subtotal(d);
    assert Sum([d], Unidades) == Unidades(d);
  }

  /** A line with a key already seen is added to the end of that key's card. */
  lemma PasoExistente(ds: seq<DetalleVista>, d: DetalleVista)
    requires ClaveDe(d) in Claves(ds)
    ensures CompraDe(ds + [d], ClaveDe(d)) == Anadir(CompraDe(ds, ClaveDe(d)), d)
  {
    var c := ClaveDe(d);
    GrupoSnoc(ds, d, ClaveDe, c);
    GrupoViejoLleno(ds, c);
    AnadirLineas(c, Grupo(ds, ClaveDe, c), d);
  }

  /** Every other card is unchanged by the line. */
  lemma PasoOtra(ds: seq<DetalleVista>, d: DetalleVista, c: Clave)
    requires c != ClaveDe(d)
    ensures CompraDe(ds + [d], c) == CompraDe(ds, c)
  {
    GrupoSnoc(ds, d, ClaveDe, c);
    assert Grupo(ds, ClaveDe, c) + [] == Grupo(ds, ClaveDe, c);
  }

  /** The accumulator has a card for exactly the keys seen. */
  lemma {:induction false} ReducirClaves(ds: seq<DetalleVista>)
    ensures forall c :: c in Reducir(ds) <==> c in Claves(ds)
  {
    if ds != [] {
      var ini, d := ds[..|ds| - 1], ds[|ds| - 1];
      assert ds == ini + [d];
      ReducirClaves(ini);
      PasoClaves(ini, d);
    }
  }

  /** The card the `reduce` builds for a key is the card of that key's lines. */
  lemma {:induction false} ReducirCorrecto(ds: seq<DetalleVista>)
    ensures forall c :: c in Reducir(ds) ==> Reducir(ds)[c] == CompraDe(ds, c)
  {
    if ds != [] {
      var ini, d := ds[..|ds| - 1], ds[|ds| - 1];
      assert ds == ini + [d];
      ReducirCorrecto(ini);
      ReducirClaves(ini);
      forall c | c in Reducir(ds)
        ensures Reducir(ds)[c] == CompraDe(ds, c)
      {
        if c == ClaveDe(d) {
          if c in Claves(ini) {
            PasoExistente(ini, d);
          } else {
            PasoNueva(ini, d);
          }
        } else {
          PasoOtra(ini, d, c);
        }
      }
    }
  }

  /** One step of the `reduce` over `ds[..k]`, stated on the key order and on the accumulator. */
  lemma PasoBucle(ds: seq<DetalleVista>, k: nat)
    requires k < |ds|
    ensures Claves(ds[..k + 1]) ==
      if ClaveDe(ds[k]) in Reducir(ds[..k]) then Claves(ds[..k]) else Claves(ds[..k]) + [ClaveDe(ds[k])]
    ensures Reducir(ds[..k + 1]) == Paso(Reducir(ds[..k]), ds[k])
  {
    assert ds[..k + 1] == ds[..k] + [ds[k]];
    assert ds[..k + 1][..k] == ds[..k];
    ReducirClaves(ds[..k]);
    PasoClaves(ds[..k], ds[k]);
  }

  /**
   * The `reduce` that fills `detallesAgrupados`; `orden` is the order in which its keys were
   * created, which decides where non-index keys come in `Object.values`.
   */
  method AgruparDetalles(ds: seq<DetalleVista>) returns (acc: map<Clave, Compra>, orden: seq<Clave>)
    ensures acc == Reducir(ds)
    ensures orden == Claves(ds)
  {
    acc := map[];
    orden := [];
    var k := 0;
    assert Claves(ds[..0]) == [];
    while k < |ds|
      invariant 0 <= k <= |ds|
      invariant orden == Claves(ds[..k])
      invariant acc == Reducir(ds[..k])
    {
      PasoBucle(ds, k);
      acc, orden := Visitar(acc, orden, ds[k]);
      k := k + 1;
    }
    assert ds[..k] == ds;
  }

  /** One call of the `reduce` callback: open the card on a new key, then add the line to it. */
  method Visitar(acc0: map<Clave, Compra>, orden0: seq<Clave>, d: DetalleVista)
    returns (acc: map<Clave, Compra>, orden: seq<Clave>)
    ensures acc == Paso(acc0, d)
    ensures orden == if ClaveDe(d) in acc0 then orden0 else orden0 + [ClaveDe(d)]
  {
    acc, orden := acc0, orden0;
    var c := ClaveDe(d);
    if c !in acc {
      acc := acc[c := Compra(c, d.fecha, 0, 0, [])];
      orden := orden + [c];
    }
    acc := acc[c := Anadir(acc[c], d)];
  }

  /** An array-index property name (`0` to `2^32 - 2`): `Object.values` lists those first, ascending. */
  predicate EsIndice(c: Clave) { c.Some? && 0 <= c.value < 0xFFFF_FFFF }

  function Ascendente(a: Clave, b: Clave): bool { a.GetOr(0) <= b.GetOr(0) }

  /** The order of `Object.values`: index keys ascending, then the other keys in creation order. */
  function OrdenPropiedades(ks: seq<Clave>): (r: seq<Clave>)
    ensures forall c :: c in r <==> c in ks
  {
    var indices := Filter(ks, EsIndice);
    var otras := Filter(ks, c => !EsIndice(c));
    var ordenados := Ordenar(indices, Ascendente);
    assert forall c :: c in ordenados <==> c in indices by {
      forall c
        ensures c in ordenados <==> c in multiset(indices)
      {
      }
    }
    ordenados + otras
  }

  /** Newest first; a card without a date (an invalid `Date`) after every dated one. */
  function MasReciente(a: Compra, b: Compra): bool
  {
    if a.fecha.Some? then b.fecha.None? || a.fecha.value >= b.fecha.value else b.fecha.None?
  }

  /** `Object.values(detallesAgrupados)`, in terms of the cards of the keys. */
  function Compras(ds: seq<DetalleVista>): (r: seq<Compra>)
    ensures forall g :: g in r ==> g == CompraDe(ds, g.id) && exists d :: d in ds && ClaveDe(d) == g.id
    ensures forall d :: d in ds ==> CompraDe(ds, ClaveDe(d)) in r
  {
    var ks := OrdenPropiedades(Claves(ds));
    var r := Map(ks, c => CompraDe(ds, c));
    ComprasCartas(ds, ks, r);
    r
  }

  /** The cards of the keys `ks` are the cards of exactly the keys the lines carry. */
  lemma ComprasCartas(ds: seq<DetalleVista>, ks: seq<Clave>, r: seq<Compra>)
    requires ks == OrdenPropiedades(Claves(ds))
    requires |r| == |ks| && forall i :: 0 <= i < |ks| ==> r[i] == CompraDe(ds, ks[i])
    ensures forall g :: g in r ==> g == CompraDe(ds, g.id) && exists d :: d in ds && ClaveDe(d) == g.id
    ensures forall d :: d in ds ==> CompraDe(ds, ClaveDe(d)) in r
  {
    ComprasDistintas(ds);
    forall g | g in r
      ensures g == CompraDe(ds, g.id) && exists d :: d in ds && ClaveDe(d) == g.id
    {
      var i :| 0 <= i < |r| && r[i] == g;
      assert ks[i] in ks;
    }
    forall d | d in ds
      ensures CompraDe(ds, ClaveDe(d)) in r
    {
      assert ClaveDe(d) in ks;
      var i :| 0 <= i < |ks| && ks[i] == ClaveDe(d);
      assert r[i] == CompraDe(ds, ClaveDe(d));
    }
  }

  /** `facturasOrdenadas`. */
  function FacturasOrdenadas(ds: seq<DetalleVista>): (r: seq<Compra>)
    ensures multiset(r) == multiset(Compras(ds))
    ensures Ordenada(r, MasReciente)
  {
    MasRecienteOrden();
    OrdenarOrdenada(Compras(ds), MasReciente);
    Ordenar(Compras(ds), MasReciente)
  }

  /** `detallesAgrupados` and `facturasOrdenadas`, computed from the lines. */
  method Agrupar(ds: seq<DetalleVista>) returns (ordenadas: seq<Compra>)
    ensures ordenadas == Ordenar(Map(OrdenPropiedades(Claves(ds)), c => CompraDe(ds, c)), MasReciente)
  {
    var acc, orden := AgruparDetalles(ds);
    var valores := OrdenPropiedades(orden);
    CartasDelAcumulador(ds, acc, valores);
    var cartas := seq(|valores|, i requires 0 <= i < |valores| && valores[i] in acc => acc[valores[i]]);
    assert cartas == Map(valores, c => CompraDe(ds, c)) by {
      forall i | 0 <= i < |valores|
        ensures cartas[i] == CompraDe(ds, valores[i])
      {
      }
    }
    ordenadas := Ordenar(cartas, MasReciente);
  }

  /** Every key in the order of `Object.values` has the card `CompraDe` in the accumulator. */
  lemma CartasDelAcumulador(ds: seq<DetalleVista>, acc: map<Clave, Compra>, valores: seq<Clave>)
    requires acc == Reducir(ds) && valores == OrdenPropiedades(Claves(ds))
    ensures forall i :: 0 <= i < |valores| ==> valores[i] in acc && acc[valores[i]] == CompraDe(ds, valores[i])
  {
    ReducirClaves(ds);
    ReducirCorrecto(ds);
    forall i | 0 <= i < |valores|
      ensures valores[i] in acc && acc[valores[i]] == CompraDe(ds, valores[i])
    {
      assert valores[i] in Claves(ds);
    }
  }

  lemma MasRecienteOrden()
    ensures Total(MasReciente) && Transitiva(MasReciente)
  {
  }

  /** The cards come newest first: a dated card never follows an older one or an undated one. */
  lemma OrdenadasPorFecha(ds: seq<DetalleVista>, i: int, j: int)
    requires 0 <= i < j < |FacturasOrdenadas(ds)|
    ensures FacturasOrdenadas(ds)[j].fecha.Some? ==>
      FacturasOrdenadas(ds)[i].fecha.Some? && FacturasOrdenadas(ds)[i].fecha.value >= FacturasOrdenadas(ds)[j].fecha.value
  {
    MasRecienteOrden();
    OrdenarOrdenada(Compras(ds), MasReciente);
  }

  /** The cards carry distinct keys, one per key of the lines. */
  lemma ComprasDistintas(ds: seq<DetalleVista>)
    ensures forall c :: c in OrdenPropiedades(Claves(ds)) <==> exists d :: d in ds && ClaveDe(d) == c
    ensures SinRepetidos(OrdenPropiedades(Claves(ds)))
  {
    var ks := Claves(ds);
    var indices := Filter(ks, EsIndice);
    var otras := Filter(ks, c => !EsIndice(c));
    FilterSinRepetidos(ks, EsIndice);
    FilterSinRepetidos(ks, c => !EsIndice(c));
    OrdenarSinRepetidos(indices, Ascendente);
    var ordenados := Ordenar(indices, Ascendente);
    assert OrdenPropiedades(ks) == ordenados + otras;
    forall c | c in ordenados
      ensures c !in otras
    {
      assert c in multiset(indices);
    }
    ConcatSinRepetidos(ordenados, otras);
  }

  /** Distinct keys give distinct cards. */
  lemma ComprasSinRepetidos(ds: seq<DetalleVista>)
    ensures SinRepetidos(Compras(ds))
  {
    ComprasDistintas(ds);
    var ks := OrdenPropiedades(Claves(ds));
    var cs := Compras(ds);
    forall i, j | 0 <= i < j < |cs|
      ensures cs[i] != cs[j]
    {
      assert cs[i].id == ks[i] && cs[j].id == ks[j];
    }
  }

  /** Each card is `CompraDe` of its key, and each key of the lines has a card. */
  lemma CartasDeCompras(ds: seq<DetalleVista>, g: Compra)
    ensures g in FacturasOrdenadas(ds) <==> g.id in OrdenPropiedades(Claves(ds)) && g == CompraDe(ds, g.id)
  {
    var ks := OrdenPropiedades(Claves(ds));
    var cs := Compras(ds);
    assert g in FacturasOrdenadas(ds) <==> g in multiset(cs);
    CartasDeClaves(ds, ks, cs, g);
  }

  /** The cards built from the keys `ks`, one per key, are the `CompraDe` of exactly those keys. */
  lemma CartasDeClaves(ds: seq<DetalleVista>, ks: seq<Clave>, cs: seq<Compra>, g: Compra)
    requires |cs| == |ks| && forall i :: 0 <= i < |ks| ==> cs[i] == CompraDe(ds, ks[i])
    ensures g in cs <==> g.id in ks && g == CompraDe(ds, g.id)
  {
    if g in cs {
      var i :| 0 <= i < |cs| && cs[i] == g;
      assert ks[i] == g.id;
    }
    if g.id in ks && g == CompraDe(ds, g.id) {
      var i :| 0 <= i < |ks| && ks[i] == g.id;
      assert cs[i] == g;
    }
  }

  /** Every line lands in exactly one card: the card of its key, which then holds it. */
  lemma UnaCompraPorLinea(ds: seq<DetalleVista>, d: DetalleVista)
    requires d in ds
    ensures forall g :: g in FacturasOrdenadas(ds) ==> (d in g.detalles <==> g.id == ClaveDe(d))
    ensures exists g :: g in FacturasOrdenadas(ds) && d in g.detalles
    ensures forall i, j :: 0 <= i < j < |FacturasOrdenadas(ds)| ==> FacturasOrdenadas(ds)[i].id != FacturasOrdenadas(ds)[j].id
  {
    forall g | g in FacturasOrdenadas(ds)
      ensures d in g.detalles <==> g.id == ClaveDe(d)
    {
      CartasDeCompras(ds, g);
    }
    var g := CompraDe(ds, ClaveDe(d));
    CartasDeCompras(ds, g);
    assert g in FacturasOrdenadas(ds);
    var os := FacturasOrdenadas(ds);
    forall i, j | 0 <= i < j < |os|
      ensures os[i].id != os[j].id
    {
      CartasDeCompras(ds, os[i]);
      CartasDeCompras(ds, os[j]);
      ComprasSinRepetidos(ds);
      OrdenarSinRepetidos(Compras(ds), MasReciente);
    }
  }

  function TotalDe(g: Compra): int { g.total }

  /** Σ of the card totals over a list of keys is Σ of the group sums over it. */
  lemma {:induction false} TotalesPorClave(ds: seq<DetalleVista>, ks: seq<Clave>)
    ensures Sum(Map(ks, c => CompraDe(ds, c)), TotalDe) == Sum(ks, c => Sum(Grupo(ds, ClaveDe, c), Subtotal))
  {
    if ks != [] {
      assert Map(ks, c => CompraDe(ds, c))[1..] == Map(ks[1..], c => CompraDe(ds, c));
      TotalesPorClave(ds, ks[1..]);
    }
  }

  /** The card totals add up to `calcularTotalGeneral`. */
  lemma SumaDeTotales(ds: seq<DetalleVista>)
    ensures Sum(FacturasOrdenadas(ds), TotalDe) == TotalGeneral(ds)
  {
    var ks := OrdenPropiedades(Claves(ds));
    SumOrdenar(Compras(ds), MasReciente, TotalDe);
    TotalesPorClave(ds, ks);
    ComprasDistintas(ds);
    SumaPorGrupos(ds, ClaveDe, ks, Subtotal);
  }

  /** The number of cards is the divisor `calcularPromedioCompra` uses. */
  lemma NumeroDeCompras(ds: seq<DetalleVista>)
    ensures |FacturasOrdenadas(ds)| == |Image(ds, ClaveDe)|
  {
    var ks := OrdenPropiedades(Claves(ds));
    assert |FacturasOrdenadas(ds)| == |multiset(Compras(ds))|;
    ComprasDistintas(ds);
    CardinalSinRepetidos(ks, Image(ds, ClaveDe));
  }

  /** The average is the mean of the totals on the cards shown, one card per invoice. */
  lemma PromedioPorTarjeta(ds: seq<DetalleVista>)
    requires ds != []
    ensures |FacturasOrdenadas(ds)| > 0
    ensures Promedio(ds) == Cociente(Sum(FacturasOrdenadas(ds), TotalDe), |FacturasOrdenadas(ds)|)
  {
    SumaDeTotales(ds);
    NumeroDeCompras(ds);
  }
}
