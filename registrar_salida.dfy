/**
 * The employee's exit form: the responsible user taken from the token, the checks of the submit
 * and the request body it sends.
 */
module RegistrarSalida {
  import opened Wrappers
  import opened Seqs
  import opened Text
  import opened Sesion
  import opened Registros
  import opened FormMovimiento

  const FormularioInicial: Formulario := map[
    "tipo" := Txt("salida"), "id_producto" := Txt(""), "cantidad" := Txt(""),
    "id_cliente" := Txt(""), "responsable" := Txt("")]

  /**
   * The effect of loading the screen: with a stored token, `responsable` becomes the token's
   * `user_id` (`undefined` when the claim is missing); an undecodable token leaves the form as it is.
   */
  function Prellenar(f: Formulario, token: Option<string>, carga: Option<Carga>): (r: Formulario)
    ensures !Presente(token) || carga.None? ==> r == f
    ensures Presente(token) && carga.Some? ==>
      r == f["responsable" := if carga.value.userId.Some? then Num(carga.value.userId.value) else Nada]
  {
    if Presente(token) && carga.Some? then
      f["responsable" := if carga.value.userId.Some? then Num(carga.value.userId.value) else Nada]
    else f
  }

  /**
   * The product list the screen holds after loading: the products endpoint's answer, or `[]`
   * when that request fails or when a stored token cannot be decoded, which throws before the
   * request is made.
   */
  function ProductosCargados(token: Option<string>, carga: Option<Carga>, productos: Option<seq<ProductoVista>>)
    : (r: seq<ProductoVista>)
    ensures Presente(token) && carga.None? ==> r == []
    ensures !(Presente(token) && carga.None?) ==> r == productos.GetOr([])
  {
    if Presente(token) && carga.None? then [] else productos.GetOr([])
  }

  /** `p.id == formData.id_producto`: the loose comparison of a number with the selected text. */
  predicate Seleccionado(v: Entrada, p: ProductoVista)
  {
    ParseEntero(v) == Entero(p.id)
  }

  /** `productoSeleccionado`: the first product the selection names. */
  function ProductoSeleccionado(ps: seq<ProductoVista>, v: Entrada): (r: Option<ProductoVista>)
    ensures r.Some? ==> r.value in ps && Seleccionado(v, r.value)
    ensures r.None? <==> forall p :: p in ps ==> !Seleccionado(v, p)
  {
    Find(ps, p => Seleccionado(v, p))
  }

  /** `stock < parseInt(cantidad)`; a comparison with `NaN` is false. */
  predicate Insuficiente(p: ProductoVista, cantidad: Cifra)
  {
    cantidad.Entero? && Numero(p.stock) < cantidad.n
  }

  /** `handleSubmit`: the three required fields, then the stock check, then the body. */
  function Enviar(f: Formulario, ps: seq<ProductoVista>): (r: Result<Cuerpo, Rechazo>)
    ensures r == Err(Incompleto) <==>
      !Lleno(Campo(f, "id_producto")) || !Lleno(Campo(f, "cantidad")) || !Lleno(Campo(f, "id_cliente"))
    ensures r.Err? && r.error.StockInsuficiente? ==>
      var p := ProductoSeleccionado(ps, Campo(f, "id_producto"));
      p.Some? && Insuficiente(p.value, ParseEntero(Campo(f, "cantidad"))) && r.error.disponible == Numero(p.value.stock)
    ensures Lleno(Campo(f, "id_producto")) && Lleno(Campo(f, "cantidad")) && Lleno(Campo(f, "id_cliente")) ==>
      var p := ProductoSeleccionado(ps, Campo(f, "id_producto"));
      p.Some? && Insuficiente(p.value, ParseEntero(Campo(f, "cantidad"))) ==>
        r == Err(StockInsuficiente(Numero(p.value.stock)))
    ensures r.Err? ==> r.error == Incompleto || r.error.StockInsuficiente?
    ensures r.Ok? ==>
      r.value.tipo == Txt("salida") && r.value.idProveedor == Nulo &&
      r.value.cantidad == ParseEntero(Campo(f, "cantidad")) &&
      r.value.idProducto == ParseEntero(Campo(f, "id_producto")) &&
      r.value.idCliente == ParseEntero(Campo(f, "id_cliente")) &&
      (r.value.responsable == Nulo <==> !Lleno(Campo(f, "responsable")))
  {
    if !Lleno(Campo(f, "id_producto")) || !Lleno(Campo(f, "cantidad")) || !Lleno(Campo(f, "id_cliente")) then
      Err(Incompleto)
    else
      var p := ProductoSeleccionado(ps, Campo(f, "id_producto"));
      if p.Some? && Insuficiente(p.value, ParseEntero(Campo(f, "cantidad"))) then
        Err(StockInsuficiente(Numero(p.value.stock)))
      else
        Ok(Cuerpo(Txt("salida"), ParseEntero(Campo(f, "cantidad")), ParseEntero(Campo(f, "id_producto")),
          Nulo, ParseEntero(Campo(f, "id_cliente")), EnteroONulo(Campo(f, "responsable"))))
  }

  /** A product id that names no listed product skips the stock check. */
  lemma DesconocidoSinControl(f: Formulario, ps: seq<ProductoVista>)
    requires Lleno(Campo(f, "id_producto")) && Lleno(Campo(f, "cantidad")) && Lleno(Campo(f, "id_cliente"))
    requires forall p :: p in ps ==> !Seleccionado(Campo(f, "id_producto"), p)
    ensures Enviar(f, ps).Ok?
  {
  }

  /** With an undecodable token no product is loaded, so a complete form is never refused for stock. */
  lemma TokenIlegibleSinControl(f: Formulario, token: Option<string>, productos: Option<seq<ProductoVista>>)
    requires Presente(token)
    requires Lleno(Campo(f, "id_producto")) && Lleno(Campo(f, "cantidad")) && Lleno(Campo(f, "id_cliente"))
    ensures Enviar(f, ProductosCargados(token, None, productos)).Ok?
  {
    DesconocidoSinControl(f, ProductosCargados(token, None, productos));
  }

  /** A quantity within the selected product's stock is accepted. */
  lemma DentroDelStock(f: Formulario, ps: seq<ProductoVista>, p: ProductoVista, cantidad: int)
    requires Lleno(Campo(f, "id_producto")) && Lleno(Campo(f, "id_cliente"))
    requires Campo(f, "cantidad") == Num(cantidad) && cantidad != 0
    requires ProductoSeleccionado(ps, Campo(f, "id_producto")) == Some(p) && cantidad <= Numero(p.stock)
    ensures Enviar(f, ps).Ok? && Enviar(f, ps).value.cantidad == Entero(cantidad)
  {
  }

  /** With a token carrying a user id, the exit is sent with that id as responsible. */
  lemma ResponsableDelToken(f: Formulario, ps: seq<ProductoVista>, token: string, carga: Carga)
    requires token != "" && carga.userId.Some? && carga.userId.value != 0
    requires Enviar(Prellenar(f, Some(token), Some(carga)), ps).Ok?
    ensures Enviar(Prellenar(f, Some(token), Some(carga)), ps).value.responsable == Entero(carga.userId.value)
  {
  }
}
