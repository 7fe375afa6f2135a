/**
 * What the three movement screens share: the form as a dictionary of field values, its
 * `handleInputChange`, `parseInt` on a field, the type counts and the optional-name search.
 */
module FormMovimiento {
  import opened Wrappers
  import opened Seqs
  import opened Text

  /** A form value: text typed into an input, a number copied from a record, or `undefined`. */
  datatype Entrada = Txt(s: string) | Num(n: int) | Nada

  /** JavaScript truthiness of a form value. */
  predicate Lleno(v: Entrada)
  {
    match v
    case Txt(s) => s != ""
    case Num(n) => n != 0
    case Nada => false
  }

  /** `formData`: the field values under their names. */
  type Formulario = map<string, Entrada>

  /** `formData[k]`; a missing key reads as `undefined`. */
  function Campo(f: Formulario, k: string): (v: Entrada)
    ensures k !in f ==> v == Nada
    ensures k in f ==> v == f[k]
  {
    if k in f then f[k] else Nada
  }

  /**
   * `handleInputChange` of the administrator's and the employee's movement screens: the edited
   * field takes the new text; when it is `tipo`, choosing "entrada" empties `id_proveedor` and
   * choosing "salida" empties `id_cliente`.
   */
  function CambiarCampo(prev: Formulario, nombre: string, valor: string): (r: Formulario)
    ensures nombre in r && r[nombre] == Txt(valor)
    ensures nombre != "tipo" ==> r == prev[nombre := Txt(valor)]
    ensures nombre == "tipo" ==>
      Campo(r, "id_proveedor") == (if valor == "entrada" then Txt("") else Campo(prev, "id_proveedor")) &&
      Campo(r, "id_cliente") == (if valor == "salida" then Txt("") else Campo(prev, "id_cliente"))
    ensures forall k :: k != nombre && k != "id_proveedor" && k != "id_cliente" ==>
      (k in r <==> k in prev) && (k in r ==> r[k] == prev[k])
  {
    var r := prev[nombre := Txt(valor)];
    if nombre == "tipo" then
      r["id_proveedor" := if valor == "entrada" then Txt("") else Campo(prev, "id_proveedor")]
       ["id_cliente" := if valor == "salida" then Txt("") else Campo(prev, "id_cliente")]
    else r
  }

  /** A number in a request body: `null`, `NaN`, or an integer. */
  datatype Cifra = Nulo | NaN | Entero(n: int)

  /** `parseInt(v)` of a form value (over whole decimal strings; an unparsable text is `NaN`). */
  function ParseEntero(v: Entrada): (r: Cifra)
    ensures r != Nulo
    ensures v.Num? ==> r == Entero(v.n)
  {
    match v
    case Num(n) => Entero(n)
    case Txt(s) => if ParseInt(s).Some? then Entero(ParseInt(s).value) else NaN
    case Nada => NaN
  }

  /** `v ? parseInt(v) : null`. */
  function EnteroONulo(v: Entrada): (r: Cifra)
    ensures !Lleno(v) <==> r == Nulo
  {
    if Lleno(v) then ParseEntero(v) else Nulo
  }

  /**
   * Why a submit is refused, one case per alert; `UsuarioIlegible` is the parse error of a stored
   * user that is not an object, which the submit's own `catch` reports.
   */
  datatype Rechazo = Incompleto | SinProveedor | SinCliente | StockInsuficiente(disponible: int) | UsuarioIlegible

  /** The request body of a movement. */
  datatype Cuerpo = Cuerpo(
    tipo: Entrada, cantidad: Cifra, idProducto: Cifra, idProveedor: Cifra, idCliente: Cifra, responsable: Cifra)

  /** A typed decimal number reaches the request body as that number. */
  lemma TextoDecimal(n: int)
    ensures ParseEntero(Txt(IntToString(n))) == Entero(n)
  {
    ParseIntOfIntToString(n);
  }

  /** `x?.toLowerCase().includes(termino.toLowerCase())`: an absent name never matches. */
  predicate NombreCoincide(nombre: Option<string>, termino: string)
  {
    nombre.Some? && Contains(ToLower(nombre.value), ToLower(termino))
  }

  /** `!filterTipo || m.tipo === filterTipo`. */
  predicate TipoCoincide(tipo: string, filtro: string)
  {
    filtro == "" || tipo == filtro
  }

  /** An empty term matches every name that is present. */
  lemma TerminoVacio(nombre: Option<string>)
    ensures NombreCoincide(nombre, "") <==> nombre.Some?
  {
    if nombre.Some? {
      ContainsEmpty(ToLower(nombre.value));
    }
  }
}
