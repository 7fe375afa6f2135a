/**
 * The two interceptors of `services/api.js`. The request interceptor writes the bearer header
 * into the outgoing request's headers; the error interceptor writes a synthetic response into
 * the failed request's error object before rejecting it.
 */
module Api {
  import opened Wrappers
  import opened Sesion

  /** A response body value: a string, or a list of strings (Django REST field errors). */
  datatype Dato = Cadena(s: string) | Varias(items: seq<string>)

  datatype Campo = Campo(clave: string, valor: Dato)

  /** An HTTP response as the screens see it: an optional status and the body's fields in order. */
  datatype Respuesta = Respuesta(status: Option<int>, data: seq<Campo>)

  /** The value of the first body field named `clave`. */
  function Valor(r: Respuesta, clave: string): (v: Option<Dato>)
    ensures v.Some? <==> exists i :: 0 <= i < |r.data| && r.data[i].clave == clave
    ensures v.Some? ==>
      exists i :: 0 <= i < |r.data| && r.data[i].clave == clave && v.value == r.data[i].valor &&
        forall j :: 0 <= j < i ==> r.data[j].clave != clave
  {
    ValorEn(r.data, clave)
  }

  function ValorEn(cs: seq<Campo>, clave: string): (v: Option<Dato>)
    ensures v.Some? <==> exists i :: 0 <= i < |cs| && cs[i].clave == clave
    ensures v.Some? ==>
      exists i :: 0 <= i < |cs| && cs[i].clave == clave && v.value == cs[i].valor &&
        forall j :: 0 <= j < i ==> cs[j].clave != clave
  {
    if cs == [] then None
    else if cs[0].clave == clave then Some(cs[0].valor)
    else
      var v := ValorEn(cs[1..], clave);
      assert forall i :: 1 <= i < |cs| ==> cs[i] == cs[1..][i - 1];
      if v.Some? then
        var i :| 0 <= i < |cs[1..]| && cs[1..][i].clave == clave && v.value == cs[1..][i].valor &&
          forall j :: 0 <= j < i ==> cs[1..][j].clave != clave;
        assert cs[i + 1].clave == clave && v.value == cs[i + 1].valor;
        assert forall j :: 0 <= j < i + 1 ==> cs[j].clave != clave;
        v
      else v
  }

  /** `data.detail` when it is a string. */
  function Detalle(r: Respuesta): Option<string>
  {
    match Valor(r, "detail")
    case Some(Cadena(d)) => Some(d)
    case _ => None
  }

  /** JavaScript truthiness of a body value: a non-empty string, or any array. */
  predicate Verdadero(v: Option<Dato>)
  {
    v.Some? && (v.value.Varias? || v.value.s != "")
  }

  /** A body value written into a template: an array is joined with commas. */
  function EnPlantilla(d: Dato): (t: string)
    ensures d.Cadena? ==> t == d.s
    ensures d.Varias? && |d.items| == 1 ==> t == d.items[0]
  {
    match d
    case Cadena(s) => s
    case Varias(xs) => Unir(xs)
  }

  function Unir(xs: seq<string>): string
  {
    if xs == [] then "" else if |xs| == 1 then xs[0] else xs[0] + "," + Unir(xs[1..])
  }

  /** The headers after the request interceptor: a bearer header exactly when a token is stored. */
  function ConToken(h: map<string, string>, token: Option<string>): (r: map<string, string>)
    ensures Presente(token) ==> r == h["Authorization" := "Bearer " + token.value]
    ensures !Presente(token) ==> r == h
  {
    if Presente(token) then h["Authorization" := "Bearer " + token.value] else h
  }

  class Peticion {
    var headers: map<string, string>

    constructor (h: map<string, string>)
      ensures headers == h
    {
      headers := h;
    }

    /** The request interceptor. */
    method AdjuntarToken(s: Almacen)
      modifies this
      ensures headers == ConToken(old(headers), Leer(s, "access"))
    {
      var token := Leer(s, "access");
      if Presente(token) {
        headers := headers["Authorization" := "Bearer " + token.value];
      }
    }
  }

  const MensajeTimeout: string := "Timeout: El servidor no respondió a tiempo"

  /** The synthetic response a network failure gets. */
  function SoloDetalle(d: string): (r: Respuesta)
    ensures r.status == None && Detalle(r) == Some(d)
  {
    Respuesta(None, [Campo("detail", Cadena(d))])
  }

  /**
   * The response the error interceptor leaves: a timeout always gets the timeout detail; then an
   * error still without a response but with a message gets a connection detail.
   */
  function Normalizada(respuesta: Option<Respuesta>, code: Option<string>, message: string): Option<Respuesta>
  {
    var r := if code == Some("ECONNABORTED") then Some(SoloDetalle(MensajeTimeout)) else respuesta;
    if r.None? && message != "" then Some(SoloDetalle("Error de conexión: " + message)) else r
  }

  /** A timeout's detail is the timeout message, even with a message present and a response there before. */
  lemma TimeoutGana(respuesta: Option<Respuesta>, message: string)
    ensures Normalizada(respuesta, Some("ECONNABORTED"), message) == Some(SoloDetalle(MensajeTimeout))
  {
  }

  /** Any other failure without a response but with a message gets the connection detail. */
  lemma SinRespuestaConMensaje(code: Option<string>, message: string)
    requires code != Some("ECONNABORTED") && message != ""
    ensures Normalizada(None, code, message) == Some(SoloDetalle("Error de conexión: " + message))
  {
  }

  /** An error that already carries a response keeps it, unless it is a timeout. */
  lemma RespuestaIntacta(r: Respuesta, code: Option<string>, message: string)
    requires code != Some("ECONNABORTED")
    ensures Normalizada(Some(r), code, message) == Some(r)
  {
  }

  /** Only an error with no response, no timeout code and no message is left without a response. */
  lemma SinRespuestaSii(respuesta: Option<Respuesta>, code: Option<string>, message: string)
    ensures Normalizada(respuesta, code, message).None? <==>
      respuesta.None? && code != Some("ECONNABORTED") && message == ""
  {
  }

  /** The failed request's error as the interceptor receives it. */
  class ErrorHttp {
    var code: Option<string>
    var message: string
    var response: Option<Respuesta>

    constructor (c: Option<string>, m: string, r: Option<Respuesta>)
      ensures code == c && message == m && response == r
    {
      code, message, response := c, m, r;
    }

    /** The error interceptor: only `response` changes; the error is then rejected as it is. */
    method Normalizar()
      modifies this`response
      ensures response == Normalizada(old(response), code, message)
    {
      if code == Some("ECONNABORTED") {
        response := Some(SoloDetalle(MensajeTimeout));
      }
      if response.None? && message != "" {
        response := Some(SoloDetalle("Error de conexión: " + message));
      }
    }
  }
}
