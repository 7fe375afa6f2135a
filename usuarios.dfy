/**
 * The user administration screen: the list of clients followed by employees, the three tabs,
 * the label each row gets, the endpoint a delete goes to, and the create form's submit.
 */
module Usuarios {
  import opened Wrappers
  import opened Text
  import opened Seqs
  import opened Sesion
  import Modelos

  /** A table row: a client or an employee record as the backend serializes it. */
  datatype Fila = Fila(id: int, nombre: string, correo: Option<string>, telefono: string)

  function DeCliente(c: Modelos.Cliente): (f: Fila)
    ensures f.id == c.id && f.correo == Some(c.correo)
  {
    Fila(c.id, c.nombre, Some(c.correo), c.telefono)
  }

  /** An employee record has no `correo` field. */
  function DeEmpleado(e: Modelos.Empleado): (f: Fila)
    ensures f.id == e.id && f.correo.None?
  {
    Fila(e.id, e.nombre, None, e.telefono)
  }

  /** `user.correo ? …`: the row counts as a client iff its `correo` is truthy. */
  predicate EsCliente(f: Fila)
  {
    Presente(f.correo)
  }

  datatype Etiqueta = ClienteE | EmpleadoE

  /** The row's badge. */
  function EtiquetaDe(f: Fila): (e: Etiqueta)
    ensures e == ClienteE <==> EsCliente(f)
  {
    if EsCliente(f) then ClienteE else EmpleadoE
  }

  /** The endpoint the row's delete button sends to, chosen by the same test as the badge. */
  function RutaBorrar(f: Fila): (r: string)
    ensures EtiquetaDe(f) == ClienteE ==> r == "/farmacia/clientes/" + IntToString(f.id) + "/"
    ensures EtiquetaDe(f) == EmpleadoE ==> r == "/farmacia/empleados/" + IntToString(f.id) + "/"
  {
    var tipo := if EsCliente(f) then "cliente" else "empleado";
    if tipo == "cliente" then "/farmacia/clientes/" + IntToString(f.id) + "/"
    else "/farmacia/empleados/" + IntToString(f.id) + "/"
  }

  datatype Pestana = Todos | SoloClientes | SoloEmpleados

  /** The rows a tab shows: all, the clients, or the employees, from the last load. */
  function Lista(p: Pestana, cs: seq<Fila>, es: seq<Fila>): (r: seq<Fila>)
    ensures p == Todos ==> |r| == |cs| + |es| && r[..|cs|] == cs && r[|cs|..] == es
    ensures p == SoloClientes ==> r == cs
    ensures p == SoloEmpleados ==> r == es
  {
    match p
    case Todos => cs + es
    case SoloClientes => cs
    case SoloEmpleados => es
  }

  /**
   * With the backend's records (a client's email is a required field, so never empty), the rows
   * labelled client in the full list are exactly the clients, in order, and the others exactly
   * the employees.
   */
  lemma EtiquetasCorrectas(clientes: seq<Modelos.Cliente>, empleados: seq<Modelos.Empleado>)
    requires forall c :: c in clientes ==> c.correo != ""
    ensures var cs, es := Map(clientes, DeCliente), Map(empleados, DeEmpleado);
      Filter(Lista(Todos, cs, es), EsCliente) == cs &&
      Filter(Lista(Todos, cs, es), f => !EsCliente(f)) == es
  {
    var cs, es := Map(clientes, DeCliente), Map(empleados, DeEmpleado);
    FilasDeClientes(clientes);
    FilasDeEmpleados(empleados);
    FilterAppend(cs, es, EsCliente);
    FilterTodos(cs, EsCliente);
    FilterNinguno(es, EsCliente);
    FilterAppend(cs, es, f => !EsCliente(f));
    FilterNinguno(cs, f => !EsCliente(f));
    FilterTodos(es, f => !EsCliente(f));
  }

  /** Every client row counts as a client when the emails are not empty. */
  lemma FilasDeClientes(clientes: seq<Modelos.Cliente>)
    requires forall c :: c in clientes ==> c.correo != ""
    ensures forall f :: f in Map(clientes, DeCliente) ==> EsCliente(f)
  {
    var cs := Map(clientes, DeCliente);
    forall f | f in cs
      ensures EsCliente(f)
    {
      var i :| 0 <= i < |cs| && cs[i] == f;
      assert clientes[i] in clientes;
    }
  }

  /** No employee row counts as a client. */
  lemma FilasDeEmpleados(empleados: seq<Modelos.Empleado>)
    ensures forall f :: f in Map(empleados, DeEmpleado) ==> !EsCliente(f)
  {
    var es := Map(empleados, DeEmpleado);
    forall f | f in es
      ensures !EsCliente(f)
    {
      var i :| 0 <= i < |es| && es[i] == f;
    }
  }

  /** What the screen holds: the three lists, and the create form with its modal. */
  datatype Estado = Estado(
    usuarios: seq<Fila>, clientes: seq<Fila>, empleados: seq<Fila>, form: Formulario, modal: bool)

  datatype Formulario = Formulario(nombre: string, correo: string, telefono: string, username: string, password: string)

  const FormVacio := Formulario("", "", "", "", "")

  /** `cargarUsuarios`, given both lists (`None` when either request fails: nothing changes). */
  function Cargar(e: Estado, listas: Option<(seq<Fila>, seq<Fila>)>): (r: Estado)
    ensures listas.None? ==> r == e
    ensures listas.Some? ==>
      r.clientes == listas.value.0 && r.empleados == listas.value.1 &&
      r.usuarios == Lista(Todos, listas.value.0, listas.value.1) &&
      r.form == e.form && r.modal == e.modal
  {
    if listas.None? then e
    else e.(clientes := listas.value.0, empleados := listas.value.1, usuarios := listas.value.0 + listas.value.1)
  }

  /** A tab click: the list shown becomes the tab's list from the last load. */
  function Elegir(e: Estado, p: Pestana): (r: Estado)
    ensures r.usuarios == Lista(p, e.clientes, e.empleados)
    ensures r.clientes == e.clientes && r.empleados == e.empleados && r.form == e.form && r.modal == e.modal
  {
    e.(usuarios := Lista(p, e.clientes, e.empleados))
  }

  /** The collection a create posts to: clients for "cliente", employees for anything else. */
  function RutaCrear(tipo: string): (r: string)
    ensures tipo == "cliente" <==> r == "/farmacia/clientes/"
    ensures tipo != "cliente" <==> r == "/farmacia/empleados/"
  {
    if tipo == "cliente" then "/farmacia/clientes/" else "/farmacia/empleados/"
  }

  /**
   * `handleSubmit`, given the post's outcome and the reload that follows a success. A failed post
   * changes nothing; a successful one closes the modal, clears the form and reloads the lists.
   */
  function Enviar(e: Estado, tipo: string, ok: bool, recarga: Option<(seq<Fila>, seq<Fila>)>): (r: (string, Estado))
    ensures r.0 == RutaCrear(tipo)
    ensures !ok ==> r.1 == e
    ensures ok ==> !r.1.modal && r.1.form == FormVacio && r.1 == Cargar(e.(modal := false, form := FormVacio), recarga)
  {
    if ok then (RutaCrear(tipo), Cargar(e.(modal := false, form := FormVacio), recarga))
    else (RutaCrear(tipo), e)
  }

  /** After a successful reload, the full list is as long as the two lists together. */
  lemma TodosSuma(e: Estado, cs: seq<Fila>, es: seq<Fila>)
    ensures |Cargar(e, Some((cs, es))).usuarios| == |cs| + |es|
    ensures Elegir(Cargar(e, Some((cs, es))), Todos).usuarios == Cargar(e, Some((cs, es))).usuarios
  {
  }
}
