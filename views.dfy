/**
 * The `permission_classes` of the ViewSets in `apps/task/views.py`: every ViewSet demands
 * `IsAuthenticated` and then the alternatives joined by `|`.
 */
module Vistas {
  import opened Wrappers
  import opened Permisos

  datatype Vista =
    Categorias | Productos | Proveedores | Clientes | Empleados | FacturasVenta | DetallesVenta | Movimientos

  /** The permissions of a ViewSet after `IsAuthenticated`, any one of which suffices. */
  function Alternativas(v: Vista): seq<Permiso>
  {
    match v
    case Categorias => [IsAdmin]
    case Productos => [IsAdmin, IsEmployee]
    case Proveedores => [IsAdmin, IsProvider]
    case Clientes => [IsClient, IsEmployee, IsAdmin]
    case Empleados => [IsAdmin]
    case FacturasVenta => [IsEmployee, IsAdmin]
    case DetallesVenta => [IsAdmin, IsEmployee]
    case Movimientos => [IsAdmin, IsEmployee]
  }

  /** Whether a request by `u` passes the ViewSet's permission checks. */
  predicate Permitido(v: Vista, u: Usuario)
  {
    u.autenticado && exists i :: 0 <= i < |Alternativas(v)| && Concede(Alternativas(v)[i], u)
  }

  /** The role names that may use each ViewSet, as the ViewSets' `permission_classes` name them. */
  function RolesDe(v: Vista): set<string>
  {
    match v
    case Categorias => {"administrador"}
    case Productos => {"administrador", "empleado"}
    case Proveedores => {"administrador", "proveedor"}
    case Clientes => {"cliente", "empleado", "administrador"}
    case Empleados => {"administrador"}
    case FacturasVenta => {"empleado", "administrador"}
    case DetallesVenta => {"administrador", "empleado"}
    case Movimientos => {"administrador", "empleado"}
  }

  /** The permission table grants exactly the authenticated users whose role is one of `RolesDe(v)`. */
  lemma PermitidoSii(v: Vista, u: Usuario)
    ensures Permitido(v, u) <==> u.autenticado && u.rol.Some? && u.rol.value in RolesDe(v)
  {
    var alt := Alternativas(v);
    if u.autenticado && u.rol.Some? && u.rol.value in RolesDe(v) {
      assert Concede(alt[0], u) || (|alt| > 1 && Concede(alt[1], u)) || (|alt| > 2 && Concede(alt[2], u));
    }
  }

  /** An anonymous request is refused by every ViewSet. */
  lemma AnonimoDenegado(v: Vista, u: Usuario)
    requires !u.autenticado
    ensures !Permitido(v, u)
  {
  }

  /** A client reaches the clients ViewSet and nothing else in this router. */
  lemma ClienteSoloClientes(v: Vista, u: Usuario)
    requires u.autenticado && u.rol == Some("cliente")
    ensures Permitido(v, u) <==> v == Clientes
  {
    PermitidoSii(v, u);
  }

  /** A supplier reaches the suppliers ViewSet and nothing else. */
  lemma ProveedorSoloProveedores(v: Vista, u: Usuario)
    requires u.autenticado && u.rol == Some("proveedor")
    ensures Permitido(v, u) <==> v == Proveedores
  {
    PermitidoSii(v, u);
  }

  /** Categories and employees are for administrators only. */
  lemma SoloAdministrador(v: Vista, u: Usuario)
    requires v == Categorias || v == Empleados
    ensures Permitido(v, u) <==> Concede(IsAdmin, u)
  {
    PermitidoSii(v, u);
  }
}
