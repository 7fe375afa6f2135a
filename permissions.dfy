/**
 * The four permission classes of `apps/task/permissions.py`. A user reaches the backend with an
 * authentication flag and at most one role, read here as the role's name (`None` for a null role).
 */
module Permisos {
  import opened Wrappers

  datatype Usuario = Usuario(autenticado: bool, rol: Option<string>)

  datatype Permiso = IsAdmin | IsEmployee | IsClient | IsProvider

  /** The role name each permission compares against. */
  function NombreRol(p: Permiso): string
  {
    match p
    case IsAdmin => "administrador"
    case IsEmployee => "empleado"
    case IsClient => "cliente"
    case IsProvider => "proveedor"
  }

  /** `has_permission`: an authenticated user whose role is present and named exactly so. */
  predicate Concede(p: Permiso, u: Usuario)
  {
    u.autenticado && u.rol.Some? && u.rol.value == NombreRol(p)
  }

  /** Each permission grants exactly the authenticated users holding the role it names. */
  lemma ConcedeSii(u: Usuario)
    ensures Concede(IsAdmin, u) <==> u.autenticado && u.rol == Some("administrador")
    ensures Concede(IsEmployee, u) <==> u.autenticado && u.rol == Some("empleado")
    ensures Concede(IsClient, u) <==> u.autenticado && u.rol == Some("cliente")
    ensures Concede(IsProvider, u) <==> u.autenticado && u.rol == Some("proveedor")
  {
  }

  /** An anonymous user, or one without a role, is refused by all four. */
  lemma SinSesionOSinRolDenegado(u: Usuario, p: Permiso)
    requires !u.autenticado || u.rol.None?
    ensures !Concede(p, u)
  {
  }

  /** The comparison is case-sensitive: a role called "Administrador" is not an administrator. */
  lemma MayusculasDenegadas()
    ensures !Concede(IsAdmin, Usuario(true, Some("Administrador")))
  {
  }

  /** The four names are distinct, so one user is granted by at most one of the four permissions. */
  lemma AlMasUnaConcede(u: Usuario, p: Permiso, q: Permiso)
    requires Concede(p, u) && Concede(q, u)
    ensures p == q
  {
    assert NombreRol(p) == NombreRol(q);
    match p
    case IsAdmin => assert NombreRol(q)[0] == 'a';
    case IsEmployee => assert NombreRol(q)[0] == 'e';
    case IsClient => assert NombreRol(q)[0] == 'c';
    case IsProvider => assert NombreRol(q)[0] == 'p';
  }
}
