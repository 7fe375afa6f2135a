/**
 * The live route table of `main.jsx`. React Router compares a browser path with each declared
 * path without regard to the case of ASCII letters and ignoring trailing slashes; among the
 * routes that match, the first declared is shown, and a path no route matches falls to the
 * catch-all, which navigates to /login.
 */
module Rutas {
  import opened Wrappers
  import opened Seqs
  import opened Text
  import opened Sesion
  import opened RutaPrivada

  /** The path patterns the table declares; `Comodin` is `*`. */
  datatype Patron =
    PLogin | PRegister | PRaiz | PAdmin | PUsuarios | PReportes | PEmpleado | PRegistrarVenta |
    PRegistrarSalida | PProductos | PMovimientos | PMisVentas | PCliente | PMisCompras | PPerfil | Comodin

  /** The path a declared pattern names. */
  function Texto(p: Patron): string
  {
    match p
    case PLogin => "/login"
    case PRegister => "/register"
    case PRaiz => "/"
    case PAdmin => "/admin"
    case PUsuarios => "/usuarios"
    case PReportes => "/reportes"
    case PEmpleado => "/empleado"
    case PRegistrarVenta => "/registrar-venta"
    case PRegistrarSalida => "/empleado/registrar-salida"
    case PProductos => "/empleado/productos"
    case PMovimientos => "/empleado/movimientos"
    case PMisVentas => "/mis-ventas"
    case PCliente => "/cliente"
    case PMisCompras => "/cliente/mis-compras"
    case PPerfil => "/cliente/perfil"
    case Comodin => "*"
  }

  /** A declared path without its trailing slashes: what a browser path is compared with. */
  function Clave(p: Patron): string
  {
    match p
    case PLogin => "/login"
    case PRegister => "/register"
    case PRaiz => ""
    case PAdmin => "/admin"
    case PUsuarios => "/usuarios"
    case PReportes => "/reportes"
    case PEmpleado => "/empleado"
    case PRegistrarVenta => "/registrar-venta"
    case PRegistrarSalida => "/empleado/registrar-salida"
    case PProductos => "/empleado/productos"
    case PMovimientos => "/empleado/movimientos"
    case PMisVentas => "/mis-ventas"
    case PCliente => "/cliente"
    case PMisCompras => "/cliente/mis-compras"
    case PPerfil => "/cliente/perfil"
    case Comodin => "*"
  }

  /** The key of each declared pattern is its path with the trailing slashes removed. */
  lemma ClaveDeTexto(p: Patron)
    requires p != Comodin
    ensures Clave(p) == SinBarrasFinales(Texto(p))
  {
    if p == PRaiz {
      SinBarrasFinalesBarra("");
      assert "" + "/" == "/";
    }
  }

  /** A browser path as the router compares it: lower-cased, without trailing slashes. */
  function Normalizar(path: string): string
  {
    SinBarrasFinales(ToLower(path))
  }

  /** `path` matches the declared pattern `p`. */
  predicate Coincide(path: string, p: Patron)
  {
    p != Comodin && path != "" && Normalizar(path) == Clave(p)
  }

  /** No two declared patterns share a key, so a path matches at most one of them. */
  lemma ClaveInyectiva(p: Patron, q: Patron)
    requires p != Comodin && q != Comodin && Clave(p) == Clave(q)
    ensures p == q
  {
  }

  /** The declared pattern whose key is `n`, or `Comodin` when no key is `n`. */
  function DeClave(n: string): (p: Patron)
    ensures p != Comodin ==> Clave(p) == n
    ensures p == Comodin ==> forall q :: q != Comodin ==> Clave(q) != n
  {
    if n == "" then PRaiz
    else if n == "/login" then PLogin
    else if n == "/register" then PRegister
    else if n == "/admin" then PAdmin
    else if n == "/usuarios" then PUsuarios
    else if n == "/reportes" then PReportes
    else if n == "/empleado" then PEmpleado
    else if n == "/registrar-venta" then PRegistrarVenta
    else if n == "/empleado/registrar-salida" then PRegistrarSalida
    else if n == "/empleado/productos" then PProductos
    else if n == "/empleado/movimientos" then PMovimientos
    else if n == "/mis-ventas" then PMisVentas
    else if n == "/cliente" then PCliente
    else if n == "/cliente/mis-compras" then PMisCompras
    else if n == "/cliente/perfil" then PPerfil
    else Comodin
  }

  /** The declared pattern a browser path matches, or `Comodin` when it matches none of them. */
  function Clasificar(path: string): (p: Patron)
    ensures p != Comodin ==> Coincide(path, p)
    ensures p == Comodin <==> forall q :: !Coincide(path, q)
  {
    if path == "" then Comodin
    else
      var p := DeClave(Normalizar(path));
      assert p != Comodin ==> Coincide(path, p);
      assert p == Comodin ==> forall q :: !Coincide(path, q);
      p
  }

  /** The case of the letters in a path does not change the route it reaches. */
  lemma MayusculasIgnoradas(path: string)
    ensures Clasificar(ToLower(path)) == Clasificar(path)
  {
    ToLowerIdempotent(path);
  }

  /** A trailing slash does not change the route a path reaches. */
  lemma BarraFinalIgnorada(path: string)
    requires path != ""
    ensures Clasificar(path + "/") == Clasificar(path)
  {
    ToLowerAppend(path, "/");
    assert ToLower("/") == "/";
    SinBarrasFinalesBarra(ToLower(path));
  }

  /** The declared paths have no capital letters. */
  predicate SinCapitales(t: string)
  {
    forall i :: 0 <= i < |t| ==> !('A' <= t[i] <= 'Z')
  }

  /** The public and administrator paths have no capital letters. */
  lemma SinCapitalesPublicosYAdmin(p: Patron)
    requires p in {PRaiz, PLogin, PRegister, PAdmin, PUsuarios, PReportes}
    ensures SinCapitales(Texto(p))
  {
  }

  /** The employee paths have no capital letters. */
  lemma SinCapitalesEmpleado(p: Patron)
    requires p in {PEmpleado, PRegistrarVenta, PRegistrarSalida, PProductos, PMovimientos, PMisVentas}
    ensures SinCapitales(Texto(p))
  {
  }

  /** The client paths have no capital letters. */
  lemma SinCapitalesCliente(p: Patron)
    requires p in {PCliente, PMisCompras, PPerfil}
    ensures SinCapitales(Texto(p))
  {
  }

  /** A declared path is in lower case, so it normalises to its key. */
  lemma NormalizarTexto(p: Patron)
    requires p != Comodin
    ensures Normalizar(Texto(p)) == Clave(p)
  {
    if p in {PRaiz, PLogin, PRegister, PAdmin, PUsuarios, PReportes} {
      SinCapitalesPublicosYAdmin(p);
    } else if p in {PEmpleado, PRegistrarVenta, PRegistrarSalida, PProductos, PMovimientos, PMisVentas} {
      SinCapitalesEmpleado(p);
    } else {
      SinCapitalesCliente(p);
    }
    ToLowerSinCapitales(Texto(p));
    ClaveDeTexto(p);
  }

  /** Each declared path, written as declared, reaches its own pattern. */
  lemma DeclaradaReconocida(p: Patron)
    requires p != Comodin
    ensures Clasificar(Texto(p)) == p
  {
    NormalizarTexto(p);
    ClaveInyectiva(p, Clasificar(Texto(p)));
  }

  datatype Elemento = Pagina(componente: string) | Navegar(destino: string) | Protegida(rol: string, componente: string)

  datatype Ruta = Ruta(patron: Patron, elemento: Elemento)

  const Tabla: seq<Ruta> := [
    Ruta(PLogin, Pagina("Login")),
    Ruta(PRegister, Pagina("Register")),
    Ruta(PRaiz, Navegar("/login")),
    Ruta(PAdmin, Protegida("administrador", "AdminDashboard")),
    Ruta(PAdmin, Protegida("administrador", "Gmovimientos")),
    Ruta(PUsuarios, Protegida("administrador", "Usuarios")),
    Ruta(PReportes, Protegida("administrador", "Reportes")),
    Ruta(PEmpleado, Protegida("empleado", "EmpleadoDashboard")),
    Ruta(PEmpleado, Protegida("empleado", "Movimientos")),
    Ruta(PRegistrarVenta, Protegida("empleado", "RegistrarVenta")),
    Ruta(PRegistrarSalida, Protegida("empleado", "RegistrarSalida")),
    Ruta(PProductos, Protegida("empleado", "ConsultarProductos")),
    Ruta(PMovimientos, Protegida("empleado", "Movimientos")),
    Ruta(PMisVentas, Protegida("empleado", "MisVentas")),
    Ruta(PCliente, Protegida("cliente", "ClienteDashboard")),
    Ruta(PMisCompras, Protegida("cliente", "MisCompras")),
    Ruta(PPerfil, Protegida("cliente", "PerfilCliente")),
    Ruta(Comodin, Navegar("/login"))
  ]

  /** The element of the first route at or after position `i` declared for pattern `p`. */
  function PrimeraDesde(p: Patron, i: nat): Option<Elemento>
    requires i <= |Tabla|
    decreases |Tabla| - i
  {
    if i == |Tabla| then None
    else if Tabla[i].patron == p then Some(Tabla[i].elemento)
    else PrimeraDesde(p, i + 1)
  }

  /** Routes declared for other patterns are skipped. */
  lemma {:induction false} PrimeraSalta(p: Patron, i: nat, k: nat)
    requires i <= k <= |Tabla|
    requires forall j :: i <= j < k ==> Tabla[j].patron != p
    ensures PrimeraDesde(p, i) == PrimeraDesde(p, k)
    decreases k - i
  {
    if i < k {
      PrimeraSalta(p, i + 1, k);
    }
  }

  /** The element shown for a path of pattern `p`. */
  function ElementoDe(p: Patron): Elemento
  {
    PrimeraDesde(p, 0).GetOr(Navegar("/login"))
  }

  /** The element shown for `path`. */
  function Buscar(path: string): (e: Elemento)
    ensures e.Navegar? ==> e.destino == "/login"
    ensures e.Protegida? ==> e.rol in {"administrador", "empleado", "cliente"}
  {
    var p := Clasificar(path);
    FormaDeElemento(p);
    ElementoDe(p)
  }

  /** The role a pattern demands, if it is guarded. */
  function RolDe(p: Patron): Option<string>
  {
    match ElementoDe(p)
    case Protegida(rol, _) => Some(rol)
    case _ => None
  }

  /** The role a path demands, if it is guarded. */
  function RolRequerido(path: string): Option<string>
  {
    RolDe(Clasificar(path))
  }

  /** The first declaration of each pattern, as the table lists it. */
  function Esperado(p: Patron): Elemento
  {
    match p
    case PLogin => Pagina("Login")
    case PRegister => Pagina("Register")
    case PRaiz => Navegar("/login")
    case PAdmin => Protegida("administrador", "AdminDashboard")
    case PUsuarios => Protegida("administrador", "Usuarios")
    case PReportes => Protegida("administrador", "Reportes")
    case PEmpleado => Protegida("empleado", "EmpleadoDashboard")
    case PRegistrarVenta => Protegida("empleado", "RegistrarVenta")
    case PRegistrarSalida => Protegida("empleado", "RegistrarSalida")
    case PProductos => Protegida("empleado", "ConsultarProductos")
    case PMovimientos => Protegida("empleado", "Movimientos")
    case PMisVentas => Protegida("empleado", "MisVentas")
    case PCliente => Protegida("cliente", "ClienteDashboard")
    case PMisCompras => Protegida("cliente", "MisCompras")
    case PPerfil => Protegida("cliente", "PerfilCliente")
    case Comodin => Navegar("/login")
  }

  /** The position of the first route declared for each pattern. */
  function Posicion(p: Patron): (k: nat)
    ensures k < |Tabla|
  {
    match p
    case PLogin => 0
    case PRegister => 1
    case PRaiz => 2
    case PAdmin => 3
    case PUsuarios => 5
    case PReportes => 6
    case PEmpleado => 7
    case PRegistrarVenta => 9
    case PRegistrarSalida => 10
    case PProductos => 11
    case PMovimientos => 12
    case PMisVentas => 13
    case PCliente => 14
    case PMisCompras => 15
    case PPerfil => 16
    case Comodin => 17
  }

  /** Every route before a pattern's position is for another pattern, and the one there is for it. */
  lemma PosicionPrimera(p: Patron)
    ensures Tabla[Posicion(p)].patron == p
    ensures forall j :: 0 <= j < Posicion(p) ==> Tabla[j].patron != p
  {
  }

  /** The route at a pattern's position names the element listed for it. */
  lemma PosicionElemento(p: Patron)
    ensures Tabla[Posicion(p)].elemento == Esperado(p)
  {
  }

  /** The table navigates only to /login and guards only with the three role names. */
  lemma FormaDeElemento(p: Patron)
    ensures ElementoDe(p).Navegar? ==> ElementoDe(p).destino == "/login"
    ensures ElementoDe(p).Protegida? ==>
      ElementoDe(p).rol == "administrador" || ElementoDe(p).rol == "empleado" || ElementoDe(p).rol == "cliente"
  {
    ElementosDeclarados(p);
  }

  /** The element shown for each pattern is the one its first declaration names. */
  lemma ElementosDeclarados(p: Patron)
    ensures ElementoDe(p) == Esperado(p)
  {
    PosicionPrimera(p);
    PrimeraSalta(p, 0, Posicion(p));
    PosicionElemento(p);
  }

  /** Exactly "/" and the paths no declared route matches send the user to /login. */
  lemma RaizYDesconocidasALogin(path: string)
    ensures Buscar(path) == Navegar("/login") <==> Clasificar(path) == PRaiz || forall q :: !Coincide(path, q)
  {
    ElementosDeclarados(Clasificar(path));
  }

  /** /login and /register are shown without any guard. */
  lemma PublicasSinGuardia()
    ensures Buscar("/login") == Pagina("Login") && Buscar("/register") == Pagina("Register")
  {
    DeclaradaReconocida(PLogin);
    DeclaradaReconocida(PRegister);
    ElementosDeclarados(PLogin);
    ElementosDeclarados(PRegister);
  }

  /** Exactly /admin, /usuarios and /reportes demand the administrator role. */
  lemma RutasDeAdministrador(path: string)
    ensures RolRequerido(path) == Some("administrador") <==> Clasificar(path) in {PAdmin, PUsuarios, PReportes}
  {
    ElementosDeclarados(Clasificar(path));
  }

  /** Exactly the six employee paths demand the employee role. */
  lemma RutasDeEmpleado(path: string)
    ensures RolRequerido(path) == Some("empleado") <==>
      Clasificar(path) in {PEmpleado, PRegistrarVenta, PRegistrarSalida, PProductos, PMovimientos, PMisVentas}
  {
    ElementosDeclarados(Clasificar(path));
  }

  /** Exactly the three client paths demand the client role. */
  lemma RutasDeCliente(path: string)
    ensures RolRequerido(path) == Some("cliente") <==> Clasificar(path) in {PCliente, PMisCompras, PPerfil}
  {
    ElementosDeclarados(Clasificar(path));
  }

  /** Two guarded declarations of the same pattern demand the same role. */
  lemma DuplicadasMismoRol(i: nat, j: nat)
    requires i < |Tabla| && j < |Tabla| && Tabla[i].patron == Tabla[j].patron
    requires Tabla[i].elemento.Protegida? && Tabla[j].elemento.Protegida?
    ensures Tabla[i].elemento.rol == Tabla[j].elemento.rol
  {
  }

  /** No route demands the supplier role. */
  lemma NadaParaProveedor(path: string)
    ensures RolRequerido(path) != Some("proveedor")
  {
    var p := Clasificar(path);
    if ElementoDe(p).Protegida? {
      RolesProtegidos(p);
      var rol := ElementoDe(p).rol;
      assert |rol| != 9 by {
        assert rol == "administrador" || rol == "empleado" || rol == "cliente";
      }
    }
  }

  /** The supplier's path is already in lower case and has no trailing slash. */
  lemma NormalizarProveedor()
    ensures Normalizar("/proveedor") == "/proveedor"
  {
    var t := "/proveedor";
    assert forall i :: 0 <= i < |t| ==> !('A' <= t[i] <= 'Z');
    ToLowerSinCapitales(t);
    SinBarrasFinalesSinBarra(t);
  }

  /** /proveedor is declared nowhere, so it falls to the catch-all. */
  lemma ProveedorALogin()
    ensures Buscar("/proveedor") == Navegar("/login")
  {
    NormalizarProveedor();
    assert DeClave("/proveedor") == Comodin;
    assert Clasificar("/proveedor") == Comodin;
    ElementosDeclarados(Comodin);
  }

  /** Visiting `path`: a guarded element asks the guard with its one role. */
  function Visitar(path: string, s: Almacen, carga: Option<Carga>, ahora: int): Decision
  {
    match Buscar(path)
    case Pagina(_) => Mostrar
    case Navegar(d) => Redirigir(d, false)
    case Protegida(rol, _) => Guardia(s, carga, ahora, Uno(rol))
  }

  /** A guarded pattern demands one of the three roles administrador, empleado and cliente. */
  lemma RolesProtegidos(p: Patron)
    requires ElementoDe(p).Protegida?
    ensures ElementoDe(p).rol in {"administrador", "empleado", "cliente"}
  {
    FormaDeElemento(p);
  }

  /** A user whose stored role is proveedor is never shown a guarded page. */
  lemma ProveedorNuncaEntra(path: string, s: Almacen, carga: Option<Carga>, ahora: int)
    requires RolGuardado(s) == Some("proveedor")
    requires Buscar(path).Protegida?
    ensures Visitar(path, s, carga, ahora) != Mostrar
  {
    var p := Clasificar(path);
    var rol := ElementoDe(p).rol;
    RolesProtegidos(p);
    // Lower-casing keeps the length, so no guarded role lower-cases to "proveedor".
    assert |rol| != 9 by {
      assert rol == "administrador" || rol == "empleado" || rol == "cliente";
    }
    assert !RolAdmitido(Uno(rol), "proveedor") by {
      assert ComoLista(Uno(rol)) == [rol];
      assert |ToLower(rol)| == |rol|;
    }
    assert Visitar(path, s, carga, ahora) == Guardia(s, carga, ahora, Uno(rol));
  }
}
