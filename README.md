# Farmacia inventory: a verified model in Dafny

This project models the logic of a pharmacy inventory system. The system has two parts: a Django REST backend (`Inventario-Django`) and a React front end (`Front-End-_Inventory_Management_Django`). The model covers:

- **The backend stock ledger** (`Senales`, over the entities of `Modelos`).
  - A sale line is checked against the product's stock. The handlers intend that on creation it gets its unit price and subtotal and the stock drops by its quantity, and that every save of a line recomputes its invoice's total (`Senales.Farmacia.CrearDetalle`, `Senales.Farmacia.ActualizarDetalle`).
  - As written, those handlers name a `subtotal` and a `total` that `models.py` does not declare, so every save of a sale line raises after its row is written, and neither the total nor the stock changes (`Senales.Farmacia.CrearDetalleEscrito`, `Senales.Farmacia.ActualizarDetalleEscrito`; see Findings).
  - A movement is validated: an exit needs enough stock and a client, and an entry needs a supplier. Creating a movement shifts the stock; deleting one reverts the shift.
  - The class `Senales.Farmacia` holds the stock, prices, lines, totals and movements. Its methods keep an invariant: prices and stock cover the same products, and every line and movement refers to a known product (and every line to a known invoice).
  - In the intended version, each save of a line recomputes the total of the invoice the line now names, from all its lines. As `signals.py:30-37` is laid out, the total of an invoice a line is moved away from is not recomputed, so it can go stale.
- **Access control.**
  - The four role permissions (`Permisos`) and the permission table of the ViewSets (`Vistas`).
  - The front-end route table (`Rutas`) and the route guard (`RutaPrivada`).
  - The login's role resolution, redirect, session writes and error messages (`Login`, over the stored session of `Sesion`).
  - The shared HTTP client's interceptors (`Api`).
- **The sale cart** (`RegistrarVenta.Venta`): add, change the quantity, increment, decrement and remove. Each operation keeps total = Σ subtotals, subtotal = quantity × price, and at most one line per product. The submit validation is a loop proved against its specification.
- **The list screens.**
  - Stock classes, filters and statistics: `ConsultarProducto`, `Productos`, and the three dashboards `EmpleadoDashboard`, `AdminDashboard` and `Reporte`.
  - The movement forms and lists: `FormMovimiento`, `GestionMovimiento`, `Movimientos`, `RegistrarSalida`.
  - Grouping of sale lines by invoice: `Agrupacion`, `MisCompras`, `ClienteDashboard`. The imperative `forEach` over a `Map` is a method proved against a fold.
  - A salesperson's sales: `MisVentas`.
- **Accounts and profiles.**
  - Sign-up validation and error precedence: `Register`.
  - The profile screen with its storage merge: the class `PerfilCliente.Pantalla`.
  - The user administration tabs: `Usuarios`.

`Seqs`, `Text`, `Orden` and `Wrappers` are shared helpers:

- list filtering, counting, sums and sub-lists;
- ASCII lower-casing, trimming, substring search and decimal conversion;
- a stable insertion sort with its ordering and permutation lemmas;
- `Option`/`Result`.

`Registros` holds the record shapes the screens receive.

Conventions:

- Money is in integer cents, so every sum and product is exact.
- Dates are integers.
- Network responses, the decoded token, the clock and the stored session are parameters.
- A request that can fail is an `Option` or a `Result`.
- The browser's `localStorage` is `Sesion.Almacen`, a map from keys to a text or a parsed object.

Where the test suite and the code disagree, the model follows the code:

- `Inventario-Django/farmacia/apps/task/tests.py:340-357` expects an entry with a client and no supplier to be accepted, but `signals.py:63-65` rejects it. `Senales.ValidarMovimiento` rejects it.
- `models.py` declares no `id_proveedor` on `Movimiento`. The movement validator reads it, which raises `AttributeError` unless the caller set it on the instance. `Modelos.Movimiento` carries it as an optional field. An unset supplier is `None`, and the entry is refused: with the supplier error in the model, with `AttributeError` in the code.
- `models.py` declares no `subtotal` on `DetalleVenta` and no `total` on `FacturaVenta`, although the sale-line handlers write and read them. That is a defect of the code, listed under Findings. The model states both what the code does and what it is evidently meant to do.

## Model

| member | source | states |
|---|---|---|
| Modelos.ParseTipo | Inventario-Django/farmacia/apps/task/models.py:67-73 | a stored movement type is valid iff it is "entrada" or "salida", and it reads back as the choice it names |
| Modelos.ParseTipoTexto | Inventario-Django/farmacia/apps/task/models.py:67-73 | each of the two choices survives being stored and read back |
| Modelos.NuevoProducto | Inventario-Django/farmacia/apps/task/models.py:18-24 | a new product starts with stock 0 and keeps the given name, price, category and supplier |
| Modelos.NuevoDetalle | Inventario-Django/farmacia/apps/task/models.py:56-61 | a new sale line has quantity 1 and names one invoice and one product |
| Modelos.NuevoMovimiento | Inventario-Django/farmacia/apps/task/models.py:66-77 | a new movement has quantity 1, no client and no supplier |
| Modelos.InsertarCategoria | Inventario-Django/farmacia/apps/task/models.py:5 | an insert succeeds iff no category already has the name; success appends the row and keeps names unique, failure reports the duplicated name |
| Modelos.InsertarProveedor | Inventario-Django/farmacia/apps/task/models.py:12-13 | an insert succeeds iff no supplier already has the contact; success appends the row and keeps contacts unique |
| Modelos.NombreProveedorRepetible | Inventario-Django/farmacia/apps/task/models.py:12 | two suppliers may share a name when their contacts differ |
| Senales.ValidarDetalle | Inventario-Django/farmacia/apps/task/signals.py:9-18 | a sale line is refused iff the product's stock is below the quantity, and the error carries both numbers |
| Senales.ValidarMovimiento | Inventario-Django/farmacia/apps/task/signals.py:51-69 | a movement passes iff an exit has enough stock and a client and an entry has a supplier; the stock error comes before the client error |
| Senales.Aplicar | Inventario-Django/farmacia/apps/task/signals.py:71-82 | a created movement changes its product's stock by its signed quantity (plus for an entry, minus for an exit), and reverting that change restores the stock |
| Senales.Revertir | Inventario-Django/farmacia/apps/task/signals.py:84-94 | a deleted movement changes its product's stock by minus its signed quantity |
| Senales.StockTrasGuardar | Inventario-Django/farmacia/apps/task/signals.py:71-82 | a created entry adds its quantity and a created exit subtracts it, on its own product only; a re-save changes no stock |
| Senales.StockTrasEliminar | Inventario-Django/farmacia/apps/task/signals.py:84-94 | deleting an entry subtracts its quantity and deleting an exit adds it back, on its own product only |
| Senales.CrearEliminarRestaura | Inventario-Django/farmacia/apps/task/signals.py:78-93 | creating a movement and then deleting it gives every product its original stock |
| Senales.EditarEliminarDesvia | Inventario-Django/farmacia/apps/task/signals.py:76-93 | after an edit that changes the quantity, deleting the movement leaves stock off by the quantity difference |
| Senales.SalidaAceptadaNoNegativa | Inventario-Django/farmacia/apps/task/signals.py:57-81 | an accepted exit from non-negative stock leaves the stock non-negative |
| Senales.EliminarEntradaNegativa | Inventario-Django/farmacia/apps/task/signals.py:57-94 | deleting an entry is unchecked: entry 10, accepted exit 8, deleting the entry leaves stock -8 |
| Senales.ReguardarDetalleRechazado | Inventario-Django/farmacia/apps/task/signals.py:9-47 | once the intended creation has taken the line's quantity out of stock, re-saving a line that took more than half the stock is refused, because validation runs against the already reduced stock |
| Senales.SumaSubtotalesSnoc | Inventario-Django/farmacia/apps/task/signals.py:36 | a new line adds its subtotal to its own invoice's sum and nothing to any other invoice |
| Senales.SumaSubtotalesUpdate | Inventario-Django/farmacia/apps/task/signals.py:36 | replacing a line moves each invoice's sum by the old and new subtotals it held |
| Senales.Farmacia.constructor | Inventario-Django/farmacia/apps/task/models.py:18-51 | a database of products and invoices with no lines or movements, all totals 0, satisfying the key invariant |
| Senales.Farmacia.CrearDetalle | Inventario-Django/farmacia/apps/task/signals.py:9-47 | the intended creation: refused iff stock < quantity, with nothing changed; otherwise one line is appended with the product's price and subtotal = quantity × price, the invoice total equals the sum of its lines' subtotals, and only that product's stock drops by the quantity |
| Senales.Farmacia.ActualizarDetalle | Inventario-Django/farmacia/apps/task/signals.py:9-37 | the intended re-save: a re-save is validated against current stock; on success the fields are replaced, the subtotal and stock are kept, and the invoice total is recomputed from its lines |
| Senales.Farmacia.CrearDetalleEscrito | Inventario-Django/farmacia/apps/task/signals.py:9-28 | creation as written always fails: below-quantity stock gives the stock error with nothing stored; otherwise the row is stored with the caller's price, the nested save fails on the undeclared `subtotal`, and stock and totals are unchanged |
| Senales.Farmacia.ActualizarDetalleEscrito | Inventario-Django/farmacia/apps/task/signals.py:9-36 | a re-save as written always fails: the stock error with nothing changed, or the row is updated and reading `subtotal` back fails, with stock and totals unchanged |
| Senales.DiscrepanciaDetalle | Inventario-Django/farmacia/apps/task/signals.py:26-47 | stock 5, price 100, a line of 2: as written the save fails and leaves stock 5 and total 0; the intended handlers give line 0, stock 3 and total 200 |
| Senales.Farmacia.CrearMovimiento | Inventario-Django/farmacia/apps/task/signals.py:51-82 | refused exactly when validation fails, with nothing changed; otherwise stored under a fresh id and applied to its product's stock by the ledger function |
| Senales.Farmacia.ActualizarMovimiento | Inventario-Django/farmacia/apps/task/signals.py:51-77 | a re-save is validated again and stored on success, and never changes stock |
| Senales.Farmacia.EliminarMovimiento | Inventario-Django/farmacia/apps/task/signals.py:84-94 | deleting a stored movement removes it and reverts its stock change with no check; an unknown id changes nothing |
| Permisos.ConcedeSii | Inventario-Django/farmacia/apps/task/permissions.py:12-43 | IsAdmin, IsEmployee, IsClient and IsProvider grant exactly the authenticated users whose role is named "administrador", "empleado", "cliente" and "proveedor" respectively |
| Permisos.SinSesionOSinRolDenegado | Inventario-Django/farmacia/apps/task/permissions.py:14-43 | an unauthenticated user, or one with a null role, is refused by all four permissions |
| Permisos.MayusculasDenegadas | Inventario-Django/farmacia/apps/task/permissions.py:14 | the name comparison is case-sensitive: a role named "Administrador" is refused by IsAdmin |
| Permisos.AlMasUnaConcede | Inventario-Django/farmacia/apps/task/permissions.py:14-43 | a user with one role is granted by at most one of the four permissions |
| Permisos.Concede | Inventario-Django/farmacia/apps/task/permissions.py:12-43 | the permission test an authenticated user with a present role passes when the role name matches; stated per permission by Permisos.ConcedeSii |
| Vistas.PermitidoSii | Inventario-Django/farmacia/apps/task/views.py:19-114 | each ViewSet admits exactly the authenticated users whose role is in its role set: categories and employees for administrators; products, invoices, lines and movements for administrators and employees; suppliers for administrators and suppliers; clients for clients, employees and administrators |
| Vistas.AnonimoDenegado | Inventario-Django/farmacia/apps/task/views.py:19-114 | an anonymous request is refused by every ViewSet |
| Vistas.ClienteSoloClientes | Inventario-Django/farmacia/apps/task/views.py:19-114 | a client reaches the clients ViewSet and no other |
| Vistas.ProveedorSoloProveedores | Inventario-Django/farmacia/apps/task/views.py:19-114 | a supplier reaches the suppliers ViewSet and no other |
| Vistas.SoloAdministrador | Inventario-Django/farmacia/apps/task/views.py:19-78 | categories and employees admit exactly the users IsAdmin grants |
| Rutas.Clasificar | Front-End-_Inventory_Management_Django/src/main.jsx:34-160 | a path falls to the catch-all iff it matches no declared path; otherwise it matches the declared path it yields, compared without regard to letter case and ignoring trailing slashes |
| Rutas.ClaveInyectiva | Front-End-_Inventory_Management_Django/src/main.jsx:34-157 | no two declared paths are the same once trailing slashes are removed, so a path matches at most one of them |
| Rutas.DeClave | Front-End-_Inventory_Management_Django/src/main.jsx:34-157 | the declared pattern with a given key, or the catch-all exactly when no declared path has that key |
| Rutas.ClaveDeTexto | Front-End-_Inventory_Management_Django/src/main.jsx:34-157 | a declared path is compared by its text without trailing slashes ("/" by the empty text) |
| Rutas.NormalizarTexto | Front-End-_Inventory_Management_Django/src/main.jsx:34-157 | every declared path is in lower case, so it normalises to its own key |
| Rutas.MayusculasIgnoradas | Front-End-_Inventory_Management_Django/src/main.jsx:34-160 | lower-casing a path does not change the route it reaches |
| Rutas.BarraFinalIgnorada | Front-End-_Inventory_Management_Django/src/main.jsx:34-160 | appending a slash to a non-empty path does not change the route it reaches |
| Rutas.DeclaradaReconocida | Front-End-_Inventory_Management_Django/src/main.jsx:34-157 | every declared path, typed as declared, reaches its own route |
| Rutas.ElementosDeclarados | Front-End-_Inventory_Management_Django/src/main.jsx:34-160 | the element shown for a pattern is the one its first declaration names |
| Rutas.Buscar | Front-End-_Inventory_Management_Django/src/main.jsx:34-160 | the only navigation the table shows goes to /login, and every guarded element demands administrador, empleado or cliente |
| Rutas.RaizYDesconocidasALogin | Front-End-_Inventory_Management_Django/src/main.jsx:36-160 | a path navigates to /login iff it reaches "/" or matches no declared path, matching taken as the router does it (any letter case, trailing slashes ignored) |
| Rutas.PublicasSinGuardia | Front-End-_Inventory_Management_Django/src/main.jsx:34-35 | /login and /register show their pages with no guard |
| Rutas.RutasDeAdministrador | Front-End-_Inventory_Management_Django/src/main.jsx:39-71 | a path demands the administrator role iff it reaches /admin, /usuarios or /reportes, in any letter case and with or without trailing slashes |
| Rutas.RutasDeEmpleado | Front-End-_Inventory_Management_Django/src/main.jsx:74-131 | a path demands the employee role iff it reaches one of the six employee paths, in any letter case and with or without trailing slashes |
| Rutas.RutasDeCliente | Front-End-_Inventory_Management_Django/src/main.jsx:134-157 | a path demands the client role iff it reaches /cliente, /cliente/mis-compras or /cliente/perfil, in any letter case and with or without trailing slashes |
| Rutas.DuplicadasMismoRol | Front-End-_Inventory_Management_Django/src/main.jsx:39-89 | two guarded declarations of the same path demand the same role |
| Rutas.NadaParaProveedor | Front-End-_Inventory_Management_Django/src/main.jsx:39-157 | no path demands the supplier role |
| Rutas.ProveedorALogin | Front-End-_Inventory_Management_Django/src/main.jsx:160 | /proveedor is declared nowhere and falls to the catch-all, which navigates to /login |
| Rutas.RolesProtegidos | Front-End-_Inventory_Management_Django/src/main.jsx:39-157 | every guarded route demands "administrador", "empleado" or "cliente" |
| Rutas.ProveedorNuncaEntra | Front-End-_Inventory_Management_Django/src/main.jsx:39-157 | a user whose stored role is proveedor is never shown a guarded page |
| RutaPrivada.ComoLista | Front-End-_Inventory_Management_Django/src/router/PrivateRoute.jsx:44-46 | a single allowed role becomes the one-element list, and a list is kept as given |
| RutaPrivada.Tablero | Front-End-_Inventory_Management_Django/src/router/PrivateRoute.jsx:60-69 | a refused user is always sent to one of /admin, /empleado, /cliente or /login |
| RutaPrivada.Guardia | Front-End-_Inventory_Management_Django/src/router/PrivateRoute.jsx:6-73 | the page is shown iff a token is stored, decodes and has not expired, a role is stored, and the role is admitted; the store is cleared iff a stored token cannot be decoded or has expired |
| RutaPrivada.SinToken | Front-End-_Inventory_Management_Django/src/router/PrivateRoute.jsx:16-19 | with no stored token the page is not shown, the user goes to /login and the store is kept |
| RutaPrivada.TokenExpirado | Front-End-_Inventory_Management_Django/src/router/PrivateRoute.jsx:23-30 | once now ≥ exp·1000 the store is cleared and the user goes to /login |
| RutaPrivada.TokenIlegible | Front-End-_Inventory_Management_Django/src/router/PrivateRoute.jsx:31-35 | an undecodable token clears the store and sends the user to /login |
| RutaPrivada.SinRol | Front-End-_Inventory_Management_Django/src/router/PrivateRoute.jsx:38-41 | a live token without a stored role sends the user to /login without clearing the store |
| RutaPrivada.UnoComoLista | Front-End-_Inventory_Management_Django/src/router/PrivateRoute.jsx:44-46 | naming one role decides exactly as the list holding only that role |
| RutaPrivada.MostrarSii | Front-End-_Inventory_Management_Django/src/router/PrivateRoute.jsx:6-73 | the page is shown iff the token is present, decodable and unexpired, a role is stored, and some allowed role equals it case-insensitively |
| RutaPrivada.DenegadoATablero | Front-End-_Inventory_Management_Django/src/router/PrivateRoute.jsx:57-69 | a refused administrador, empleado or cliente goes to /admin, /empleado or /cliente; any other role, proveedor included, goes to /login |
| RutaPrivada.LimpiaSoloSi | Front-End-_Inventory_Management_Django/src/router/PrivateRoute.jsx:28-33 | the store is cleared iff a present token has expired or cannot be decoded |
| RutaPrivada.AlmacenTras | Front-End-_Inventory_Management_Django/src/router/PrivateRoute.jsx:28-33 | a clearing decision leaves an empty store; every other decision leaves the store unchanged |
| Sesion.Leer | Front-End-_Inventory_Management_Django/src/router/PrivateRoute.jsx:5-6 | a stored item is read iff its key holds a plain string, and the value read is that string |
| Sesion.Quitar | Front-End-_Inventory_Management_Django/src/components/Login.jsx:226-229 | removing a set of keys drops exactly those keys and keeps every other entry as it was |
| Sesion.UsuarioId | Front-End-_Inventory_Management_Django/src/components/Movimientos.jsx:117 | an id is read only from a stored user object carrying one, and then it is that field parsed as an integer |
| Sesion.CamposUsuario | Front-End-_Inventory_Management_Django/src/components/Movimientos.jsx:117 | a missing or empty stored user reads as an empty object, a stored object as its fields, and the parse fails exactly for any other stored text |
| Sesion.CerrarSesion | Front-End-_Inventory_Management_Django/src/components/AdminDashboard.jsx:67-70 | logging out of either staff dashboard (also EmpleadoDashboard.jsx:92-95) empties the storage and goes to /login |
| Login.PorRol | Front-End-_Inventory_Management_Django/src/components/Login.jsx:167-186 | the fifth strategy yields "cliente" or the lower-cased name of a role in the fetched list |
| Login.DeterminarTipo | Front-End-_Inventory_Management_Django/src/components/Login.jsx:97-195 | the resolved type is one of cliente, empleado, proveedor and administrador, or the lower-cased name of a role in the fetched list |
| Login.PrimerPerfilGana | Front-End-_Inventory_Management_Django/src/components/Login.jsx:101-144 | the client, employee and supplier probes are tried in that order, and the first list holding a record of the user decides |
| Login.FalloComoVacio | Front-End-_Inventory_Management_Django/src/components/Login.jsx:112-181 | a failed probe resolves exactly as one that found nothing, so it never aborts the resolution |
| Login.SinPerfil | Front-End-_Inventory_Management_Django/src/components/Login.jsx:146-186 | with no profile match the result is "administrador" iff the categories probe succeeds with a non-empty user list; otherwise it is the role's lower-cased name, or "cliente" for a user without a role |
| Login.TipoEnMinusculas | Front-End-_Inventory_Management_Django/src/components/Login.jsx:97-195 | the resolved type is always in lower case |
| Login.RutaDeNormalizado | Front-End-_Inventory_Management_Django/src/components/Login.jsx:203-220 | administrador, empleado and proveedor go to /admin, /empleado and /proveedor, and every other type (cliente included) goes to /cliente, in both directions |
| Login.RutaDe | Front-End-_Inventory_Management_Django/src/components/Login.jsx:199-220 | every type is sent to /admin, /empleado, /proveedor or /cliente; /admin exactly for administrador and /cliente exactly for the types other than administrador, empleado and proveedor, after trimming and lower-casing |
| Login.RutaIgnoraMayusculasYEspacios | Front-End-_Inventory_Management_Django/src/components/Login.jsx:199 | the target does not change with letter case or with white space around the type |
| Login.ProveedorTerminaEnLogin | Front-End-_Inventory_Management_Django/src/components/Login.jsx:207 | a supplier is sent to /proveedor, which no route declares, so the router sends it on to /login |
| Login.DatosUsuario | Front-End-_Inventory_Management_Django/src/components/Login.jsx:67-74 | the stored user object has exactly the keys id, username, email, telefono, rol and rol_id; rol is the resolved type, and rol_id is the role's id or null for a user without a role |
| Login.Guardar | Front-End-_Inventory_Management_Django/src/components/Login.jsx:76-81 | a successful login writes access, refresh (empty without one), user, rol, username and user_id, and leaves every other key as it was |
| Login.Enviar | Front-End-_Inventory_Management_Django/src/components/Login.jsx:39-86 | a login ends without error iff it navigates, iff the token response succeeded with an access token and the user list succeeded and names the user; an error removes exactly the four session keys |
| Login.ExitoGuardaTipo | Front-End-_Inventory_Management_Django/src/components/Login.jsx:39-86 | a login without error had an access token and found the user; the stored rol and the user object's rol are both the resolved type, the token is stored, and the user goes to that type's page |
| Login.GuardarEscribe | Front-End-_Inventory_Management_Django/src/components/Login.jsx:76-81 | a successful login writes the token under access, the resolved type under rol and the user object under user |
| Login.SinAccessFalla | Front-End-_Inventory_Management_Django/src/components/Login.jsx:41-43 | a token response without an access token ends in an error, no navigation, and none of the four session keys |
| Login.MensajeError | Front-End-_Inventory_Management_Django/src/components/Login.jsx:231-259 | an error with a response gets one of the status messages, and one without a response gets one of the other messages; exactly the statuses other than 401, 400, 403 and 500 get "Error <status>: …" with any truthy `detail` as a template shows it (an array joined with commas), else "Error de autenticación" |
| Login.Fallar | Front-End-_Inventory_Management_Django/src/components/Login.jsx:224-260 | a failed login removes exactly access, refresh, user and rol, keeps username and user_id, and shows the chosen message |
| Login.MensajesDistintos | Front-End-_Inventory_Management_Django/src/components/Login.jsx:234-246 | statuses 401, 400, 403 and 500 get four different messages that depend on nothing but the status |
| Login.TimeoutInterceptado | Front-End-_Inventory_Management_Django/src/components/Login.jsx:231-253 | a timeout that passed through the error interceptor shows the interceptor's detail, never the screen's own timeout message |
| Api.Valor | Front-End-_Inventory_Management_Django/src/components/Register.jsx:105-126 | a body field is found iff some field of the body carries that name, and the value found is that of the first such field |
| Api.ConToken | Front-End-_Inventory_Management_Django/src/services/api.js:18-22 | the headers get "Bearer " + token under Authorization iff a token is stored, and are otherwise unchanged |
| Api.Peticion.AdjuntarToken | Front-End-_Inventory_Management_Django/src/services/api.js:17-25 | the request interceptor leaves the headers that ConToken gives for the stored access token |
| Api.SoloDetalle | Front-End-_Inventory_Management_Django/src/services/api.js:52-57 | the synthetic response has no status and carries the given detail |
| Api.TimeoutGana | Front-End-_Inventory_Management_Django/src/services/api.js:50-58 | a timeout always ends with the timeout detail, whether or not a message or an earlier response is present |
| Api.SinRespuestaConMensaje | Front-End-_Inventory_Management_Django/src/services/api.js:55-58 | any other error without a response but with a message gets the detail "Error de conexión: " + message |
| Api.RespuestaIntacta | Front-End-_Inventory_Management_Django/src/services/api.js:49-61 | an error that already carries a response, and is not a timeout, keeps it unchanged |
| Api.SinRespuestaSii | Front-End-_Inventory_Management_Django/src/services/api.js:49-61 | an error is left without a response iff it had none, is not a timeout and has an empty message |
| Api.ErrorHttp.Normalizar | Front-End-_Inventory_Management_Django/src/services/api.js:38-61 | the error interceptor changes only the error's response, to the normalised one |
| RegistrarVenta.IndiceDe | Front-End-_Inventory_Management_Django/src/components/RegistrarVenta.jsx:111-113 | -1 iff no line is for the product; otherwise the first line that is |
| RegistrarVenta.ConCantidad | Front-End-_Inventory_Management_Django/src/components/RegistrarVenta.jsx:150-158 | line i gets the new quantity and subtotal = quantity × its unit price; no other line changes |
| RegistrarVenta.SinLinea | Front-End-_Inventory_Management_Django/src/components/RegistrarVenta.jsx:173-175 | exactly line i is removed and the others keep their order |
| RegistrarVenta.ProductoDe | Front-End-_Inventory_Management_Django/src/components/RegistrarVenta.jsx:141-201 | a listed product with that id, or none iff no product has it |
| RegistrarVenta.Venta.constructor | Front-End-_Inventory_Management_Django/src/components/RegistrarVenta.jsx:20-24 | an empty cart with no client and total 0, which satisfies the cart invariant |
| RegistrarVenta.Venta.SeleccionarCliente | Front-End-_Inventory_Management_Django/src/components/RegistrarVenta.jsx:366-372 | choosing a client changes only the selected client |
| RegistrarVenta.Venta.EliminarProducto | Front-End-_Inventory_Management_Django/src/components/RegistrarVenta.jsx:172-179 | exactly line i goes, the rest keep their order, the total drops by its subtotal, and total = Σ subtotals still holds; for any product list, a cart whose lines were all listed and within stock still is |
| RegistrarVenta.Venta.ActualizarCantidad | Front-End-_Inventory_Management_Django/src/components/RegistrarVenta.jsx:134-162 | below 1 the line is removed; above a listed product's stock nothing changes; otherwise only that line changes, with subtotal = quantity × unit price, and the total moves by the change of subtotal; the invariant is kept, and so is "every line names a listed product and holds no more than its stock" (`Vendibles`) |
| RegistrarVenta.Venta.IncrementarCantidad | Front-End-_Inventory_Management_Django/src/components/RegistrarVenta.jsx:164-166 | one more unit on line i unless that exceeds the stock; lines stay listed and within stock |
| RegistrarVenta.Venta.DecrementarCantidad | Front-End-_Inventory_Management_Django/src/components/RegistrarVenta.jsx:168-170 | one unit fewer on line i, and a line of one unit is removed; lines stay listed and within stock |
| RegistrarVenta.Venta.AgregarProducto | Front-End-_Inventory_Management_Django/src/components/RegistrarVenta.jsx:105-132 | a product without stock changes nothing; a product already in the cart gets one more unit on its line; any other is appended as one unit at its price, raising the total by the price; lines stay one per product and the item count rises by one; when the product is the one the list holds under its id, lines stay listed and within stock |
| RegistrarVenta.Venta.AnadirLinea | Front-End-_Inventory_Management_Django/src/components/RegistrarVenta.jsx:117-130 | a product not yet in the cart is appended as one unit at its price, the total rises by the price, the item count by one, and the cart invariant and the stock property are kept |
| RegistrarVenta.VendiblesSnoc | Front-End-_Inventory_Management_Django/src/components/RegistrarVenta.jsx:105-130 | a listed product with stock, appended as one unit, keeps every line listed and within stock |
| RegistrarVenta.Venta.ValidarVenta | Front-End-_Inventory_Management_Django/src/components/RegistrarVenta.jsx:181-215 | passes iff a client is chosen, the cart is not empty, an employee id is known, and every line names a listed product with enough stock; the client check comes first and the empty-cart check second; for a cart whose lines are listed and within stock, it passes iff the client, the lines and the employee are there |
| RegistrarVenta.ItemsAlMenosLineas | Front-End-_Inventory_Management_Django/src/components/RegistrarVenta.jsx:284-287 | every line holds at least one unit, so the item count is at least the number of lines |
| RegistrarVenta.AgregarDosVeces | Front-End-_Inventory_Management_Django/src/components/RegistrarVenta.jsx:111-128 | adding a product twice gives one line of two units |
| RegistrarVenta.ProductosFiltrados | Front-End-_Inventory_Management_Django/src/components/RegistrarVenta.jsx:99-103 | an empty term keeps every product; otherwise the products whose name contains the term case-insensitively, in order |
| ConsultarProducto.CalcularEstadisticas | Front-End-_Inventory_Management_Django/src/components/ConsultarProducto.jsx:45-52 | the total is the list length and no class count exceeds it |
| ConsultarProducto.ClasesDisjuntas | Front-End-_Inventory_Management_Django/src/components/ConsultarProducto.jsx:47-49 | no product is in two of the low, none and available classes |
| ConsultarProducto.ClasesSumanTotal | Front-End-_Inventory_Management_Django/src/components/ConsultarProducto.jsx:46-49 | with every stock present and non-negative, the three class counts add up to the total |
| ConsultarProducto.StockAusenteSinClase | Front-End-_Inventory_Management_Django/src/components/ConsultarProducto.jsx:46-49 | a product without a stock value is counted in the total but in no class |
| ConsultarProducto.Minusculas | Front-End-_Inventory_Management_Django/src/components/ConsultarProducto.jsx:73-74 | a missing name becomes "", a present one its lower case |
| ConsultarProducto.ProductosFiltrados | Front-End-_Inventory_Management_Django/src/components/ConsultarProducto.jsx:72-95 | an order-preserving sub-list holding exactly the products that pass the search, category and stock filters together |
| ConsultarProducto.BusquedaVacia | Front-End-_Inventory_Management_Django/src/components/ConsultarProducto.jsx:73-80 | an empty search term matches every product |
| ConsultarProducto.BusquedaSinMayusculas | Front-End-_Inventory_Management_Django/src/components/ConsultarProducto.jsx:75 | the search gives the same answer for a term and its lower case |
| ConsultarProducto.SinFiltrosTodos | Front-End-_Inventory_Management_Django/src/components/ConsultarProducto.jsx:81-92 | with all three filters empty every product is shown, in order |
| ConsultarProducto.FiltroStockSegunClases | Front-End-_Inventory_Management_Django/src/components/ConsultarProducto.jsx:84-92 | "bajo" and "disponible" select exactly the low and available classes; "sin" selects the none class and also products with no stock value |
| ConsultarProducto.NombresCategoria | Front-End-_Inventory_Management_Django/src/components/ConsultarProducto.jsx:98 | the names kept are exactly the non-empty category names of the products |
| ConsultarProducto.CategoriasUnicas | Front-End-_Inventory_Management_Django/src/components/ConsultarProducto.jsx:97-99 | duplicate-free, and holding exactly the non-empty category names of the products |
| ConsultarProducto.RutaVolver | Front-End-_Inventory_Management_Django/src/components/ConsultarProducto.jsx:102-105 | /admin iff the stored role is exactly "administrador", /empleado otherwise |
| ConsultarProducto.InsigniaSegunClase | Front-End-_Inventory_Management_Django/src/components/ConsultarProducto.jsx:47-49 | for a non-negative stock, the row badge and the statistics class agree, in both directions |
| Productos.CalcularEstadisticas | Front-End-_Inventory_Management_Django/src/components/Productos.jsx:54-61 | the total is the list length, neither count exceeds it, and the inventory value of an empty list is 0 |
| Productos.ValorTotalAgregar | Front-End-_Inventory_Management_Django/src/components/Productos.jsx:58 | appending a product adds price × stock to the inventory value |
| Productos.ValorTotalNoNegativo | Front-End-_Inventory_Management_Django/src/components/Productos.jsx:58 | with non-negative prices and stocks the inventory value is not negative |
| Productos.InsigniaYConteo | Front-End-_Inventory_Management_Django/src/components/Productos.jsx:56-242 | a row shows Sin Stock iff it is counted as out of stock; for a positive stock it shows Stock Bajo iff it is counted as low |
| Productos.StockAusenteInsignia | Front-End-_Inventory_Management_Django/src/components/Productos.jsx:56-238 | a product without a stock value shows Stock Bajo but is not counted as low |
| Productos.Editar | Front-End-_Inventory_Management_Django/src/components/Productos.jsx:247-256 | the edit button marks the product as edited, opens the modal, and copies name, price, stock and the nested category and supplier ids |
| Productos.Cancelar | Front-End-_Inventory_Management_Django/src/components/Productos.jsx:114-118 | cancelling empties every field, clears the edited product and closes the modal |
| Productos.TrasGuardar | Front-End-_Inventory_Management_Django/src/components/Productos.jsx:63-81 | a successful save empties the form, clears the edited product and closes the modal; a failed one changes nothing |
| Productos.CancelarIgualQueGuardar | Front-End-_Inventory_Management_Django/src/components/Productos.jsx:73-118 | cancelling an edit and saving it successfully leave the same empty screen |
| FormMovimiento.Campo | Front-End-_Inventory_Management_Django/src/components/GestionMovimiento.jsx:117-139 | a field the form does not hold reads as undefined, and one it holds reads as its value |
| FormMovimiento.CambiarCampo | Front-End-_Inventory_Management_Django/src/components/GestionMovimiento.jsx:101-111 | the edited field takes the new text, every field other than the two parties is kept, and choosing "entrada" empties the supplier while choosing "salida" empties the client, exactly as written |
| FormMovimiento.ParseEntero | Front-End-_Inventory_Management_Django/src/components/GestionMovimiento.jsx:134-138 | parsing never gives null, and a number copied from a record parses as itself |
| FormMovimiento.EnteroONulo | Front-End-_Inventory_Management_Django/src/components/GestionMovimiento.jsx:136-137 | an optional id is null iff its field is empty |
| FormMovimiento.TextoDecimal | Front-End-_Inventory_Management_Django/src/components/GestionMovimiento.jsx:134-135 | a typed decimal number reaches the body as that number |
| FormMovimiento.TerminoVacio | Front-End-_Inventory_Management_Django/src/components/GestionMovimiento.jsx:225-228 | an empty term matches a name iff the name is present |
| GestionMovimiento.ValorMovimiento | Front-End-_Inventory_Management_Django/src/components/GestionMovimiento.jsx:87-88 | a movement is worth its product's price × its quantity, or 0 when no listed product has its id |
| GestionMovimiento.CalcularEstadisticas | Front-End-_Inventory_Management_Django/src/components/GestionMovimiento.jsx:78-99 | the total is the list length and neither type count exceeds it |
| GestionMovimiento.EntradasMasSalidas | Front-End-_Inventory_Management_Django/src/components/GestionMovimiento.jsx:79-81 | entries plus exits equal the total when every movement is an entry or an exit |
| GestionMovimiento.ValorConcatenado | Front-End-_Inventory_Management_Django/src/components/GestionMovimiento.jsx:84-96 | the value of a type over two lists is the sum of the values over each, so each movement counts once |
| GestionMovimiento.ValorAgregar | Front-End-_Inventory_Management_Django/src/components/GestionMovimiento.jsx:84-96 | appending a movement adds its value to the total of its own type and nothing to the other |
| GestionMovimiento.Enviar | Front-End-_Inventory_Management_Django/src/components/GestionMovimiento.jsx:113-139 | refused as incomplete iff product, quantity or responsable is empty; an entry without supplier and an exit without client are refused; otherwise the body carries the type, null for an empty party, and for the quantity, product, responsable and each filled party the `parseInt` of its field (NaN for a non-numeric text) |
| GestionMovimiento.Editar | Front-End-_Inventory_Management_Django/src/components/GestionMovimiento.jsx:209-220 | the form takes the movement's type, product and quantity, and a party field is filled iff the movement names that party |
| GestionMovimiento.EditarYEnviar | Front-End-_Inventory_Management_Django/src/components/GestionMovimiento.jsx:132-220 | saving an edited movement unchanged sends back its own type, ids and quantity |
| GestionMovimiento.ClienteSobrevive | Front-End-_Inventory_Management_Django/src/components/GestionMovimiento.jsx:106-139 | switching a filled-in exit to "entrada" clears the supplier but keeps the client, so the exit's client reaches the entry's body |
| GestionMovimiento.MovimientosFiltrados | Front-End-_Inventory_Management_Django/src/components/GestionMovimiento.jsx:223-233 | an order-preserving sub-list holding exactly the movements of the chosen type whose present product, supplier, client or responsable name contains the term |
| GestionMovimiento.SinNombresOculto | Front-End-_Inventory_Management_Django/src/components/GestionMovimiento.jsx:224-228 | a movement with no name fields is never shown |
| GestionMovimiento.TerminoVacioMuestraConNombre | Front-End-_Inventory_Management_Django/src/components/GestionMovimiento.jsx:223-233 | with an empty term and no type filter, exactly the movements with some name are shown |
| Movimientos.CalcularEstadisticas | Front-End-_Inventory_Management_Django/src/components/Movimientos.jsx:76-82 | the total is the list length, and a type present in the list has a positive count |
| Movimientos.EntradasMasSalidas | Front-End-_Inventory_Management_Django/src/components/Movimientos.jsx:77-79 | entries plus exits equal the total when every movement is an entry or an exit |
| Movimientos.Validar | Front-End-_Inventory_Management_Django/src/components/Movimientos.jsx:100-114 | incomplete iff product or quantity is empty; an entry without supplier and an exit without client are refused; the responsable is not required |
| Movimientos.Responsable | Front-End-_Inventory_Management_Django/src/components/Movimientos.jsx:116-132 | null iff there is no user id, the employee list fails or no employee belongs to the user; otherwise the id of the first employee whose usuario is the user id |
| Movimientos.Enviar | Front-End-_Inventory_Management_Django/src/components/Movimientos.jsx:97-158 | refused iff the validation refuses or the stored user cannot be parsed (a stored text that is not an object), the validation error first; otherwise the body carries the type, the looked-up responsable, null for each empty party, and for the quantity, product and each filled party the `parseInt` of its field (NaN for a non-numeric text) |
| Movimientos.TrasEnviar | Front-End-_Inventory_Management_Django/src/components/Movimientos.jsx:143-153 | after a successful submit the form returns to its defaults with tipo "entrada"; otherwise it is kept |
| Movimientos.MovimientosFiltrados | Front-End-_Inventory_Management_Django/src/components/Movimientos.jsx:188-197 | an order-preserving sub-list holding exactly the movements of the chosen type whose present product, supplier or client name contains the term |
| Movimientos.ResponsableNoSeBusca | Front-End-_Inventory_Management_Django/src/components/Movimientos.jsx:189-192 | the responsable's name is not searched, so a movement with no other name is hidden |
| RegistrarSalida.Prellenar | Front-End-_Inventory_Management_Django/src/components/RegistrarSalida.jsx:24-30 | with a stored, decodable token the responsable becomes the token's user_id; otherwise the form is unchanged |
| RegistrarSalida.ProductosCargados | Front-End-_Inventory_Management_Django/src/components/RegistrarSalida.jsx:20-44 | the screen holds no product when a stored token cannot be decoded (the throw precedes the request) or the request fails, and otherwise the endpoint's answer |
| RegistrarSalida.ProductoSeleccionado | Front-End-_Inventory_Management_Django/src/components/RegistrarSalida.jsx:63 | the first listed product the selection names, or none iff no product matches it |
| RegistrarSalida.Enviar | Front-End-_Inventory_Management_Django/src/components/RegistrarSalida.jsx:54-78 | incomplete iff product, quantity or client is empty; with all three filled, refused with the stock figure exactly when the selected product's stock is below the quantity; otherwise the body has tipo "salida", parsed ids, no supplier, and null responsable iff it is empty. The source sends no `id_proveedor` key; the shared body type `FormMovimiento.Cuerpo` carries it as null |
| RegistrarSalida.DesconocidoSinControl | Front-End-_Inventory_Management_Django/src/components/RegistrarSalida.jsx:63-64 | a product id that names no listed product skips the stock check |
| RegistrarSalida.TokenIlegibleSinControl | Front-End-_Inventory_Management_Django/src/components/RegistrarSalida.jsx:20-78 | with a stored token that cannot be decoded the load throws before any product arrives, and a complete form is then never refused for stock |
| RegistrarSalida.DentroDelStock | Front-End-_Inventory_Management_Django/src/components/RegistrarSalida.jsx:63-78 | a quantity within the selected product's stock is accepted and sent as that number |
| RegistrarSalida.ResponsableDelToken | Front-End-_Inventory_Management_Django/src/components/RegistrarSalida.jsx:24-77 | with a token carrying a user id, the exit is sent with that id as responsable |
| Agrupacion.Grupo | Front-End-_Inventory_Management_Django/src/components/MisCompras.jsx:202-215 | a key's group is an order-preserving sub-list of the lines holding exactly the lines of that key |
| Agrupacion.ClavesEnOrden | Front-End-_Inventory_Management_Django/src/components/ClienteDashboard.jsx:48-67 | the keys are duplicate-free and are exactly the keys of the lines |
| Agrupacion.GrupoSnoc | Front-End-_Inventory_Management_Django/src/components/MisCompras.jsx:215 | appending a line extends its own group and no other |
| Agrupacion.ClavesSnoc | Front-End-_Inventory_Management_Django/src/components/ClienteDashboard.jsx:52-58 | a line with a new key adds that key after all existing ones; a seen key changes nothing |
| Agrupacion.SumaPorGrupos | Front-End-_Inventory_Management_Django/src/components/MisCompras.jsx:183-216 | over any duplicate-free key list covering the lines, the group sums add up to the sum over all lines |
| MisCompras.LineasDe | Front-End-_Inventory_Management_Django/src/components/MisCompras.jsx:61-79 | every loaded line is tagged with the id and date of one of the requested invoices |
| MisCompras.Estrategia1SoloPropias | Front-End-_Inventory_Management_Django/src/components/MisCompras.jsx:47-86 | strategy 1 shows only lines of invoices whose client is the signed-in user |
| MisCompras.Cargar | Front-End-_Inventory_Management_Django/src/components/MisCompras.jsx:34-126 | without a user id only the error text is set; otherwise strategy 1's lines when it found any, else the personal endpoint's lines (none when it fails), with the "no purchases" flag set iff no line is loaded |
| MisCompras.TotalGeneral | Front-End-_Inventory_Management_Django/src/components/MisCompras.jsx:182-184 | the overall total is 0 without lines and non-negative when no line has a negative subtotal |
| MisCompras.Promedio | Front-End-_Inventory_Management_Django/src/components/MisCompras.jsx:186-193 | 0 without lines; otherwise the overall total divided by the number of distinct invoice keys |
| MisCompras.Cociente | Front-End-_Inventory_Management_Django/src/components/MisCompras.jsx:191 | the quotient times the divisor is the dividend |
| MisCompras.MaxFecha | Front-End-_Inventory_Management_Django/src/components/MisCompras.jsx:197-198 | the latest date of the lines: no line is later and some line has it |
| MisCompras.UltimaCompra | Front-End-_Inventory_Management_Django/src/components/MisCompras.jsx:195-199 | null iff there are no lines; an invalid date iff some line has no date; otherwise the maximum date of the lines |
| MisCompras.CompraDe | Front-End-_Inventory_Management_Django/src/components/MisCompras.jsx:202-219 | the card of a key carries that key and holds exactly the lines of that key |
| MisCompras.AnadirLineas | Front-End-_Inventory_Management_Django/src/components/MisCompras.jsx:215-217 | adding a line to a card keeps its date and adds the line's subtotal and units (cantidad, 1 when missing or 0) |
| MisCompras.PasoNueva | Front-End-_Inventory_Management_Django/src/components/MisCompras.jsx:204-217 | a line with a new key opens a card with that line's date and then adds the line |
| MisCompras.PasoExistente | Front-End-_Inventory_Management_Django/src/components/MisCompras.jsx:215-217 | a line with a seen key is added to the end of that key's card |
| MisCompras.PasoOtra | Front-End-_Inventory_Management_Django/src/components/MisCompras.jsx:202-219 | a line leaves every card of another key unchanged |
| MisCompras.Reducir | Front-End-_Inventory_Management_Django/src/components/MisCompras.jsx:202-219 | the reduce as a left fold over the lines; its keys and cards are stated by MisCompras.ReducirClaves and MisCompras.ReducirCorrecto |
| MisCompras.ReducirClaves | Front-End-_Inventory_Management_Django/src/components/MisCompras.jsx:202-219 | the accumulator has a card for exactly the keys seen |
| MisCompras.ReducirCorrecto | Front-End-_Inventory_Management_Django/src/components/MisCompras.jsx:202-219 | the card the reduce builds for each key is the card of that key's lines |
| MisCompras.AgruparDetalles | Front-End-_Inventory_Management_Django/src/components/MisCompras.jsx:202-219 | the loop over the lines ends with the accumulator the reduce defines and the keys in creation order |
| MisCompras.Visitar | Front-End-_Inventory_Management_Django/src/components/MisCompras.jsx:203-218 | one callback call opens the card on a new key (recording the key) and adds the line |
| MisCompras.OrdenPropiedades | Front-End-_Inventory_Management_Django/src/components/MisCompras.jsx:222 | Object.values lists the same keys as the accumulator holds |
| MisCompras.Agrupar | Front-End-_Inventory_Management_Django/src/components/MisCompras.jsx:202-224 | the sorted cards are the sort of the cards of the keys, in Object.values order, by date, newest first |
| MisCompras.Compras | Front-End-_Inventory_Management_Django/src/components/MisCompras.jsx:202-222 | each card listed is the card of its own key, whose key some line carries, and the card of every line's key is listed |
| MisCompras.FacturasOrdenadas | Front-End-_Inventory_Management_Django/src/components/MisCompras.jsx:222-224 | the sorted cards are a permutation of the cards and are ordered newest first; where the screen's comparator is undefined (an undated card) the model's total order puts undated cards last |
| MisCompras.CartasDelAcumulador | Front-End-_Inventory_Management_Django/src/components/MisCompras.jsx:222 | each key Object.values lists has the card of its lines in the accumulator |
| MisCompras.MasRecienteOrden | Front-End-_Inventory_Management_Django/src/components/MisCompras.jsx:223 | the newest-first comparison is a total preorder |
| MisCompras.OrdenadasPorFecha | Front-End-_Inventory_Management_Django/src/components/MisCompras.jsx:222-224 | a dated card never follows an older one; in the model's total order it also never follows an undated one, where the screen's comparator gives `NaN` |
| MisCompras.ComprasDistintas | Front-End-_Inventory_Management_Django/src/components/MisCompras.jsx:202-222 | the card keys are duplicate-free and are exactly the keys of the lines |
| MisCompras.ComprasSinRepetidos | Front-End-_Inventory_Management_Django/src/components/MisCompras.jsx:222 | no card is listed twice |
| MisCompras.CartasDeCompras | Front-End-_Inventory_Management_Django/src/components/MisCompras.jsx:202-224 | a card is shown iff its key occurs among the lines and it is the card of that key's lines |
| MisCompras.UnaCompraPorLinea | Front-End-_Inventory_Management_Django/src/components/MisCompras.jsx:202-224 | every line lands in exactly one card, the card of its key, and no two cards share a key |
| MisCompras.TotalesPorClave | Front-End-_Inventory_Management_Django/src/components/MisCompras.jsx:216 | the card totals over a key list are the group subtotal sums over it |
| MisCompras.SumaDeTotales | Front-End-_Inventory_Management_Django/src/components/MisCompras.jsx:182-216 | the card totals add up to the overall total |
| MisCompras.NumeroDeCompras | Front-End-_Inventory_Management_Django/src/components/MisCompras.jsx:187-222 | the number of cards is the number of distinct invoice keys the average divides by |
| MisCompras.PromedioPorTarjeta | Front-End-_Inventory_Management_Django/src/components/MisCompras.jsx:186-222 | with lines present, the average is the mean of the totals on the cards shown |
| ClienteDashboard.FacturaDe | Front-End-_Inventory_Management_Django/src/components/ClienteDashboard.jsx:50-64 | the card of an invoice id carries that id and holds exactly the lines naming it |
| ClienteDashboard.ConFacturaSnoc | Front-End-_Inventory_Management_Django/src/components/ClienteDashboard.jsx:51 | a new line joins the grouped lines iff it names an invoice |
| ClienteDashboard.PasoClaves | Front-End-_Inventory_Management_Django/src/components/ClienteDashboard.jsx:52-58 | a line naming a new invoice appends its id to the map's insertion order; any other line leaves the order alone |
| ClienteDashboard.PasoPropia | Front-End-_Inventory_Management_Django/src/components/ClienteDashboard.jsx:52-63 | a line opens a card with its date when its id is new, and is then added to the end of its card with its subtotal |
| ClienteDashboard.PasoOtra | Front-End-_Inventory_Management_Django/src/components/ClienteDashboard.jsx:50-65 | a line leaves every other card unchanged |
| ClienteDashboard.Plegar | Front-End-_Inventory_Management_Django/src/components/ClienteDashboard.jsx:48-65 | the forEach as a left fold over the lines; its keys and cards are stated by ClienteDashboard.PlegarClaves and ClienteDashboard.PlegarCorrecto |
| ClienteDashboard.PlegarClaves | Front-End-_Inventory_Management_Django/src/components/ClienteDashboard.jsx:48-65 | the map holds a card for exactly the invoice ids seen |
| ClienteDashboard.PlegarCorrecto | Front-End-_Inventory_Management_Django/src/components/ClienteDashboard.jsx:48-65 | the card the loop builds for an id is the card of that id's lines |
| ClienteDashboard.LlenarMapa | Front-End-_Inventory_Management_Django/src/components/ClienteDashboard.jsx:48-65 | the loop over the lines ends with the map the fold defines and the ids in insertion order |
| ClienteDashboard.Visitar | Front-End-_Inventory_Management_Django/src/components/ClienteDashboard.jsx:51-63 | one turn opens the card on a new id (recording it) and adds the line; a line without an invoice changes nothing |
| ClienteDashboard.AgruparFacturas | Front-End-_Inventory_Management_Django/src/components/ClienteDashboard.jsx:48-67 | the cards are one per invoice id, in order of first occurrence, each holding that id's lines |
| ClienteDashboard.UnaFacturaPorLinea | Front-End-_Inventory_Management_Django/src/components/ClienteDashboard.jsx:50-65 | a line without an invoice id is in no card; every other line is in exactly the card of its id, which exists |
| ClienteDashboard.FacturasDistintas | Front-End-_Inventory_Management_Django/src/components/ClienteDashboard.jsx:48-67 | no two cards share an invoice id |
| ClienteDashboard.TotalesPorClave | Front-End-_Inventory_Management_Django/src/components/ClienteDashboard.jsx:61-67 | the card totals over an id list are the group subtotal sums over it |
| ClienteDashboard.TotalGastado | Front-End-_Inventory_Management_Django/src/components/ClienteDashboard.jsx:148 | the amount spent is 0 without cards and non-negative when no card total is negative |
| ClienteDashboard.TotalGastadoPrimario | Front-End-_Inventory_Management_Django/src/components/ClienteDashboard.jsx:148-150 | on the primary path the amount spent is the sum of the subtotals of the lines that name an invoice |
| ClienteDashboard.TotalProductos | Front-End-_Inventory_Management_Django/src/components/ClienteDashboard.jsx:149 | the units bought are 0 without lines and non-negative when no line has a negative quantity |
| ClienteDashboard.FacturaConDetalles | Front-End-_Inventory_Management_Django/src/components/ClienteDashboard.jsx:108-118 | a fallback card keeps its invoice's id and date and holds exactly the loaded lines whose id_factura is that id |
| ClienteDashboard.Aplanar | Front-End-_Inventory_Management_Django/src/components/ClienteDashboard.jsx:90-104 | a line is among the flattened lines iff the request of one of the given invoices returned it; a failed request contributes none |
| ClienteDashboard.FacturasAlternativas | Front-End-_Inventory_Management_Django/src/components/ClienteDashboard.jsx:83-118 | one card per invoice of the signed-in client, in order, each built from the lines loaded for those invoices |
| ClienteDashboard.AlternativaSoloPropias | Front-End-_Inventory_Management_Django/src/components/ClienteDashboard.jsx:83-85 | the fallback path shows only invoices whose client is the signed-in user |
| ClienteDashboard.ManejarError | Front-End-_Inventory_Management_Django/src/components/ClienteDashboard.jsx:128-138 | a 401 goes to the login and a 403 gets the permissions message; every other error gets the general message |
| ClienteDashboard.Cargar | Front-End-_Inventory_Management_Django/src/components/ClienteDashboard.jsx:16-126 | without a user id only the general error is shown; the personal endpoint's lines are grouped when it answers; otherwise the fallback cards together with the flattened lines of the client's own invoices (which feed the units figure), or nothing when that fails too |
| ClienteDashboard.CargaNuncaVaALogin | Front-End-_Inventory_Management_Django/src/components/ClienteDashboard.jsx:24-138 | the only error the load can end with is the general message, so it never clears the session |
| ClienteDashboard.Visibles | Front-End-_Inventory_Management_Django/src/components/ClienteDashboard.jsx:304 | at most the first five cards are listed, and all of them when there are at most five |
| ClienteDashboard.VerTodas | Front-End-_Inventory_Management_Django/src/components/ClienteDashboard.jsx:318 | the "see all" test, more than five cards; ClienteDashboard.EnlaceSiOcultas states it holds exactly when a card is hidden |
| ClienteDashboard.EnlaceSiOcultas | Front-End-_Inventory_Management_Django/src/components/ClienteDashboard.jsx:304-318 | the "see all" link appears iff some card is not listed |
| MisVentas.EmpleadoActual | Front-End-_Inventory_Management_Django/src/components/MisVentas.jsx:24-34 | without a token no employee is sought; with one, a token that cannot be read or a failed employee list fails the load; the load fails only in those cases; otherwise the id of the first listed employee whose user is the token's, or none when no employee matches |
| MisVentas.VentasDelEmpleado | Front-End-_Inventory_Management_Django/src/components/MisVentas.jsx:38-44 | a found employee id keeps exactly that employee's sales, in order; without one every sale is kept |
| MisVentas.Cargar | Front-End-_Inventory_Management_Django/src/components/MisVentas.jsx:21-53 | the load succeeds iff the employee lookup and the sales request both do, and then holds the employee's sales |
| MisVentas.VentasFiltradas | Front-End-_Inventory_Management_Django/src/components/MisVentas.jsx:60-70 | the listed sales are, in order, exactly those matching both the search (client name without regard to case, or id) and the date |
| MisVentas.SinFiltrosTodas | Front-End-_Inventory_Management_Django/src/components/MisVentas.jsx:60-70 | an empty search and no date list every sale |
| MisVentas.BuscarPorId | Front-End-_Inventory_Management_Django/src/components/MisVentas.jsx:65 | searching for a sale's own id always lists it |
| MisVentas.Ingresos | Front-End-_Inventory_Management_Django/src/components/MisVentas.jsx:254 | the income is 0 without sales and non-negative when no sale total is negative |
| MisVentas.IngresosFiltradosAcotados | Front-End-_Inventory_Management_Django/src/components/MisVentas.jsx:254 | the income of the filtered sales lies between zero and the income of all sales when no total is negative |
| MisVentas.ClientesUnicos | Front-End-_Inventory_Management_Django/src/components/MisVentas.jsx:264 | the number of distinct clients is at most the number of sales, and at least one when there is a sale |
| EmpleadoDashboard.Calcular | Front-End-_Inventory_Management_Django/src/components/EmpleadoDashboard.jsx:51-73 | the product count, the products with stock under 10, and the sales and movements dated today (the rest being the others) |
| EmpleadoDashboard.Cargar | Front-End-_Inventory_Management_Django/src/components/EmpleadoDashboard.jsx:25-87 | no token or a role other than "empleado" goes to the login; an unreadable token raises an alert; a 401 or 403 clears the storage and goes to the login; any other failure raises an alert; success shows the figures and the greeting |
| EmpleadoDashboard.SesionCerradaRedirige | Front-End-_Inventory_Management_Django/src/components/EmpleadoDashboard.jsx:34-95 | after a logout, or after a load refused with 401 or 403, the next visit goes to /login |
| AdminDashboard.RolConEspacios | Front-End-_Inventory_Management_Django/src/components/AdminDashboard.jsx:18-19 | white space around the stored role does not change whether the panel opens |
| AdminDashboard.Calcular | Front-End-_Inventory_Management_Django/src/components/AdminDashboard.jsx:49-56 | the three list lengths and the products with stock under 10, which are at most all products |
| AdminDashboard.Cargar | Front-End-_Inventory_Management_Django/src/components/AdminDashboard.jsx:16-62 | a role other than "administrador" goes to the login with zero figures; otherwise the screen stays, with the figures computed from the lists, or zeros when a request fails |
| AdminDashboard.TrasCerrarSesion | Front-End-_Inventory_Management_Django/src/components/AdminDashboard.jsx:17-70 | after a logout the panel sends the next visit to /login |
| Reporte.StockBajoEscrito | Front-End-_Inventory_Management_Django/src/components/Reporte.jsx:33 | the count of products flagged low_stock is at most the number of products |
| Reporte.StockBajoEscritoSiempreCero | Front-End-_Inventory_Management_Django/src/components/Reporte.jsx:33 | as written, the low-stock count is zero for every product list the backend sends |
| Reporte.StockBajo | Front-End-_Inventory_Management_Django/src/components/Reporte.jsx:33 | the corrected count is the products with stock under 10 |
| Reporte.StockBajoDiscrepa | Front-End-_Inventory_Management_Django/src/components/Reporte.jsx:33 | one product with 3 units: the written count is 0, the corrected count is 1 |
| Reporte.Calcular | Front-End-_Inventory_Management_Django/src/components/Reporte.jsx:32-40 | as written: the three list lengths, and as low-stock figure the number of products whose low_stock field is true |
| Reporte.CalcularSinStockBajo | Front-End-_Inventory_Management_Django/src/components/Reporte.jsx:33 | for every product list the serializer sends, the screen's low-stock figure is 0 |
| Reporte.CalcularCorregido | Front-End-_Inventory_Management_Django/src/components/Reporte.jsx:32-40 | the same figures with the corrected low-stock count: the products with stock under 10 |
| Reporte.Cargar | Front-End-_Inventory_Management_Django/src/components/Reporte.jsx:17-48 | a role other than exactly "administrador" goes to the login; a failed request raises an alert with zero figures; success shows the figures as written |
| Reporte.DescargaDe | Front-End-_Inventory_Management_Django/src/components/Reporte.jsx:55-73 | exactly productos, movimientos and ventas lead to a request, to /farmacia/productos/all_pdf/, /farmacia/movimientos/all_pdf/ and /farmacia/detallesventa/all_pdf/ saved as reporte_productos.pdf, reporte_movimientos.pdf and reporte_ventas.pdf; any other type requests nothing |
| Reporte.ArchivoPorTipo | Front-End-_Inventory_Management_Django/src/components/Reporte.jsx:58-70 | each report file is named reporte_ followed by its type and .pdf |
| Reporte.AvisoDescarga | Front-End-_Inventory_Management_Django/src/components/Reporte.jsx:87-90 | only the success alert opens with the check mark, and it names the report type; a failure shows the fixed error text |
| Register.Validar | Front-End-_Inventory_Management_Django/src/components/Register.jsx:40-50 | a password under eight characters is refused first; otherwise an email without '@' is refused; the form passes iff neither holds |
| Register.Cuerpo | Front-End-_Inventory_Management_Django/src/components/Register.jsx:56-64 | the posted body holds exactly the five form fields and an empty last name, and never a role |
| Register.Primero | Front-End-_Inventory_Management_Django/src/components/Register.jsx:116-125 | a text value is shown as it is; an array shows its first item |
| Api.EnPlantilla | Front-End-_Inventory_Management_Django/src/components/Register.jsx:121 | a text value is shown as it is; a one-item array shows that item |
| Register.PorCuerpo | Front-End-_Inventory_Management_Django/src/components/Register.jsx:105-126 | the first truthy field among username, email, telefono, password, rol picks the message, in that order; with none of them a truthy detail is shown through the template, and only without it the first value; the password message shows the field's first item |
| Register.MensajeError | Front-End-_Inventory_Management_Django/src/components/Register.jsx:102-137 | a response body decides the message; without one a timeout, a network error and any other error get their own message, the last naming the error text or "Error inesperado" |
| Register.Enviar | Front-End-_Inventory_Management_Django/src/components/Register.jsx:33-100 | a failed check posts nothing and shows its message; otherwise the body is posted: success clears the form and leads to /login, failure keeps the form and shows the error's message |
| Register.ContrasenaCortaNoEnvia | Front-End-_Inventory_Management_Django/src/components/Register.jsx:40-44 | a short password is refused before anything is posted, whatever the email |
| Register.SinRespuestaDistintos | Front-End-_Inventory_Management_Django/src/components/Register.jsx:128-136 | a timeout, a network error and any other error without a response get three different messages |
| Register.TimeoutInterceptado | Front-End-_Inventory_Management_Django/src/components/Register.jsx:105-121 | once the shared client has turned a timeout into a response with only a detail, the screen shows that detail instead of its own timeout message |
| PerfilCliente.O | Front-End-_Inventory_Management_Django/src/components/PerfilCliente.jsx:46-48 | `a \|\| b` gives a when it is a non-empty text and b otherwise |
| PerfilCliente.Campo | Front-End-_Inventory_Management_Django/src/components/PerfilCliente.jsx:58-62 | a field is present iff the stored object has that key |
| PerfilCliente.DesdeBackend | Front-End-_Inventory_Management_Django/src/components/PerfilCliente.jsx:44-51 | the name is the first name, else the username, else "No especificado"; email and phone fall back to "No especificado"; id, username and registration date are copied |
| PerfilCliente.DesdeAlmacen | Front-End-_Inventory_Management_Django/src/components/PerfilCliente.jsx:57-64 | the fallback profile applies the same rules to the stored user, with the registration date "No disponible" |
| PerfilCliente.Cargado | Front-End-_Inventory_Management_Django/src/components/PerfilCliente.jsx:23-82 | the load fails with the profile message iff the stored user has no id; otherwise the backend's record, or the stored user when the backend fails |
| PerfilCliente.CuerpoDe | Front-End-_Inventory_Management_Django/src/components/PerfilCliente.jsx:107-111 | the update body holds exactly first_name, email and telefono, taken from the form |
| PerfilCliente.ConForm | Front-End-_Inventory_Management_Django/src/components/PerfilCliente.jsx:126 | the saved profile shows the form's three fields and keeps its id, username and registration date |
| PerfilCliente.Fusionado | Front-End-_Inventory_Management_Django/src/components/PerfilCliente.jsx:85-97 | the stored user gains the new fields over its old ones and keeps every other key; nothing else in the storage changes, and an unreadable user leaves the storage alone |
| PerfilCliente.Pantalla.constructor | Front-End-_Inventory_Management_Django/src/components/PerfilCliente.jsx:8-16 | the screen starts with the given storage, no profile, an empty form, editing off and no messages |
| PerfilCliente.Pantalla.CargarPerfil | Front-End-_Inventory_Management_Django/src/components/PerfilCliente.jsx:23-82 | a successful load sets the profile and fills the form from it; a failed one sets only the error |
| PerfilCliente.Pantalla.ActualizarAlmacen | Front-End-_Inventory_Management_Django/src/components/PerfilCliente.jsx:85-97 | the storage becomes the merged storage and nothing else changes |
| PerfilCliente.Pantalla.GuardarCambios | Front-End-_Inventory_Management_Django/src/components/PerfilCliente.jsx:100-139 | an unreadable stored user fails before any request; otherwise the form is sent to the user's path; a failed update shows the connection message and changes nothing else; a successful one merges the storage, updates the profile, ends editing and shows the success message |
| PerfilCliente.Pantalla.CancelarEdicion | Front-End-_Inventory_Management_Django/src/components/PerfilCliente.jsx:153-162 | the form returns to the profile's values, editing ends and both messages are cleared |
| PerfilCliente.Pantalla.CerrarSesion | Front-End-_Inventory_Management_Django/src/components/PerfilCliente.jsx:142-150 | the storage is emptied and the screen goes to /login |
| PerfilCliente.CancelarTrasGuardar | Front-End-_Inventory_Management_Django/src/components/PerfilCliente.jsx:126-158 | cancelling right after a save leaves the form as it was saved |
| PerfilCliente.RecargaTrasGuardar | Front-End-_Inventory_Management_Django/src/components/PerfilCliente.jsx:57-111 | reloading from the storage after a save shows the saved name, email and phone (or their fallbacks when empty) and the same id |
| PerfilCliente.TrasLoginSinServidor | Front-End-_Inventory_Management_Django/src/components/PerfilCliente.jsx:25-64 | right after a login, without the backend, the profile shows the username (or the fallback) and "No disponible" |
| Usuarios.DeCliente | Front-End-_Inventory_Management_Django/src/components/Usuarios.jsx:41 | a client row keeps the client's id and carries its email |
| Usuarios.DeEmpleado | Front-End-_Inventory_Management_Django/src/components/Usuarios.jsx:42 | an employee row keeps the employee's id and has no email field |
| Usuarios.EtiquetaDe | Front-End-_Inventory_Management_Django/src/components/Usuarios.jsx:168-172 | the badge says client iff the row's email is truthy |
| Usuarios.RutaBorrar | Front-End-_Inventory_Management_Django/src/components/Usuarios.jsx:189-193 | the delete goes to the clients' collection for a row badged client and to the employees' otherwise, under the row's id |
| Usuarios.Lista | Front-End-_Inventory_Management_Django/src/components/Usuarios.jsx:43-144 | the "all" tab shows the clients followed by the employees; the other tabs show one list each |
| Usuarios.EtiquetasCorrectas | Front-End-_Inventory_Management_Django/src/components/Usuarios.jsx:43-172 | when no client email is empty, the rows badged client are exactly the clients and the others are exactly the employees, in order |
| Usuarios.FilasDeClientes | Front-End-_Inventory_Management_Django/src/components/Usuarios.jsx:168-172 | every client row is badged client when the emails are not empty |
| Usuarios.FilasDeEmpleados | Front-End-_Inventory_Management_Django/src/components/Usuarios.jsx:168-172 | no employee row is badged client |
| Usuarios.Cargar | Front-End-_Inventory_Management_Django/src/components/Usuarios.jsx:34-47 | a failed load changes nothing; a successful one stores both lists and shows them together |
| Usuarios.Elegir | Front-End-_Inventory_Management_Django/src/components/Usuarios.jsx:126-144 | a tab shows its list from the last load and changes nothing else |
| Usuarios.RutaCrear | Front-End-_Inventory_Management_Django/src/components/Usuarios.jsx:52-57 | a create posts to the clients' collection iff the type is "cliente" |
| Usuarios.Enviar | Front-End-_Inventory_Management_Django/src/components/Usuarios.jsx:50-71 | the create posts to the type's collection; failure changes nothing; success closes the modal, clears the form and reloads |
| Usuarios.TodosSuma | Front-End-_Inventory_Management_Django/src/components/Usuarios.jsx:43-126 | after a reload the full list is as long as both lists together, and the "all" tab shows that same list |
| Orden.Ordenar | Front-End-_Inventory_Management_Django/src/components/MisCompras.jsx:222-224 | the sorted list is a permutation of the input |
| Orden.OrdenarOrdenada | Front-End-_Inventory_Management_Django/src/components/MisCompras.jsx:222-224 | under a total, transitive comparison the sorted list is ordered |
| Orden.OrdenarSinRepetidos | Front-End-_Inventory_Management_Django/src/components/MisCompras.jsx:222-224 | sorting a list without repeats leaves none |
| Orden.SumOrdenar | Front-End-_Inventory_Management_Django/src/components/MisCompras.jsx:222-224 | sorting does not change a sum over the elements |

## Left out

- Network calls (`api.get`/`post`/`patch`/`delete`, `fetch`, `Promise.all`): their outcomes are parameters (`Option`/`Result` values, or a success flag). Their effects are returned values.
- `alert`, `window.confirm` (in `Usuarios.jsx`, `Productos.jsx` and `GestionMovimiento.jsx`), `navigate`, `setTimeout` delays and DOM changes:
  - an alert is the flag or message a function returns;
  - a navigation is the route it returns;
  - a confirmation is taken as given;
  - the delays before a redirect or before a message clears are not modelled.
- `localStorage` persistence is the map `Sesion.Almacen`:
  - `JSON.stringify`/`JSON.parse` of the stored user is the `Objeto` variant;
  - a stored user kept as a non-empty text is taken as text that does not parse; JSON texts that parse but are not objects (a number, a quoted string) are not distinguished;
  - `PerfilCliente.ErrorLectura` stands for the parser's exception message.
- JWT decoding (`atob`, `JSON.parse`) is an optional decoded payload; `None` is a decoding failure.
- The clock (`Date.now()`, `new Date().toISOString()`) is an integer parameter.
- Text.ParseInt and FormMovimiento.ParseEntero: accept only an optional minus sign followed by decimal digits, and give `NaN` for anything else. JavaScript's `parseInt` also skips leading white space, accepts a plus sign and stops at the first non-digit ("1e3" is 1, " 7" is 7, "+5" is 5). The model does not capture these prefix parses, nor their effect on the checks that use them (for example the stock check of `RegistrarSalida.Enviar`).
- Rutas.Clasificar: matching lower-cases ASCII letters only and removes trailing slashes. Percent-decoding of the path and React Router's ranking of routes in general are not modelled; the table's paths are all static, so the first declaration of a path decides.
- Floating-point parsing and formatting (`parseFloat`, `Number`, `toFixed`, `toLocaleDateString`) are left out. Prices and totals are integer cents.
- MisCompras.Promedio: stated as the exact rational quotient (`Cociente`), not as a rounded floating-point value.
- Strings are sequences of characters:
  - lower-casing and trimming act on ASCII letters and ASCII white space only;
  - `length` counts characters, not UTF-16 code units.
- `Object.values` order (`MisCompras.OrdenPropiedades`) is modelled for the key types the screen can build: array-index integer keys, then the other keys in insertion order.
- MisCompras.OrdenadasPorFecha: the screen's comparator (`MisCompras.jsx:223`) subtracts two dates, and a card without a valid date makes it `NaN`. The engine then treats the pair as equal, and the comparator is no longer a consistent order, so the engine's result is not determined. The model sorts with a total order that puts undated cards after every dated one. When every card has a date, it gives the order of a stable sort by the source's comparator.
- MisCompras.FacturasOrdenadas: the same holds; its order is the model's total order, not the engine's order for undated cards.
- ConsultarProducto.CategoriasUnicas: states that the names are duplicate-free and exactly the non-empty category names, but not that they keep the order of first occurrence (which `Seqs.Dedup` builds).
- Serializer shapes are assumed, not modelled:
  - the screens receive nested client, product and employee records where `FacturaVentaSerializer` sends primary keys;
  - `Registros` holds the shapes the screens read.
- UI-only state is not modelled: loading/refreshing/saving flags, modal visibility beyond `Usuarios`, JSX markup and CSS.
- Per-keystroke handlers are not modelled:
  - `Register.jsx`'s `handleChange` (a plain spread) and the clearing of messages;
  - `RegistrarSalida.jsx`'s `handleChange` (a plain spread).
- `PerfilCliente.jsx`'s `setEditMode(true)` (an edit button) and its logout confirmation modal are not modelled.
- RegistrarSalida.Enviar: the posted body carries `id_proveedor` as null, while `RegistrarSalida.jsx:72-78` leaves the key out, because the shared body type has no absent field.
- Login.MensajeError and Register.PorCuerpo: a body value is a string or an array of strings (`Api.Dato`). A `detail` that is an object or a number, which a template renders as "[object Object]" or as the number, is not represented.
- `Login.jsx`'s `quickLogin` (262-270) is left out: it fills the form and dispatches a synthetic DOM event.
- Senales.ReguardarDetalleRechazado: stated for the intended handlers, whose creation takes the line's quantity out of stock. As written, creation raises before any stock changes (see Findings), so a re-save is validated against the untouched stock and then raises on `subtotal` (`Senales.Farmacia.ActualizarDetalleEscrito`).
- `signals.py`'s `validar_factura` (106-113) is left out: it reads the employee's account `is_active` flag from the user app, which is not part of this model.
- `signals.py`'s `actualizar_total_factura_eliminada` (98-103) has an empty body, so there is nothing to model.
- The PDF downloads are left out: `Reporte.jsx`'s blob handling and `MisVentas.jsx`'s placeholder `descargarPDF`. `Reporte.DescargaDe` models only the choice of endpoint and file name.
- `pdf.py` (ReportLab rendering) and `middleware/metrics.py` (timing and logging) are left out.
- `serializers.py`, `admin.py` and the `urls.py` files are framework configuration and are not modelled.
- The `usuario` app and `App.jsx` are not part of this model. `App.jsx` is an unused older route table; `main.jsx` is the live one.
- The user is assumed to have at most one role, possibly none (`apps/usuario/models.py:20`). `Permisos` takes that role as an `Option`.

## Findings

| source | as written | input that shows it | evidently intended | confidence | as-written member | corrected member |
|---|---|---|---|---|---|---|
| Inventario-Django/farmacia/apps/task/signals.py:26-37 | `calcular_subtotal_detalle` calls `save(update_fields=['precio_unitario', 'subtotal'])`, and `actualizar_total_factura` sums `detalle.subtotal` and saves `update_fields=["total"]`, but `DetalleVenta` declares no `subtotal` and `FacturaVenta` no `total` (`models.py:47-61`): the first raises `ValueError` right after the INSERT, so the total and stock handlers never run, and a re-save raises `AttributeError` | a product with stock 5 and price 100, and a new line of 2 units: the save raises, the stock stays 5 and no total is set | the line gets the product's price and its subtotal, the invoice total is the sum of its lines, and the stock drops to 3 | high, not executed | Senales.Farmacia.CrearDetalleEscrito and Senales.Farmacia.ActualizarDetalleEscrito (with Senales.DiscrepanciaDetalle) | Senales.Farmacia.CrearDetalle and Senales.Farmacia.ActualizarDetalle (with Senales.SumaSubtotalesSnoc and Senales.ReguardarDetalleRechazado) |
| Front-End-_Inventory_Management_Django/src/components/Reporte.jsx:33 | the low-stock figure counts products whose `low_stock` field is truthy, but `ProductoSerializer` (`serializers.py:18-21`) sends only the model's own fields and `Producto` has no `low_stock`, so the figure is always 0 | one product with stock 3: the report shows 0 products with low stock | count products with stock under 10, as `EmpleadoDashboard.jsx:66` and `AdminDashboard.jsx:49` do | medium, not executed | Reporte.StockBajoEscrito (with Reporte.StockBajoEscritoSiempreCero and Reporte.StockBajoDiscrepa) | Reporte.CalcularCorregido (with Reporte.StockBajo) |
