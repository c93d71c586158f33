# Clínica: a verified model of the clinic's patient and user management

The clinic application has two halves. A Spring backend (`clinica`) stores patients in MongoDB and users in PostgreSQL. It authenticates with JSON Web Tokens and authorises by role. An Angular frontend (`clinica-frontend`) holds the session and the login screen, the dashboard, the patient form and lists, and the user administration screens.

This Dafny project models the logic of both halves once persistence, mail, cryptography and the browser are abstracted. It proves the properties each piece promises. The model has one module per source file, plus a few shared modules:

- `Wrappers`: Option and Result.
- `Texto`: ASCII case mapping, trimming, splitting and joining, substring search, decimal digits.
- `Listas`: `filter` and the order-preserving-subsequence relation.
- `Busqueda`: the case-insensitive field search of the list screens.
- `Validadores`: Angular's `required`, `minLength` and `email` validators.
- `Http`: requests, error responses and JavaScript truthiness.

How the source maps to Dafny:

- **Stores.** The repositories are `map` fields of service classes (`PacienteServicio.Servicio`, `UsuarioServicio.Servicio`). Their methods state the whole new store.
- **Pure logic.** The patient merge, the JWT claims, the security rule table, the filters and the messages are functions. Lemmas relate them: the merge is idempotent; the QR URL and the bearer header round-trip; the rule table gives each role exactly its access; the dashboard and the forms agree with the backend's rules.
- **Components.** Each Angular component is a class whose fields are the component's fields. An HTTP response is a separate callback method that takes the response as its argument. Browser dialogs are parameters. Navigations, alerts and sent requests are recorded as sequences.
- **Opaque inputs.** The password encoder takes the salt as an argument and only promises a non-empty hash. Token signing and signature checking are a `decode` parameter; the expiry check the parser makes is modelled. The clock is an integer `now`.

## Model

| member | source | states |
|---|---|---|
| PacienteModelo.Fusionar | clinica/src/main/java/org/example/clinica/service/PacienteService.java:120-124 | the merged record keeps the stored `id` and `qrCodeData`, whatever the update carries |
| PacienteModelo.FusionarPorPropiedad | clinica/src/main/java/org/example/clinica/service/PacienteService.java:114-137 | for every bean property: a protected property or one that is null in the update keeps its stored value, any other takes the update's value; so the two `boolean` properties are always overwritten |
| PacienteModelo.FusionarIdempotente | clinica/src/main/java/org/example/clinica/service/PacienteService.java:116-137 | merging the same update twice gives the same record as merging it once |
| PacienteModelo.FusionarVacio | clinica/src/main/java/org/example/clinica/service/PacienteService.java:126-135 | an update whose reference properties are all null changes only `testigoJehova` and `seTransfunde` |
| PacienteModelo.IdDeQrUrl | clinica/src/main/java/org/example/clinica/service/PacienteService.java:47-49 | an id is read back only from a string of the exact QR URL shape, and the URL rebuilt from it is that string |
| PacienteModelo.QrUrlIdentifica | clinica/src/main/java/org/example/clinica/service/PacienteService.java:47-49 | the QR URL of any id reads back as that id: the URL identifies the patient |
| PacienteModelo.Prioritarios | clinica/src/main/java/org/example/clinica/service/PacienteService.java:56-57 | the recipients are the first min(2, n) addresses, in order |
| PacienteServicio.EnvioSiHayEmails | clinica/src/main/java/org/example/clinica/service/PacienteService.java:53-64 | at most one QR mail; one exactly when the list is present and non-empty, for that patient, to its first at most two addresses, carrying the QR URL |
| PacienteServicio.ReenvioSoloSiCambianEmails | clinica/src/main/java/org/example/clinica/service/PacienteService.java:143-153 | an update re-sends the QR iff its email list is present, differs from the stored one and is non-empty, and then to the first at most two of the update's addresses; an update to the empty list sends nothing |
| PacienteServicio.Servicio.Guardar | clinica/src/main/java/org/example/clinica/service/PacienteService.java:44 | the repository save: the document gets its own id or a generated one, is stored under it, and the store invariant (key = id) holds |
| PacienteServicio.Servicio.CrearPaciente | clinica/src/main/java/org/example/clinica/service/PacienteService.java:43-67 | `qrCodeData` is the QR URL of the id the first save assigned, every other field is what was sent, the record is stored under that id, and the QR mail log grows by exactly the creation mail |
| PacienteServicio.Servicio.ListarTodos | clinica/src/main/java/org/example/clinica/service/PacienteService.java:74-76 | every stored patient is listed and every listed record is the one stored under its id |
| PacienteServicio.Servicio.BuscarPorId | clinica/src/main/java/org/example/clinica/service/PacienteService.java:84-86 | found exactly when the id is stored, and then the record stored under it |
| PacienteServicio.Servicio.ActualizarPaciente | clinica/src/main/java/org/example/clinica/service/PacienteService.java:100-156 | an unknown id fails with "Paciente no encontrado" and changes neither the store nor the mail log; a known id stores the merge of the update into the stored record and appends exactly the re-send the emails rule demands |
| PacienteServicio.Servicio.EliminarPaciente | clinica/src/main/java/org/example/clinica/service/PacienteService.java:163-165 | the id is removed and nothing else changes, whether or not it was stored |
| PacienteServicio.CrearYBuscar | clinica/src/main/java/org/example/clinica/service/PacienteService.java:43-86 | after a creation the record is found under its id and its QR URL reads back as that id |
| PacienteServicio.ActualizarDosVeces | clinica/src/main/java/org/example/clinica/service/PacienteService.java:100-156 | two identical updates return the same result and leave the store as one update does |
| PacienteControlador.RespuestaBuscar | clinica/src/main/java/org/example/clinica/controller/PacienteController.java:73-78 | 200 with the patient iff found, 404 with no body iff not |
| PacienteControlador.RespuestaActualizar | clinica/src/main/java/org/example/clinica/controller/PacienteController.java:90-99 | PUT answers 200 with the updated record, and 404 for any service exception |
| PacienteControlador.Crear | clinica/src/main/java/org/example/clinica/controller/PacienteController.java:46-50 | the POST answers 200 with the request under its assigned id (the generated one when it had none) and the QR URL of that id; the store maps that id to it; a QR mail to its emails is recorded exactly when it has some |
| PacienteControlador.Listar | clinica/src/main/java/org/example/clinica/controller/PacienteController.java:59-62 | GET on the collection answers 200 with exactly the stored patients |
| PacienteControlador.Buscar | clinica/src/main/java/org/example/clinica/controller/PacienteController.java:73-78 | GET by id answers 200 with the stored patient iff the id is stored, 404 otherwise |
| PacienteControlador.Actualizar | clinica/src/main/java/org/example/clinica/controller/PacienteController.java:90-99 | PUT on an unknown id answers 404 and neither stores nor mails anything; on a known id it answers 200 with the merge, stores exactly that merge under the id, and re-mails the QR only when the update changed the email list |
| PacienteControlador.Eliminar | clinica/src/main/java/org/example/clinica/controller/PacienteController.java:109-113 | DELETE always answers 204 with no body; the id is gone afterwards, every other patient is kept and no mail is sent |
| UsuarioModelo.NombreRol | clinica/src/main/java/org/example/clinica/model/postgres/Role.java:4-9 | a role name is non-empty and upper-case |
| UsuarioModelo.RolDeNombre | clinica/src/main/java/org/example/clinica/model/postgres/Role.java:4-9 | a name read as a role is that role's name |
| UsuarioModelo.NombreRolInyectivo | clinica/src/main/java/org/example/clinica/model/postgres/Role.java:4-9 | reading a role's name back gives the role, so names are distinct |
| UsuarioModelo.Authorities | clinica/src/main/java/org/example/clinica/model/postgres/Usuario.java:83-86 | exactly one authority: "ROLE_" followed by the role's name |
| UsuarioModelo.AuthorityIdentificaRol | clinica/src/main/java/org/example/clinica/model/postgres/Usuario.java:83-86 | the authority reads back as the user's role, and names a role iff it is the user's |
| UsuarioServicio.ErrorSinPassword | clinica/src/main/java/org/example/clinica/service/UsuarioService.java:78-85 | a missing password is an IllegalArgumentException whose message is the new-user one iff the user has no id |
| UsuarioServicio.Servicio.ClaveDeGuardado | clinica/src/main/java/org/example/clinica/service/UsuarioService.java:91 | a save writes an existing row under its own id, and any other user under a fresh IDENTITY value |
| UsuarioServicio.Servicio.Persistir | clinica/src/main/java/org/example/clinica/service/UsuarioService.java:91 | the repository save: a row breaking NOT NULL or UNIQUE(email) is refused and nothing changes; otherwise the row is written under its key and the table constraints still hold |
| UsuarioServicio.Servicio.Guardar | clinica/src/main/java/org/example/clinica/service/UsuarioService.java:73-92 | a null or empty password fails with nothing mailed or stored; otherwise the welcome mail is attempted (its failure swallowed) and the user is saved with the password replaced by its encoding |
| UsuarioServicio.Servicio.CambiarPassword | clinica/src/main/java/org/example/clinica/service/UsuarioService.java:110-117 | an unknown id fails with nothing changed; a known id changes only that user's password, to the encoding of the new one |
| UsuarioServicio.Servicio.EliminarUsuario | clinica/src/main/java/org/example/clinica/service/UsuarioService.java:99-101 | removes that id and nothing else |
| UsuarioServicio.Servicio.LoadUserByUsername | clinica/src/main/java/org/example/clinica/service/UsuarioService.java:133-137 | succeeds iff some stored user has the email, returning that stored row, whose username (`getUsername`, the email) is the one asked for and whose four account flags are all true; otherwise UsernameNotFoundException with the email in its message |
| UsuarioServicio.GuardarYCargar | clinica/src/main/java/org/example/clinica/service/UsuarioService.java:73-137 | a user saved successfully is loaded back by email as the saved row, with its role and the encoding of its password |
| ControladorAuth.UsuarioNuevo | clinica/src/main/java/org/example/clinica/controller/auth/AuthController.java:62-69 | the new user has no id, the request's names, email and role, and the once-encoded password |
| ControladorAuth.Register | clinica/src/main/java/org/example/clinica/controller/auth/AuthController.java:49-78 | a missing email, password or role answers 400 and stores or mails nothing; otherwise the welcome mail is attempted (and recorded unless the mail server fails) whether or not the save succeeds, `guardar` fails exactly when the email is already registered, leaving the table unchanged, and else exactly one new row is added and 200 carries a token for it |
| ControladorAuth.Login | clinica/src/main/java/org/example/clinica/controller/auth/AuthController.java:94-115 | no token without successful authentication; after it, a token for the stored user with that email, or the "not found after authentication" exception |
| ControladorAuth.TokenDeLoginValido | clinica/src/main/java/org/example/clinica/controller/auth/AuthController.java:111-114 | a login token is valid for its user until it expires, is refused by the parser (never answered `false`) afterwards, and names the user's role |
| JwtServicio.ClaimsDeToken | clinica/src/main/java/org/example/clinica/service/JwtService.java:48-69 | the claims are the caller's plus "roles" set to the authorities (overwriting any caller "roles"), subject the username, expiration `jwtExpiration` after issue |
| JwtServicio.Servicio.GenerateTokenCon | clinica/src/main/java/org/example/clinica/service/JwtService.java:48-69 | the caller's map gains "roles" in place, and the token body is built from the map as it was before |
| JwtServicio.Servicio.GenerateToken | clinica/src/main/java/org/example/clinica/service/JwtService.java:40-43 | starting from an empty map, "roles" is the only custom claim |
| JwtServicio.ParseClaimsJws | clinica/src/main/java/org/example/clinica/service/JwtService.java:84-91 | a token whose signature check fails is unreadable; a readable one whose expiration lies before the clock is refused as expired; otherwise its claims are returned, and they are not expired |
| JwtServicio.IsTokenValid | clinica/src/main/java/org/example/clinica/service/JwtService.java:71-78 | answers true exactly when the subject is the user's username and the token has not expired; an expired token throws instead of answering |
| JwtServicio.TokenValidoHastaExpirar | clinica/src/main/java/org/example/clinica/service/JwtService.java:71-78 | a token is valid for its user while the clock is not past its expiration and throws from then on; for a user with another email it is answered `false` while live |
| JwtServicio.RolesDelToken | clinica/src/main/java/org/example/clinica/service/JwtService.java:52-57 | the "roles" claim lists exactly one authority, naming the user's role |
| FiltroJwt.ExtraerToken | clinica/src/main/java/org/example/clinica/security/JwtAuthenticationFilter.java:43-49 | a token is extracted iff the header starts with "Bearer ", and the header is that prefix followed by the token |
| FiltroJwt.ExtraerTokenInverso | clinica/src/main/java/org/example/clinica/security/JwtAuthenticationFilter.java:49 | "Bearer " + t yields t |
| FiltroJwt.Filtro.DoFilterInternal | clinica/src/main/java/org/example/clinica/security/JwtAuthenticationFilter.java:31-83 | each path that does not throw continues the chain exactly once; no bearer header authenticates nobody; an unparsable token and an expired token each escape as their own exception; a live token with a subject while unauthenticated fails exactly when no user has that email and otherwise loads that stored user; a token without subject or an authenticated request loads nobody and keeps the context; the context changes only from empty to the loaded user with their authorities, exactly when the token is valid for them |
| ConfiguracionSeguridad.PrimeraQueAplica | clinica/src/main/java/org/example/clinica/config/SecurityConfig.java:32-52 | the index found is the first rule at or after the start that applies |
| ConfiguracionSeguridad.ReglaDecisiva | clinica/src/main/java/org/example/clinica/config/SecurityConfig.java:32-52 | some rule always applies, and the deciding one is the first that does |
| ConfiguracionSeguridad.AdmiteUsuario | clinica/src/main/java/org/example/clinica/config/SecurityConfig.java:38-48 | a role rule admits an authenticated user iff the user's role is among its roles |
| ConfiguracionSeguridad.AuthAbierto | clinica/src/main/java/org/example/clinica/config/SecurityConfig.java:34 | every method below "/api/auth" is permitted, anonymous or not |
| ConfiguracionSeguridad.CrearPacienteSoloAdminOMedico | clinica/src/main/java/org/example/clinica/config/SecurityConfig.java:38 | POST "/api/pacientes" is allowed iff the role is ADMIN or MEDICO, never anonymously |
| ConfiguracionSeguridad.ModificarPacienteSoloAdminOMedico | clinica/src/main/java/org/example/clinica/config/SecurityConfig.java:40-41 | PUT and DELETE below "/api/pacientes" are allowed iff the role is ADMIN or MEDICO |
| ConfiguracionSeguridad.ConsultarPacientes | clinica/src/main/java/org/example/clinica/config/SecurityConfig.java:44-45 | GET below "/api/pacientes" is allowed iff the role is ADMIN, MEDICO or ENFERMERO; TECNICO and anonymous requests are refused |
| ConfiguracionSeguridad.SegundaReglaGetSombreada | clinica/src/main/java/org/example/clinica/config/SecurityConfig.java:44-45 | the second GET rule never decides a request |
| ConfiguracionSeguridad.UsuariosSoloAdmin | clinica/src/main/java/org/example/clinica/config/SecurityConfig.java:48 | every method below "/api/usuarios" is allowed iff the role is ADMIN |
| ConfiguracionSeguridad.ReglaDeUsuarios | clinica/src/main/java/org/example/clinica/config/SecurityConfig.java:34-48 | every request below "/api/usuarios" is decided by the user rule, which no earlier rule shadows |
| ConfiguracionSeguridad.RestoSoloAutenticado | clinica/src/main/java/org/example/clinica/config/SecurityConfig.java:51 | a request no earlier rule matches is allowed iff it is authenticated |
| ConfiguracionSeguridad.QrSoloAutenticado | clinica/src/main/java/org/example/clinica/config/SecurityConfig.java:51 | GET "/api/qr/{id}" is allowed iff authenticated, whatever the role |
| ConfiguracionSeguridad.PostBajoPacientesSoloAutenticado | clinica/src/main/java/org/example/clinica/config/SecurityConfig.java:38-51 | a POST below (not to) "/api/pacientes" falls through to the authenticated-only rule |
| AuthCliente.LocalStorage.GetItem | clinica-frontend/src/app/auth/auth.ts:59 | the stored value iff the key is stored |
| AuthCliente.AuthService.ObtenerToken | clinica-frontend/src/app/auth/auth.ts:56-62 | the stored token in a browser, null outside one |
| AuthCliente.AuthService.GuardarToken | clinica-frontend/src/app/auth/auth.ts:46-54 | in a browser the token becomes what `obtenerToken` returns and no other entry changes; outside one nothing changes |
| AuthCliente.AuthService.Logout | clinica-frontend/src/app/auth/auth.ts:69-77 | afterwards no token is returned and the session is over; only the token entry is removed |
| AuthCliente.AuthService.Login | clinica-frontend/src/app/auth/auth.ts:31-45 | a response starting with "ey" is stored (in a browser) and logs the user in; any other leaves storage unchanged; the answer is always `{token: response}` |
| InterceptorAuth.Interceptar | clinica-frontend/src/app/auth/auth-interceptor.ts:18-32 | a truthy token adds "Authorization: Bearer <token>" and changes nothing else; a missing or empty token forwards the request unchanged |
| InterceptorAuth.AuthInterceptor | clinica-frontend/src/app/auth/auth-interceptor.ts:13-33 | a logged-in session sends the bearer header with the stored token; otherwise the request is untouched |
| InterceptorAuth.CabeceraIdaYVuelta | clinica-frontend/src/app/auth/auth-interceptor.ts:21-28 | the header the client writes is read back by the backend filter as exactly the stored token |
| Http.MensajeDeError | clinica-frontend/src/app/auth/login/login.ts:85 | the body's message if truthy, else the response's message if truthy, else the fallback |
| LoginComponente.DestinoTrasLogin | clinica-frontend/src/app/auth/login/login.ts:69-78 | a truthy return URL below "/pacientes/" is followed; otherwise a known role goes to the dashboard and any other role nowhere |
| LoginComponente.MensajeErrorLogin | clinica-frontend/src/app/auth/login/login.ts:82-86 | 401 and 403 give "Credenciales incorrectas."; any other status the first truthy message or the generic text; never empty |
| LoginComponente.Login.OnLogin | clinica-frontend/src/app/auth/login/login.ts:51-62 | an invalid form is marked touched and sends nothing; a valid one clears the error and sends the credentials once |
| LoginComponente.Login.RedirigirSegunRol | clinica-frontend/src/app/auth/login/login.ts:92-112 | the four roles navigate to "/dashboard"; any other role or none sets the error and goes nowhere |
| LoginComponente.Login.AlIniciarSesion | clinica-frontend/src/app/auth/login/login.ts:63-79 | the token is kept as `login` decides; a valid return URL is removed from storage and followed, any other stays stored and the role decides |
| LoginComponente.Login.AlFallar | clinica-frontend/src/app/auth/login/login.ts:80-87 | the error shown is the login error message of the response |
| LoginComponente.RolesDelSistemaAlDashboard | clinica-frontend/src/app/auth/login/login.ts:95-106 | every role the backend issues reaches the dashboard when no return URL applies |
| DashboardComponente.Capitalizar | clinica-frontend/src/app/dashboard/dashboard.ts:69 | same length, first character upper-cased, the rest lower-cased |
| DashboardComponente.CapitalizarIgnoraMayusculas | clinica-frontend/src/app/dashboard/dashboard.ts:69 | the capitalised role does not depend on how the role was cased |
| DashboardComponente.MensajeBienvenida | clinica-frontend/src/app/dashboard/dashboard.ts:68-73 | with a truthy role and name, the capitalised role, a space and the name; otherwise "Usuario" |
| DashboardComponente.BienvenidaDeRoles | clinica-frontend/src/app/dashboard/dashboard.ts:68-70 | the four backend roles greet as "Admin", "Medico", "Enfermero", "Tecnico" |
| DashboardComponente.AdminGestionaPacientes | clinica-frontend/src/app/dashboard/dashboard.ts:79-86 | `esAdmin` implies `puedeGestionarPacientes`, and the only other role that may manage patients is MEDICO |
| DashboardComponente.BotonesSegunBackend | clinica-frontend/src/app/dashboard/dashboard.ts:79-86 | patient management is offered exactly to the users the backend lets create patients, and user administration exactly to those it lets reach "/api/usuarios" |
| DashboardComponente.Dashboard.NgOnInit | clinica-frontend/src/app/dashboard/dashboard.ts:62-76 | role and name are kept and the welcome line is the welcome message of them |
| DashboardComponente.Dashboard.Logout | clinica-frontend/src/app/dashboard/dashboard.ts:114-117 | the session is over: in a browser only the token entry is removed from localStorage, elsewhere storage is untouched; the greeting, role and name are kept and "/auth/login" is navigated to |
| FormularioPaciente.GuardarSoloAdminOMedico | clinica-frontend/src/app/pacientes/paciente.service.ts:73-83 | whatever the form sends (POST to the collection or PUT to an id), the backend accepts it iff the role is ADMIN or MEDICO, never anonymously |
| FormularioPaciente.RecortadasLimpias | clinica-frontend/src/app/pacientes/paciente-form/paciente-form.component.ts:105-107 | every comma-split, trimmed piece is trimmed and has no comma |
| FormularioPaciente.Normalizar | clinica-frontend/src/app/pacientes/paciente-form/paciente-form.component.ts:105-107 | a falsy text gives no entry; every entry is non-empty, trimmed and comma-free |
| FormularioPaciente.NormalizarConservaOrden | clinica-frontend/src/app/pacientes/paciente-form/paciente-form.component.ts:105-107 | the entries are an order-preserving subsequence of the trimmed pieces |
| FormularioPaciente.NormalizarJoin | clinica-frontend/src/app/pacientes/paciente-form/paciente-form.component.ts:105-107 | clean entries joined with commas convert back to the same entries |
| FormularioPaciente.EmailsValidosUnaDireccion | clinica-frontend/src/app/pacientes/paciente-form/paciente-form.component.ts:55 | the email validator admits at most one address in the control, and a non-empty one converts to exactly itself |
| FormularioPaciente.DatosDe | clinica-frontend/src/app/pacientes/paciente-form/paciente-form.component.ts:101-112 | every value is copied unchanged (documento, nombre, apellido, fecha de nacimiento, sexo, estado civil, fecha de primera diálisis, domicilio, obra social, institución); `telefonos` and `emails` are the converted lists |
| FormularioPaciente.TextoStatus | clinica-frontend/src/app/pacientes/paciente-form/paciente-form.component.ts:151-152 | the decimal status for an HTTP error, "N/A" otherwise |
| FormularioPaciente.MensajeErrorGuardado | clinica-frontend/src/app/pacientes/paciente-form/paciente-form.component.ts:151-152 | starts with "Error al guardar: " and ends with ")" |
| FormularioPaciente.StatusIdaYVuelta | clinica-frontend/src/app/pacientes/paciente-form/paciente-form.component.ts:151-152 | the status written into a save-error message reads back as that status for an HTTP error and as none otherwise |
| FormularioPaciente.Formulario.NgOnInit | clinica-frontend/src/app/pacientes/paciente-form/paciente-form.component.ts:42-67 | the form starts from its initial values; a truthy route id is kept and its patient loaded, otherwise nothing is loaded |
| FormularioPaciente.Formulario.CargarDatosPaciente | clinica-frontend/src/app/pacientes/paciente-form/paciente-form.component.ts:69-72 | one load request for that id, busy |
| FormularioPaciente.Formulario.AlCargarDatos | clinica-frontend/src/app/pacientes/paciente-form/paciente-form.component.ts:73-77 | the loaded values fill the form and the form is no longer busy |
| FormularioPaciente.Formulario.AlFallarCarga | clinica-frontend/src/app/pacientes/paciente-form/paciente-form.component.ts:78-82 | the load-failure message is shown and the form is no longer busy |
| FormularioPaciente.Formulario.MarcarTodosTocados | clinica-frontend/src/app/pacientes/paciente-form/paciente-form.component.ts:159-168 | every control is touched afterwards |
| FormularioPaciente.Formulario.OnSubmit | clinica-frontend/src/app/pacientes/paciente-form/paciente-form.component.ts:86-125 | an invalid or busy form sends nothing, touches every control, clears the success message and sets the error only when not busy; otherwise both messages are cleared, the form is busy and one request is sent: create without an id, update of that id with one |
| FormularioPaciente.Formulario.AlGuardar | clinica-frontend/src/app/pacientes/paciente-form/paciente-form.component.ts:128-147 | no id in the answer: error message, id unchanged; otherwise the id is adopted only if none was held, the success message is shown and the detail page of the answered id is navigated to; never busy afterwards |
| FormularioPaciente.Formulario.AlFallarGuardado | clinica-frontend/src/app/pacientes/paciente-form/paciente-form.component.ts:149-154 | the save-error message is shown and the form is no longer busy |
| FormularioPaciente.DobleEnvio | clinica-frontend/src/app/pacientes/paciente-form/paciente-form.component.ts:87-98 | two submits in a row send at most one request |
| ListaPacientes.Filtrado | clinica-frontend/src/app/pacientes/paciente-list/paciente-list.component.ts:68-80 | a blank term gives the full list; any other keeps exactly the rows whose documento, nombre or apellido contains the lower-cased term, each as often as it occurs |
| ListaPacientes.FiltradoEsSubsecuencia | clinica-frontend/src/app/pacientes/paciente-list/paciente-list.component.ts:75 | the filtered list is an order-preserving subsequence of the full list |
| ListaPacientes.FiltradoIgnoraMayusculas | clinica-frontend/src/app/pacientes/paciente-list/paciente-list.component.ts:74 | the result does not depend on the case of the term |
| ListaPacientes.FiltradoSeEstrecha | clinica-frontend/src/app/pacientes/paciente-list/paciente-list.component.ts:74-79 | typing more characters after a non-blank term only removes rows |
| ListaPacientes.SinId | clinica-frontend/src/app/pacientes/paciente-list/paciente-list.component.ts:95 | exactly the rows with that id are removed, every other row kept with its multiplicity and order |
| ListaPacientes.EliminadoNoSeMuestra | clinica-frontend/src/app/pacientes/paciente-list/paciente-list.component.ts:95-96 | after a deletion no row with the deleted id is shown, whatever the search |
| ListaPacientes.PeticionesSegunRol | clinica-frontend/src/app/pacientes/paciente.service.ts:63-88 | loading the list is allowed iff the role is not TECNICO, deleting iff the role is ADMIN or MEDICO |
| ListaPacientes.ComponenteLista.CargarPacientes | clinica-frontend/src/app/pacientes/paciente-list/paciente-list.component.ts:50-54 | one request, busy, no error, lists unchanged |
| ListaPacientes.ComponenteLista.AlCargar | clinica-frontend/src/app/pacientes/paciente-list/paciente-list.component.ts:55-58 | both lists become the fetched list |
| ListaPacientes.ComponenteLista.AlFallarCarga | clinica-frontend/src/app/pacientes/paciente-list/paciente-list.component.ts:60-64 | the load error is shown and the lists are untouched |
| ListaPacientes.ComponenteLista.FiltrarPacientes | clinica-frontend/src/app/pacientes/paciente-list/paciente-list.component.ts:68-80 | the shown rows are the search of the loaded ones, a subsequence of them |
| ListaPacientes.ComponenteLista.AlCambiarBusqueda | clinica-frontend/src/app/pacientes/paciente-list/paciente-list.component.ts:45-47 | a null search value filters as the empty term |
| ListaPacientes.ComponenteLista.EditarPaciente | clinica-frontend/src/app/pacientes/paciente-list/paciente-list.component.ts:82-87 | a patient with an id opens its personal-data page; one without does nothing |
| ListaPacientes.ComponenteLista.EliminarPaciente | clinica-frontend/src/app/pacientes/paciente-list/paciente-list.component.ts:89-92 | a request is sent only for a patient with an id and a confirmed dialog; otherwise nothing changes |
| ListaPacientes.ComponenteLista.AlEliminar | clinica-frontend/src/app/pacientes/paciente-list/paciente-list.component.ts:93-99 | the rows with that id leave the list and the search is re-applied with the current value |
| ListaPacientes.ComponenteLista.AlFallarEliminar | clinica-frontend/src/app/pacientes/paciente-list/paciente-list.component.ts:100-104 | both lists stay, the error is shown, the list is no longer busy |
| ListaPacientes.ComponenteLista.VolverAlDashboard | clinica-frontend/src/app/pacientes/paciente-list/paciente-list.component.ts:109-111 | navigates to "/dashboard" and changes nothing else |
| ListaObservar.ComponenteObservar.CargarPacientes | clinica-frontend/src/app/pacientes/paciente-observar-list/paciente-observar-list.component.ts:50-54 | one request, busy, no error |
| ListaObservar.ComponenteObservar.AlCargar | clinica-frontend/src/app/pacientes/paciente-observar-list/paciente-observar-list.component.ts:55-58 | both lists become the fetched list |
| ListaObservar.ComponenteObservar.AlFallarCarga | clinica-frontend/src/app/pacientes/paciente-observar-list/paciente-observar-list.component.ts:60-64 | the load error is shown and the lists are untouched |
| ListaObservar.ComponenteObservar.FiltrarPacientes | clinica-frontend/src/app/pacientes/paciente-observar-list/paciente-observar-list.component.ts:68-80 | the same search as the patient list, a subsequence of the loaded rows |
| ListaObservar.ComponenteObservar.AlCambiarBusqueda | clinica-frontend/src/app/pacientes/paciente-observar-list/paciente-observar-list.component.ts:40-47 | a new search-box value is recorded and the table shows the shared search of the loaded rows for it, a null value searching for "" |
| ListaObservar.ComponenteObservar.ObservarPaciente | clinica-frontend/src/app/pacientes/paciente-observar-list/paciente-observar-list.component.ts:82-87 | navigates to the observation page only for a patient with an id |
| ListaObservar.ComponenteObservar.VolverAlDashboard | clinica-frontend/src/app/pacientes/paciente-observar-list/paciente-observar-list.component.ts:89-91 | navigates to "/dashboard" and changes nothing else |
| ListaUsuarios.Filtrado | clinica-frontend/src/app/admin/admin-list/admin-list.ts:54-67 | a blank filter gives the full list; any other keeps exactly the users whose nombre, apellido, email or rol contains the lower-cased, untrimmed filter |
| ListaUsuarios.FiltradoEsSubsecuencia | clinica-frontend/src/app/admin/admin-list/admin-list.ts:61 | the filtered users are an order-preserving subsequence of the list |
| ListaUsuarios.FiltradoSeEstrecha | clinica-frontend/src/app/admin/admin-list/admin-list.ts:60-66 | typing more characters after a non-blank filter only removes rows |
| ListaUsuarios.GetRolClass | clinica-frontend/src/app/admin/admin-list/admin-list.ts:69-77 | a specific class iff the upper-cased name is one of the four roles, "rol-default" otherwise |
| ListaUsuarios.RolClassDeRoles | clinica-frontend/src/app/admin/admin-list/admin-list.ts:69-77 | each role gets "rol-" and its lower-case name, however the name is cased |
| ListaUsuarios.ComponenteAdmin.CargarUsuarios | clinica-frontend/src/app/admin/admin-list/admin-list.ts:41-42 | one list request |
| ListaUsuarios.ComponenteAdmin.AlCargarUsuarios | clinica-frontend/src/app/admin/admin-list/admin-list.ts:43-45 | both lists become the fetched list, even with a filter typed |
| ListaUsuarios.ComponenteAdmin.EscribirFiltro | clinica-frontend/src/app/admin/admin-list/admin-list.ts:54 | the typed text becomes the filter; nothing else changes |
| ListaUsuarios.ComponenteAdmin.FiltrarUsuarios | clinica-frontend/src/app/admin/admin-list/admin-list.ts:54-67 | the shown users are the filter of the loaded ones, a subsequence of them |
| ListaUsuarios.ComponenteAdmin.VerUsuario | clinica-frontend/src/app/admin/admin-list/admin-list.ts:79-83 | one alert with the user's name, email and role |
| ListaUsuarios.ComponenteAdmin.CambiarPassword | clinica-frontend/src/app/admin/admin-list/admin-list.ts:89-108 | a cancelled prompt does nothing; a blank answer alerts without a request; otherwise the trimmed password is sent only after confirmation |
| ListaUsuarios.ComponenteAdmin.AlCambiarPassword | clinica-frontend/src/app/admin/admin-list/admin-list.ts:95-98 | the success alert names the user |
| ListaUsuarios.ComponenteAdmin.AlFallarCambioPassword | clinica-frontend/src/app/admin/admin-list/admin-list.ts:99-102 | the failure alert is shown |
| ListaUsuarios.ComponenteAdmin.EliminarUsuario | clinica-frontend/src/app/admin/admin-list/admin-list.ts:110-112 | the delete request is sent only after confirmation |
| ListaUsuarios.ComponenteAdmin.AlEliminarUsuario | clinica-frontend/src/app/admin/admin-list/admin-list.ts:113-116 | a successful deletion reloads the list |
| ListaUsuarios.ComponenteAdmin.VolverAlDashboard | clinica-frontend/src/app/admin/admin-list/admin-list.ts:124-126 | navigates to "/dashboard" and changes nothing else |
| ListaUsuarios.PasswordEnviadaLimpia | clinica-frontend/src/app/admin/admin-list/admin-list.ts:92-94 | a non-blank answer is sent non-empty and trimmed |
| CrearUsuarios.VacioInvalido | clinica-frontend/src/app/admin/crear-usuarios/crear-usuarios.ts:41-47 | the empty user fails the validators |
| CrearUsuarios.RolesPermitidosSonLosDelBackend | clinica-frontend/src/app/admin/crear-usuarios/crear-usuarios.ts:11 | the role options are exactly the names of the backend's four roles |
| CrearUsuarios.TextoDelCuerpo | clinica-frontend/src/app/admin/crear-usuarios/crear-usuarios.ts:87 | the body's message when truthy, else the body as text |
| CrearUsuarios.MensajeErrorCreacion | clinica-frontend/src/app/admin/crear-usuarios/crear-usuarios.ts:85-93 | the prefix, then: the body's explanation for a 400 with a body; the permissions text for 401/403; "Inténtalo más tarde." otherwise |
| CrearUsuarios.MensajeDelServidor | clinica-frontend/src/app/admin/crear-usuarios/crear-usuarios.ts:86-87 | a 400 whose JSON body has a message shows exactly that message after the prefix |
| CrearUsuarios.Formulario.Escribir | clinica-frontend/src/app/admin/crear-usuarios/crear-usuarios.ts:41-47 | typing into a control sets its value and re-validates it; no other state changes |
| CrearUsuarios.Formulario.MarcarTodosTocados | clinica-frontend/src/app/admin/crear-usuarios/crear-usuarios.ts:52 | every control is touched afterwards |
| CrearUsuarios.Formulario.OnSubmit | clinica-frontend/src/app/admin/crear-usuarios/crear-usuarios.ts:50-68 | as written: an invalid form (by the controls' current errors) or a request in flight sends nothing, touches every control and clears the success message, the error set only when not sending; otherwise one request with the values, sending |
| CrearUsuarios.Formulario.OnSubmitCorregido | clinica-frontend/src/app/admin/crear-usuarios/crear-usuarios.ts:50-68 | the same guard decided by the validators on the current values: every user sent passes them |
| CrearUsuarios.Formulario.AlCrear | clinica-frontend/src/app/admin/crear-usuarios/crear-usuarios.ts:69-82 | the success message names the user sent last; the form is emptied, untouched, its errors cleared; not sending |
| CrearUsuarios.Formulario.AlFallarCreacion | clinica-frontend/src/app/admin/crear-usuarios/crear-usuarios.ts:83-95 | the creation error message is shown and the form is no longer sending |
| CrearUsuarios.Formulario.VolverAlDashboard | clinica-frontend/src/app/admin/crear-usuarios/crear-usuarios.ts:100-102 | navigates to "/dashboard" and changes nothing else |
| CrearUsuarios.EnvioVacioTrasExito | clinica-frontend/src/app/admin/crear-usuarios/crear-usuarios.ts:72-80 | as written: a submit right after a success sends the empty user, which fails the validators |
| CrearUsuarios.EnvioTrasExitoCorregido | clinica-frontend/src/app/admin/crear-usuarios/crear-usuarios.ts:72-80 | with the corrected guard the same submit sends nothing and asks for the fields |
| Listas.Filtrar | clinica-frontend/src/app/pacientes/paciente-list/paciente-list.component.ts:75 | `filter` keeps exactly the elements passing the test, each with all its occurrences |
| Listas.FiltrarEsSubsecuencia | clinica-frontend/src/app/pacientes/paciente-list/paciente-list.component.ts:75 | a filtered list is an order-preserving subsequence of its source |
| Validadores.EmailValidoSinComaNiEspacios | clinica-frontend/src/app/pacientes/paciente-form/paciente-form.component.ts:55 | an address `Validators.email` accepts holds no comma and no whitespace |

## Left out

- Mail and QR images. The QR image (ZXing) and the mail sending (JavaMailSender) are not modelled. A QR mail is a recorded event: patient, recipients and the URL the image encodes. A welcome mail is a recorded event whose failure is an input and is swallowed.
- Cryptography. BCrypt is an opaque `Codificador` of a salt and a password; it is not assumed deterministic or injective. Signing, base64 key decoding and signature checking of tokens are an opaque `decode` function. A parse or signature failure escapes the filter as `TokenIlegible`; a token past its expiration escapes as `TokenExpirado`.
- Persistence. Spring Data and JPA are maps.
  - A Mongo save assigns the document's id or a generated one (an input).
  - A JPA save assigns a counter-issued IDENTITY value and refuses rows that break NOT NULL or UNIQUE(email).
  - `findAll` order is not modelled: `PacienteServicio.Servicio.ListarTodos` returns a set.
- Reflection. `BeanUtils` property copying is modelled property by property. `PacienteModelo.FusionarPorPropiedad` states the loop's per-property rule. The merge-failure exception cannot arise from the model's own values; it exists only as an error value the controller maps.
- Clocks. `generateToken` reads the clock twice (issue and expiry). The model reads it once, and in milliseconds with no truncation to seconds. The filter reads the clock once per request, so a token cannot expire between the subject being read and `isTokenValid`; that `isTokenValid` re-parses the token and could throw there is not modelled. Clock skew allowance is zero, as configured.
- `UsuarioController`, `QrController`, `ApplicationConfig` and `ClinicaApplication` are wiring and are not part of this model. Neither are the frontend routing modules, the patient detail pages, the Material module and the empty registration page.
- The API client services (`paciente.service.ts`, `admin/usuario.ts`) only build URLs. The patient form's request is recorded as create or update of an id. Its path and method (`FormularioPaciente.RutaDe`, `FormularioPaciente.MetodoDe`) link it to the backend's rule table.
- `admin/usuario.ts` as found has no `Usuario` interface and no list, password-change or delete calls, although `admin-list.ts` uses them. They are modelled from that usage.
- `auth.ts` as found has no `obtenerRolUsuario` or `obtenerNombreUsuario`, although `login.ts` and `dashboard.ts` call them. The role and name they return are parameters.
- Asynchrony and timing. `debounceTime(300)` and `distinctUntilChanged` on the search boxes are not modelled; every value that reaches the subscription is filtered. The 1500 ms `setTimeout` before the form's navigation is not modelled; the navigation is recorded at once.
- `console` logging, and the `NgZone.run` wrapper around navigations, are left out.
- Unicode. `toLowerCase`, `toUpperCase` and `trim` are ASCII-only. Whitespace is space, tab, newline, carriage return, vertical tab and form feed.
- `login.ts` reads and removes `returnUrl` through `localStorage` without the server-rendering guard. The model does the same on the shared storage object.
- FormularioPaciente.Formulario.AlCargarDatos: `patchValue` in the source can put the backend's arrays into the `telefonos` and `emails` text controls. A later submit would then call `split` on an array and throw. The model keeps text values only.
- CrearUsuarios.Formulario.AlCrear: `reset()` sets every control to null. The model uses the empty string, which the validators treat the same way.
- The `cargarUsuarios` and `eliminarUsuario` error callbacks in `admin-list.ts` only log, so they change no state and have no method. `editarUsuario` has an empty body.
- ListaUsuarios.Filtrado: the user rows of the admin list have non-null `nombre` and `apellido`. The backend allows null in those columns, and `admin-list.ts:62-63` would then throw a TypeError for a non-blank filter; that failure is not modelled.
- ControladorAuth.Login: the `authenticationManager.authenticate` check (a DaoAuthenticationProvider comparing the BCrypt hash and reading the account flags) is not modelled; its verdict is the input `autenticado`.
- ControladorAuth.Register: whether the encoder is deterministic is not modelled. The postcondition states the stored row's fields and the double encoding through the added row, not a particular hash.

## Findings

| source | as written | input that shows it | evidently intended | confidence | as-written member | corrected member |
|---|---|---|---|---|---|---|
| clinica-frontend/src/app/admin/crear-usuarios/crear-usuarios.ts:72-80 | after a successful creation the form is reset and every control's errors are cleared with `setErrors(null)`, so the group is VALID while every control is empty | create a user successfully, then press submit again at once: `onSubmit` passes its guard and sends `{nombre: null, apellido: null, email: null, password: null, rol: null}` | validity follows the validators, so an empty form is refused with "Por favor, completa todos los campos requeridos." | not executed | CrearUsuarios.EnvioVacioTrasExito | CrearUsuarios.EnvioTrasExitoCorregido |
