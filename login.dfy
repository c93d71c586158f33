/** `auth/login/login.ts`: the login form, what it does with the backend's answer, and
    where it sends the user afterwards. */
module LoginComponente {
  import opened Wrappers
  import opened Texto
  import opened Http
  import opened Validadores
  import opened AuthCliente
  import UsuarioModelo

  const ClaveReturnUrl: string := "returnUrl"
  const PrefijoRetorno: string := "/pacientes/"
  const RutaDashboard: string := "/dashboard"
  const MensajeCredenciales: string := "Credenciales incorrectas."
  const MensajeInesperado: string := "Error inesperado. Inténtalo más tarde."
  const MensajeRolDesconocido: string := "No se pudo determinar el rol del usuario. Contacte al administrador."

  datatype Credenciales = Credenciales(email: string, password: string)

  /** The form's validators: email required and well-formed, password required with at
      least 6 characters. */
  predicate FormularioValido(c: Credenciales) {
    Required(c.email) && EmailValido(c.email) && Required(c.password) && MinLength(c.password, 6)
  }

  /** The roles `redirigirSegunRol` knows. */
  predicate RolConocido(rol: Option<string>) {
    rol == Some("ADMIN") || rol == Some("MEDICO") || rol == Some("ENFERMERO") || rol == Some("TECNICO")
  }

  /** Whether a stored return URL is followed: present and below "/pacientes/". */
  predicate ReturnUrlValido(returnUrl: Option<string>) {
    Truthy(returnUrl) && StartsWith(returnUrl.value, PrefijoRetorno)
  }

  /** Where a successful login leads: the stored return URL when it is a patient page, else
      the dashboard for a known role, else nowhere. */
  function DestinoTrasLogin(returnUrl: Option<string>, rol: Option<string>): (r: Option<string>)
    ensures ReturnUrlValido(returnUrl) ==> r == returnUrl
    ensures !ReturnUrlValido(returnUrl) ==> (r.Some? <==> RolConocido(rol))
    ensures r.Some? ==> r.value == RutaDashboard || StartsWith(r.value, PrefijoRetorno)
  {
    if ReturnUrlValido(returnUrl) then returnUrl
    else if RolConocido(rol) then Some(RutaDashboard)
    else None
  }

  /** The message of a failed login: bad credentials for 401 and 403, otherwise the
      server's or the client's message, otherwise a generic one. Never empty. */
  function MensajeErrorLogin(e: HttpError): (r: string)
    ensures e.status == 401 || e.status == 403 ==> r == MensajeCredenciales
    ensures e.status != 401 && e.status != 403 ==> r == MensajeDeError(e, MensajeInesperado)
    ensures r != []
  {
    if e.status == 401 || e.status == 403 then MensajeCredenciales
    else MensajeDeError(e, MensajeInesperado)
  }

  class Login {
    const auth: AuthService
    var loginError: Option<string>
    /** `markAllAsTouched` was called. */
    var tocado: bool
    /** Calls of `authService.login`, oldest first. */
    var solicitudes: seq<Credenciales>
    /** Router navigations, oldest first. */
    var navegaciones: seq<string>

    constructor (auth: AuthService)
      ensures this.auth == auth && loginError.None? && !tocado
      ensures solicitudes == [] && navegaciones == []
    {
      this.auth := auth;
      loginError := None;
      tocado := false;
      solicitudes := [];
      navegaciones := [];
    }

    /** `onLogin`: an invalid form is only marked touched; a valid one clears the previous
        error and sends the credentials. */
    method OnLogin(c: Credenciales)
      modifies this
      ensures !FormularioValido(c) ==>
        tocado && solicitudes == old(solicitudes) && loginError == old(loginError)
      ensures FormularioValido(c) ==>
        solicitudes == old(solicitudes) + [c] && loginError.None? && tocado == old(tocado)
      ensures navegaciones == old(navegaciones)
    {
      if !FormularioValido(c) {
        tocado := true;
        return;
      }
      loginError := None;
      solicitudes := solicitudes + [c];
    }

    /** `redirigirSegunRol`: a known role goes to the dashboard, anything else (or no role)
        sets the error and goes nowhere. */
    method RedirigirSegunRol(rol: Option<string>)
      modifies this
      ensures RolConocido(rol) ==> navegaciones == old(navegaciones) + [RutaDashboard] && loginError == old(loginError)
      ensures !RolConocido(rol) ==> navegaciones == old(navegaciones) && loginError == Some(MensajeRolDesconocido)
      ensures solicitudes == old(solicitudes) && tocado == old(tocado)
    {
      if rol == Some("ADMIN") {
        navegaciones := navegaciones + [RutaDashboard];
      } else if rol == Some("MEDICO") {
        navegaciones := navegaciones + [RutaDashboard];
      } else if rol == Some("ENFERMERO") || rol == Some("TECNICO") {
        navegaciones := navegaciones + [RutaDashboard];
      } else {
        loginError := Some(MensajeRolDesconocido);
      }
    }

    /** The success callback, on the backend's text response: `authService.login` keeps it
        as the token if it looks like one, then a patient-page return URL is consumed and
        followed, or else the user is sent by role. `rol` is the role the session reports. */
    method AlIniciarSesion(respuesta: string, rol: Option<string>)
      modifies this, auth.storage
      ensures var tras := if PareceJwt(respuesta) && auth.isBrowser
                          then old(auth.storage.items)[TokenKey := respuesta] else old(auth.storage.items);
              var returnUrl := old(auth.storage.GetItem(ClaveReturnUrl));
              && var destino := DestinoTrasLogin(returnUrl, rol);
              && navegaciones == old(navegaciones) + (if destino.Some? then [destino.value] else [])
              && (ReturnUrlValido(returnUrl) ==> auth.storage.items == tras - {ClaveReturnUrl})
              && (!ReturnUrlValido(returnUrl) ==> auth.storage.items == tras)
              && (destino.None? ==> loginError == Some(MensajeRolDesconocido))
              && (destino.Some? ==> loginError == old(loginError))
      ensures solicitudes == old(solicitudes) && tocado == old(tocado)
    {
      var _ := auth.Login(respuesta);
      var returnUrl := auth.storage.GetItem(ClaveReturnUrl);
      if returnUrl.Some? && returnUrl.value != [] && StartsWith(returnUrl.value, PrefijoRetorno) {
        auth.storage.RemoveItem(ClaveReturnUrl);
        navegaciones := navegaciones + [returnUrl.value];
      } else {
        RedirigirSegunRol(rol);
      }
    }

    /** The error callback. */
    method AlFallar(e: HttpError)
      modifies this
      ensures loginError == Some(MensajeErrorLogin(e))
      ensures navegaciones == old(navegaciones) && solicitudes == old(solicitudes) && tocado == old(tocado)
    {
      if e.status == 401 || e.status == 403 {
        loginError := Some(MensajeCredenciales);
      } else {
        loginError := Some(MensajeDeError(e, MensajeInesperado));
      }
    }
  }

  /** Every role the backend issues leads to the dashboard when no return URL applies. */
  lemma RolesDelSistemaAlDashboard(r: UsuarioModelo.Role, returnUrl: Option<string>)
    requires !ReturnUrlValido(returnUrl)
    ensures DestinoTrasLogin(returnUrl, Some(UsuarioModelo.NombreRol(r))) == Some(RutaDashboard)
  {
  }
}
