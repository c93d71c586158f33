/** `dashboard/dashboard.ts`: the welcome line, the role checks that decide which actions
    are offered, and logout. */
module DashboardComponente {
  import opened Wrappers
  import opened Texto
  import opened Http
  import opened AuthCliente
  import UsuarioModelo
  import ConfiguracionSeguridad

  /** `s.charAt(0).toUpperCase() + s.slice(1).toLowerCase()`. */
  function Capitalizar(s: string): (r: string)
    requires s != []
    ensures |r| == |s|
    ensures r[0] == UpperChar(s[0]) && r[1..] == ToLower(s[1..])
  {
    [UpperChar(s[0])] + ToLower(s[1..])
  }

  /** The capitalised form does not depend on the case the role was written in. */
  lemma {:induction false} CapitalizarIgnoraMayusculas(s: string)
    requires s != []
    ensures Capitalizar(ToLower(s)) == Capitalizar(s)
  {
    ToLowerIdempotent(s[1..]);
    assert ToLower(s)[1..] == ToLower(s[1..]);
  }

  /** The welcome line: the capitalised role, a space and the name when both are truthy,
      "Usuario" otherwise. */
  function MensajeBienvenida(rol: Option<string>, nombre: Option<string>): (r: string)
    ensures Truthy(rol) && Truthy(nombre) ==>
      r == Capitalizar(rol.value) + " " + nombre.value
    ensures !(Truthy(rol) && Truthy(nombre)) ==> r == "Usuario"
  {
    if Truthy(rol) && Truthy(nombre) then Capitalizar(rol.value) + " " + nombre.value
    else "Usuario"
  }

  /** The backend's role names come out with only their first letter upper-case. */
  lemma BienvenidaDeRoles(nombre: string)
    requires nombre != []
    ensures MensajeBienvenida(Some("ADMIN"), Some(nombre)) == "Admin " + nombre
    ensures MensajeBienvenida(Some("MEDICO"), Some(nombre)) == "Medico " + nombre
    ensures MensajeBienvenida(Some("ENFERMERO"), Some(nombre)) == "Enfermero " + nombre
    ensures MensajeBienvenida(Some("TECNICO"), Some(nombre)) == "Tecnico " + nombre
  {
    CapitalizaAdmin();
    CapitalizaMedico();
    CapitalizaEnfermero();
    CapitalizaTecnico();
  }

  lemma CapitalizaAdmin()
    ensures Capitalizar("ADMIN") == "Admin"
  {
    var s := "ADMIN";
    assert s[1..] == "DMIN";
    assert ToLower("DMIN") == "dmin";
    assert UpperChar('A') == 'A';
    assert "Admin" == ['A'] + "dmin";
  }

  lemma CapitalizaMedico()
    ensures Capitalizar("MEDICO") == "Medico"
  {
    var s := "MEDICO";
    assert s[1..] == "EDICO";
    assert ToLower("EDICO") == "edico";
    assert UpperChar('M') == 'M';
    assert "Medico" == ['M'] + "edico";
  }

  lemma CapitalizaEnfermero()
    ensures Capitalizar("ENFERMERO") == "Enfermero"
  {
    var s := "ENFERMERO";
    assert s[1..] == "NFERMERO";
    assert ToLower("NFERMERO") == "nfermero";
    assert UpperChar('E') == 'E';
    assert "Enfermero" == ['E'] + "nfermero";
  }

  lemma CapitalizaTecnico()
    ensures Capitalizar("TECNICO") == "Tecnico"
  {
    var s := "TECNICO";
    assert s[1..] == "ECNICO";
    assert ToLower("ECNICO") == "ecnico";
    assert UpperChar('T') == 'T';
    assert "Tecnico" == ['T'] + "ecnico";
  }

  /** `puedeGestionarPacientes`, on the role the session reports. */
  predicate PuedeGestionar(rol: Option<string>) {
    rol == Some("MEDICO") || rol == Some("ADMIN")
  }

  /** `esAdmin`. */
  predicate EsAdministrador(rol: Option<string>) {
    rol == Some("ADMIN")
  }

  /** An administrator may also manage patients. */
  lemma AdminGestionaPacientes(rol: Option<string>)
    ensures EsAdministrador(rol) ==> PuedeGestionar(rol)
    ensures PuedeGestionar(rol) && !EsAdministrador(rol) ==> rol == Some("MEDICO")
  {
  }

  /** The dashboard offers patient management to exactly the users the backend lets create
      patients, and user administration to exactly those it lets reach "/api/usuarios". */
  lemma BotonesSegunBackend(u: UsuarioModelo.Usuario)
    requires u.rol.Some?
    ensures var rol := Some(UsuarioModelo.NombreRol(u.rol.value));
      && (PuedeGestionar(rol) <==>
            ConfiguracionSeguridad.Autorizado(ConfiguracionSeguridad.POST, "/api/pacientes",
                                              Some(UsuarioModelo.Authorities(u))))
      && (EsAdministrador(rol) <==>
            ConfiguracionSeguridad.Autorizado(ConfiguracionSeguridad.GET, "/api/usuarios",
                                              Some(UsuarioModelo.Authorities(u))))
  {
    ConfiguracionSeguridad.CrearPacienteSoloAdminOMedico(u);
    ConfiguracionSeguridad.UsuariosSoloAdmin(ConfiguracionSeguridad.GET, "/api/usuarios", u);
  }

  class Dashboard {
    const auth: AuthService
    var rolUsuario: Option<string>
    var nombreUsuario: Option<string>
    var mensajeBienvenida: string
    /** Router navigations, oldest first. */
    var navegaciones: seq<string>

    constructor (auth: AuthService)
      ensures this.auth == auth && rolUsuario.None? && nombreUsuario.None?
      ensures mensajeBienvenida == [] && navegaciones == []
    {
      this.auth := auth;
      rolUsuario := None;
      nombreUsuario := None;
      mensajeBienvenida := [];
      navegaciones := [];
    }

    /** `ngOnInit`, given the role and name the session reports. */
    method NgOnInit(rol: Option<string>, nombre: Option<string>)
      modifies this
      ensures rolUsuario == rol && nombreUsuario == nombre
      ensures mensajeBienvenida == MensajeBienvenida(rol, nombre)
      ensures navegaciones == old(navegaciones)
    {
      rolUsuario := rol;
      nombreUsuario := nombre;
      if rolUsuario.Some? && rolUsuario.value != [] && nombreUsuario.Some? && nombreUsuario.value != [] {
        var rolCapitalizado := [UpperChar(rolUsuario.value[0])] + ToLower(rolUsuario.value[1..]);
        mensajeBienvenida := rolCapitalizado + " " + nombreUsuario.value;
      } else {
        mensajeBienvenida := "Usuario";
      }
    }

    predicate PuedeGestionarPacientes()
      reads this
    {
      PuedeGestionar(rolUsuario)
    }

    predicate EsAdmin()
      reads this
    {
      EsAdministrador(rolUsuario)
    }

    /** `logout`: the session ends, then the login page is shown. */
    method Logout()
      modifies auth.storage, this
      ensures !auth.EstaLogueado()
      // Only the token entry goes, and only in a browser; `returnUrl` and the rest stay.
      ensures auth.isBrowser ==> auth.storage.items == old(auth.storage.items) - {TokenKey}
      ensures !auth.isBrowser ==> auth.storage.items == old(auth.storage.items)
      ensures navegaciones == old(navegaciones) + ["/auth/login"]
      ensures rolUsuario == old(rolUsuario) && nombreUsuario == old(nombreUsuario)
      ensures mensajeBienvenida == old(mensajeBienvenida)
    {
      auth.Logout();
      navegaciones := navegaciones + ["/auth/login"];
    }
  }
}
