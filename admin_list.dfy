/** `admin/admin-list/admin-list.ts`: the administrator's user table, with its search
    box, the role badge class, password change and deletion. Browser dialogs are the
    user's answers, given as parameters; alerts are recorded in order. */
module ListaUsuarios {
  import opened Wrappers
  import opened Texto
  import opened Listas
  import opened Busqueda
  import UsuarioModelo

  const MensajePasswordVacia: string := "La contraseña no puede estar vacía."
  const MensajeErrorCambio: string := "Error al cambiar la contraseña. Inténtalo de nuevo."
  const PrefijoCambioHecho: string := "Contraseña cambiada exitosamente para "
  const RutaDashboard: string := "/dashboard"
  const ClaseDefecto: string := "rol-default"

  /** A user as the administrator's list receives it. */
  datatype UsuarioVista = UsuarioVista(idUsuario: int, nombre: string, apellido: string,
                                       email: string, rol: string)

  /** The requests the list sends to the users API. */
  datatype Peticion = ListarUsuarios | CambiarPasswordDe(id: int, password: string)
                    | EliminarUsuarioDe(id: int)

  /** The row test for a lower-cased filter: nombre, apellido, email or rol contains it,
      ignoring case. */
  predicate Coincide(u: UsuarioVista, filtro: string) {
    TextoContiene(u.nombre, filtro) || TextoContiene(u.apellido, filtro)
    || TextoContiene(u.email, filtro) || TextoContiene(u.rol, filtro)
  }

  /** `filtrarUsuarios`: a blank filter shows every user; any other filter is lower-cased
      (not trimmed) and keeps exactly the matching users, each as often as it occurs. */
  function Filtrado(usuarios: seq<UsuarioVista>, filtroBusqueda: string): (r: seq<UsuarioVista>)
    ensures IsBlank(filtroBusqueda) ==> r == usuarios
    ensures !IsBlank(filtroBusqueda) ==>
      forall u: UsuarioVista ::
        multiset(r)[u] == if Coincide(u, ToLower(filtroBusqueda)) then multiset(usuarios)[u] else 0
  {
    TrimProperties(filtroBusqueda);
    if Trim(filtroBusqueda) == [] then usuarios
    else
      var filtro := ToLower(filtroBusqueda);
      Filtrar(usuarios, u => Coincide(u, filtro))
  }

  /** The filtered users keep the order of the full list. */
  lemma FiltradoEsSubsecuencia(usuarios: seq<UsuarioVista>, filtroBusqueda: string)
    ensures EsSubsecuencia(Filtrado(usuarios, filtroBusqueda), usuarios)
  {
    if IsBlank(filtroBusqueda) {
      SubsecuenciaReflexiva(usuarios);
    } else {
      var filtro := ToLower(filtroBusqueda);
      FiltrarEsSubsecuencia(usuarios, u => Coincide(u, filtro));
    }
  }

  /** Typing more characters after a non-blank filter can only remove rows. */
  lemma FiltradoSeEstrecha(usuarios: seq<UsuarioVista>, filtroBusqueda: string, mas: string)
    requires !IsBlank(filtroBusqueda)
    ensures EsSubsecuencia(Filtrado(usuarios, filtroBusqueda + mas), Filtrado(usuarios, filtroBusqueda))
  {
    NoBlankConcat(filtroBusqueda, mas);
    var largo := ToLower(filtroBusqueda + mas);
    var corto := ToLower(filtroBusqueda);
    forall u | Coincide(u, largo) ensures Coincide(u, corto) {
      if TextoContiene(u.nombre, largo) {
        TextoContieneMasLargo(u.nombre, filtroBusqueda, mas);
      }
      if TextoContiene(u.apellido, largo) {
        TextoContieneMasLargo(u.apellido, filtroBusqueda, mas);
      }
      if TextoContiene(u.email, largo) {
        TextoContieneMasLargo(u.email, filtroBusqueda, mas);
      }
      if TextoContiene(u.rol, largo) {
        TextoContieneMasLargo(u.rol, filtroBusqueda, mas);
      }
    }
    FiltrarMasEstricto(usuarios, u => Coincide(u, largo), u => Coincide(u, corto));
  }

  /** `getRolClass`: the badge class of a role name, whatever its case; "rol-default" for
      anything that is not one of the four roles. */
  function GetRolClass(rol: string): (r: string)
    ensures r != ClaseDefecto <==> UsuarioModelo.RolDeNombre(ToUpper(rol)).Some?
  {
    match ToUpper(rol)
    case "ADMIN" => "rol-admin"
    case "MEDICO" => "rol-medico"
    case "ENFERMERO" => "rol-enfermero"
    case "TECNICO" => "rol-tecnico"
    case _ => ClaseDefecto
  }

  /** Every role the backend issues gets its own class, "rol-" and its lower-case name,
      and the class does not depend on how the name is cased. */
  lemma RolClassDeRoles(r: UsuarioModelo.Role, rol: string)
    requires ToUpper(rol) == UsuarioModelo.NombreRol(r)
    ensures GetRolClass(rol) == "rol-" + ToLower(UsuarioModelo.NombreRol(r))
    ensures GetRolClass(ToLower(rol)) == GetRolClass(rol)
  {
    ToUpperToLower(rol);
    MinusculasDeRol(r);
    match r
    case ADMIN => assert "rol-" + "admin" == "rol-admin";
    case MEDICO => assert "rol-" + "medico" == "rol-medico";
    case ENFERMERO => assert "rol-" + "enfermero" == "rol-enfermero";
    case TECNICO => assert "rol-" + "tecnico" == "rol-tecnico";
  }

  /** The lower-case names of the four roles. */
  lemma MinusculasDeRol(r: UsuarioModelo.Role)
    ensures ToLower(UsuarioModelo.NombreRol(r)) ==
      match r
      case ADMIN => "admin"
      case MEDICO => "medico"
      case ENFERMERO => "enfermero"
      case TECNICO => "tecnico"
  {
    match r
    case ADMIN => assert ToLower("ADMIN") == "admin";
    case MEDICO => assert ToLower("MEDICO") == "medico";
    case ENFERMERO => assert ToLower("ENFERMERO") == "enfermero";
    case TECNICO => assert ToLower("TECNICO") == "tecnico";
  }

  class ComponenteAdmin {
    var usuarios: seq<UsuarioVista>
    var usuariosFiltrados: seq<UsuarioVista>
    /** The search box's text (two-way bound). */
    var filtroBusqueda: string
    /** Requests sent, oldest first. */
    var peticiones: seq<Peticion>
    /** Alert dialogs shown, oldest first. */
    var alertas: seq<string>
    /** Router navigations (as route segments), oldest first. */
    var navegaciones: seq<seq<string>>

    /** What the table shows is always drawn, in order, from the loaded users. */
    ghost predicate Valid()
      reads this
    {
      EsSubsecuencia(usuariosFiltrados, usuarios)
    }

    constructor ()
      ensures Valid()
      ensures usuarios == [] && usuariosFiltrados == [] && filtroBusqueda == []
      ensures peticiones == [] && alertas == [] && navegaciones == []
    {
      usuarios := [];
      usuariosFiltrados := [];
      filtroBusqueda := [];
      peticiones := [];
      alertas := [];
      navegaciones := [];
    }

    /** `cargarUsuarios` (what `ngOnInit` does): one list request. */
    method CargarUsuarios()
      modifies this
      requires Valid()
      ensures Valid()
      ensures peticiones == old(peticiones) + [ListarUsuarios]
      ensures usuarios == old(usuarios) && usuariosFiltrados == old(usuariosFiltrados)
      ensures filtroBusqueda == old(filtroBusqueda) && alertas == old(alertas)
      ensures navegaciones == old(navegaciones)
    {
      peticiones := peticiones + [ListarUsuarios];
    }

    /** The list's success callback: both lists become the fetched list, even when the
        search box holds a filter. (Its error callback only logs.) */
    method AlCargarUsuarios(recibidos: seq<UsuarioVista>)
      modifies this
      ensures Valid()
      ensures usuarios == recibidos && usuariosFiltrados == recibidos
      ensures filtroBusqueda == old(filtroBusqueda) && peticiones == old(peticiones)
      ensures alertas == old(alertas) && navegaciones == old(navegaciones)
    {
      usuarios := recibidos;
      usuariosFiltrados := recibidos;
      SubsecuenciaReflexiva(recibidos);
    }

    /** The user types in the search box. */
    method EscribirFiltro(texto: string)
      modifies this
      requires Valid()
      ensures Valid()
      ensures filtroBusqueda == texto
      ensures usuarios == old(usuarios) && usuariosFiltrados == old(usuariosFiltrados)
      ensures peticiones == old(peticiones) && alertas == old(alertas)
      ensures navegaciones == old(navegaciones)
    {
      filtroBusqueda := texto;
    }

    /** `filtrarUsuarios`, on the current search text. */
    method FiltrarUsuarios()
      modifies this
      ensures Valid()
      ensures usuariosFiltrados == Filtrado(usuarios, filtroBusqueda)
      ensures unchanged(this`usuarios, this`filtroBusqueda, this`peticiones, this`alertas,
                        this`navegaciones)
    {
      usuariosFiltrados := Filtrado(usuarios, filtroBusqueda);
      FiltradoEsSubsecuencia(usuarios, filtroBusqueda);
    }

    /** `verUsuario`: an alert with the user's details. */
    method VerUsuario(u: UsuarioVista)
      modifies this
      requires Valid()
      ensures Valid()
      ensures alertas == old(alertas) + ["Detalles del usuario:\n\nNombre: " + u.nombre + " " + u.apellido
                                         + "\nEmail: " + u.email + "\nRol: " + u.rol]
      ensures usuarios == old(usuarios) && usuariosFiltrados == old(usuariosFiltrados)
      ensures filtroBusqueda == old(filtroBusqueda) && peticiones == old(peticiones)
      ensures navegaciones == old(navegaciones)
    {
      alertas := alertas + ["Detalles del usuario:\n\nNombre: " + u.nombre + " " + u.apellido
                            + "\nEmail: " + u.email + "\nRol: " + u.rol];
    }

    /** `cambiarPassword`, given the prompt's answer (None: cancelled) and the answer to
        the confirmation, which is asked only for a non-blank password. A cancelled prompt
        does nothing; a blank answer is refused with an alert and no request; otherwise,
        once confirmed, the trimmed password is sent for that user's id. */
    method CambiarPassword(u: UsuarioVista, respuesta: Option<string>, confirma: bool)
      modifies this
      requires Valid()
      ensures Valid()
      ensures respuesta.None? ==> peticiones == old(peticiones) && alertas == old(alertas)
      ensures respuesta.Some? && IsBlank(respuesta.value) ==>
        peticiones == old(peticiones) && alertas == old(alertas) + [MensajePasswordVacia]
      ensures respuesta.Some? && !IsBlank(respuesta.value) ==>
        && alertas == old(alertas)
        && peticiones == old(peticiones) +
             (if confirma then [CambiarPasswordDe(u.idUsuario, Trim(respuesta.value))] else [])
      ensures usuarios == old(usuarios) && usuariosFiltrados == old(usuariosFiltrados)
      ensures filtroBusqueda == old(filtroBusqueda) && navegaciones == old(navegaciones)
    {
      match respuesta
      case None =>
      case Some(nuevaPassword) =>
        TrimProperties(nuevaPassword);
        if nuevaPassword != [] && Trim(nuevaPassword) != [] {
          if confirma {
            peticiones := peticiones + [CambiarPasswordDe(u.idUsuario, Trim(nuevaPassword))];
          }
        } else {
          alertas := alertas + [MensajePasswordVacia];
        }
    }

    /** The password change's success callback. */
    method AlCambiarPassword(u: UsuarioVista)
      modifies this
      requires Valid()
      ensures Valid()
      ensures alertas == old(alertas) + [PrefijoCambioHecho + u.nombre + " " + u.apellido]
      ensures usuarios == old(usuarios) && usuariosFiltrados == old(usuariosFiltrados)
      ensures filtroBusqueda == old(filtroBusqueda) && peticiones == old(peticiones)
      ensures navegaciones == old(navegaciones)
    {
      alertas := alertas + [PrefijoCambioHecho + u.nombre + " " + u.apellido];
    }

    /** The password change's error callback. */
    method AlFallarCambioPassword()
      modifies this
      requires Valid()
      ensures Valid()
      ensures alertas == old(alertas) + [MensajeErrorCambio]
      ensures usuarios == old(usuarios) && usuariosFiltrados == old(usuariosFiltrados)
      ensures filtroBusqueda == old(filtroBusqueda) && peticiones == old(peticiones)
      ensures navegaciones == old(navegaciones)
    {
      alertas := alertas + [MensajeErrorCambio];
    }

    /** `eliminarUsuario`, given the answer to the confirmation: the request is sent only
        when confirmed. */
    method EliminarUsuario(u: UsuarioVista, confirma: bool)
      modifies this
      requires Valid()
      ensures Valid()
      ensures peticiones == old(peticiones) + (if confirma then [EliminarUsuarioDe(u.idUsuario)] else [])
      ensures usuarios == old(usuarios) && usuariosFiltrados == old(usuariosFiltrados)
      ensures filtroBusqueda == old(filtroBusqueda) && alertas == old(alertas)
      ensures navegaciones == old(navegaciones)
    {
      if confirma {
        peticiones := peticiones + [EliminarUsuarioDe(u.idUsuario)];
      }
    }

    /** The deletion's success callback reloads the list from the server; nothing is
        removed locally. (Its error callback only logs.) */
    method AlEliminarUsuario()
      modifies this
      requires Valid()
      ensures Valid()
      ensures peticiones == old(peticiones) + [ListarUsuarios]
      ensures usuarios == old(usuarios) && usuariosFiltrados == old(usuariosFiltrados)
      ensures filtroBusqueda == old(filtroBusqueda) && alertas == old(alertas)
      ensures navegaciones == old(navegaciones)
    {
      CargarUsuarios();
    }

    method VolverAlDashboard()
      modifies this
      requires Valid()
      ensures Valid()
      ensures navegaciones == old(navegaciones) + [[RutaDashboard]]
      ensures usuarios == old(usuarios) && usuariosFiltrados == old(usuariosFiltrados)
      ensures filtroBusqueda == old(filtroBusqueda) && peticiones == old(peticiones)
      ensures alertas == old(alertas)
    {
      navegaciones := navegaciones + [[RutaDashboard]];
    }
  }

  /** A password change request never carries an empty or untrimmed password: whatever
      the prompt returned, what reaches the server is its non-blank trimmed form. */
  lemma PasswordEnviadaLimpia(respuesta: string)
    requires !IsBlank(respuesta)
    ensures Trim(respuesta) != [] && IsTrimmed(Trim(respuesta))
    ensures Trim(Trim(respuesta)) == Trim(respuesta)
  {
    TrimProperties(respuesta);
    TrimIdempotent(respuesta);
  }
}
