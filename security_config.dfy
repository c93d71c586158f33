/** `config/SecurityConfig.java`: the ordered authorization rules of `securityFilterChain`.
    Spring tries the rules in declaration order and the first whose method and path match
    decides the request. */
module ConfiguracionSeguridad {
  import opened Wrappers
  import opened Texto
  import opened UsuarioModelo

  datatype Metodo = GET | POST | PUT | DELETE | PATCH

  /** A request-matcher path pattern: a literal path, a base with the double-star suffix
      (the base itself or anything below it), or `anyRequest()`. */
  datatype Patron = Exacto(ruta: string) | Bajo(base: string) | Cualquiera

  predicate CoincidePatron(p: Patron, ruta: string) {
    match p
    case Exacto(r) => ruta == r
    case Bajo(b) => ruta == b || StartsWith(ruta, b + "/")
    case Cualquiera => true
  }

  /** What a rule demands: nothing, one of some roles, or any authenticated user. */
  datatype Acceso = PermitirTodos | AlgunRol(roles: seq<Role>) | Autenticado

  /** A rule: an optional HTTP method (none: every method), a path pattern, an access. */
  datatype Regla = Regla(metodo: Option<Metodo>, patron: Patron, acceso: Acceso)

  predicate Aplica(r: Regla, m: Metodo, ruta: string) {
    (r.metodo.None? || r.metodo.value == m) && CoincidePatron(r.patron, ruta)
  }

  /** The rule list, in declaration order. */
  const Reglas: seq<Regla> := [
    Regla(None, Bajo("/api/auth"), PermitirTodos),
    Regla(Some(POST), Exacto("/api/pacientes"), AlgunRol([ADMIN, MEDICO])),
    Regla(Some(PUT), Bajo("/api/pacientes"), AlgunRol([ADMIN, MEDICO])),
    Regla(Some(DELETE), Bajo("/api/pacientes"), AlgunRol([ADMIN, MEDICO])),
    Regla(Some(GET), Bajo("/api/pacientes"), AlgunRol([ADMIN, MEDICO, ENFERMERO])),
    Regla(Some(GET), Exacto("/api/pacientes"), AlgunRol([ADMIN, MEDICO, ENFERMERO])),
    Regla(None, Bajo("/api/usuarios"), AlgunRol([ADMIN])),
    Regla(None, Cualquiera, Autenticado)
  ]

  /** The index of the first rule of `reglas` at or after `desde` that applies; `|reglas|`
      when none does. */
  function PrimeraQueAplica(reglas: seq<Regla>, m: Metodo, ruta: string, desde: nat): (r: nat)
    requires desde <= |reglas|
    ensures desde <= r <= |reglas|
    ensures r < |reglas| ==> Aplica(reglas[r], m, ruta)
    ensures forall j :: desde <= j < r ==> !Aplica(reglas[j], m, ruta)
    decreases |reglas| - desde
  {
    if desde == |reglas| then |reglas|
    else if Aplica(reglas[desde], m, ruta) then desde
    else PrimeraQueAplica(reglas, m, ruta, desde + 1)
  }

  /** The rule that decides a request: the first one that applies. There always is one,
      since the last rule applies to everything. */
  function ReglaDecisiva(m: Metodo, ruta: string): (i: nat)
    ensures i < |Reglas| && Aplica(Reglas[i], m, ruta)
    ensures forall j :: 0 <= j < i ==> !Aplica(Reglas[j], m, ruta)
  {
    assert Aplica(Reglas[7], m, ruta);
    PrimeraQueAplica(Reglas, m, ruta, 0)
  }

  /** Whether an access rule admits a request whose authentication carries `auth` (None: an
      anonymous request). `hasAnyRole(X, …)` looks for an authority "ROLE_X". */
  predicate Admite(a: Acceso, auth: Option<seq<string>>) {
    match a
    case PermitirTodos => true
    case Autenticado => auth.Some?
    case AlgunRol(roles) =>
      auth.Some? && exists i :: 0 <= i < |roles| && PrefijoRol + NombreRol(roles[i]) in auth.value
  }

  /** The decision for a request. */
  predicate Autorizado(m: Metodo, ruta: string, auth: Option<seq<string>>) {
    Admite(Reglas[ReglaDecisiva(m, ruta)].acceso, auth)
  }

  /** For an authenticated user, a role rule admits exactly the users holding one of its
      roles. */
  lemma {:induction false} AdmiteUsuario(roles: seq<Role>, u: Usuario)
    requires u.rol.Some?
    ensures Admite(AlgunRol(roles), Some(Authorities(u))) <==> u.rol.value in roles
  {
    if u.rol.value in roles {
      var i :| 0 <= i < |roles| && roles[i] == u.rol.value;
      assert PrefijoRol + NombreRol(roles[i]) in Authorities(u);
    }
    if Admite(AlgunRol(roles), Some(Authorities(u))) {
      var i :| 0 <= i < |roles| && PrefijoRol + NombreRol(roles[i]) in Authorities(u);
      AuthorityIdentificaRol(u, roles[i]);
    }
  }

  /** Paths below "/api/pacientes" (the collection and its members). */
  predicate RutaPacientes(ruta: string) {
    ruta == "/api/pacientes" || StartsWith(ruta, "/api/pacientes/")
  }

  /** A path below "/api/pacientes" matches neither the auth nor the user rules. */
  lemma RutaPacientesNoEsAuthNiUsuarios(ruta: string)
    requires RutaPacientes(ruta)
    ensures !CoincidePatron(Bajo("/api/auth"), ruta)
    ensures !CoincidePatron(Bajo("/api/usuarios"), ruta)
  {
    assert ruta[5] == 'p';
  }

  /** Everything under "/api/auth" is open to every request, anonymous or not. */
  lemma AuthAbierto(m: Metodo, ruta: string, auth: Option<seq<string>>)
    requires CoincidePatron(Bajo("/api/auth"), ruta)
    ensures ReglaDecisiva(m, ruta) == 0 && Autorizado(m, ruta, auth)
  {
  }

  /** Creating a patient (POST to the collection) is for ADMIN and MEDICO only. */
  lemma CrearPacienteSoloAdminOMedico(u: Usuario)
    requires u.rol.Some?
    ensures Autorizado(POST, "/api/pacientes", Some(Authorities(u))) <==> u.rol.value in {ADMIN, MEDICO}
    ensures !Autorizado(POST, "/api/pacientes", None)
  {
    RutaPacientesNoEsAuthNiUsuarios("/api/pacientes");
    assert ReglaDecisiva(POST, "/api/pacientes") == 1;
    AdmiteUsuario([ADMIN, MEDICO], u);
  }

  /** Updating or deleting anything below "/api/pacientes" is for ADMIN and MEDICO only. */
  lemma ModificarPacienteSoloAdminOMedico(m: Metodo, ruta: string, u: Usuario)
    requires m == PUT || m == DELETE
    requires RutaPacientes(ruta) && u.rol.Some?
    ensures Autorizado(m, ruta, Some(Authorities(u))) <==> u.rol.value in {ADMIN, MEDICO}
    ensures !Autorizado(m, ruta, None)
  {
    RutaPacientesNoEsAuthNiUsuarios(ruta);
    assert !Aplica(Reglas[1], m, ruta);
    assert ReglaDecisiva(m, ruta) == if m == PUT then 2 else 3;
    AdmiteUsuario([ADMIN, MEDICO], u);
  }

  /** Reading patients is for ADMIN, MEDICO and ENFERMERO: a TECNICO is refused. */
  lemma ConsultarPacientes(ruta: string, u: Usuario)
    requires RutaPacientes(ruta) && u.rol.Some?
    ensures Autorizado(GET, ruta, Some(Authorities(u))) <==> u.rol.value in {ADMIN, MEDICO, ENFERMERO}
    ensures u.rol == Some(TECNICO) ==> !Autorizado(GET, ruta, Some(Authorities(u)))
    ensures !Autorizado(GET, ruta, None)
  {
    RutaPacientesNoEsAuthNiUsuarios(ruta);
    assert ReglaDecisiva(GET, ruta) == 4;
    AdmiteUsuario([ADMIN, MEDICO, ENFERMERO], u);
  }

  /** The second GET rule, on the bare collection path, never decides anything: the
      double-star rule before it already matches that path. */
  lemma SegundaReglaGetSombreada(m: Metodo, ruta: string)
    ensures ReglaDecisiva(m, ruta) != 5
  {
    if Aplica(Reglas[5], m, ruta) {
      assert Aplica(Reglas[4], m, ruta);
    }
  }

  /** Every method on the user administration paths is for ADMIN only. */
  lemma UsuariosSoloAdmin(m: Metodo, ruta: string, u: Usuario)
    requires CoincidePatron(Bajo("/api/usuarios"), ruta) && u.rol.Some?
    ensures Autorizado(m, ruta, Some(Authorities(u))) <==> u.rol == Some(ADMIN)
    ensures !Autorizado(m, ruta, None)
  {
    ReglaDeUsuarios(m, ruta);
    AdmiteUsuario([ADMIN], u);
  }

  /** The user administration paths are decided by the seventh rule, the first that
      mentions them. */
  lemma ReglaDeUsuarios(m: Metodo, ruta: string)
    requires CoincidePatron(Bajo("/api/usuarios"), ruta)
    ensures ReglaDecisiva(m, ruta) == 6
  {
    assert ruta[5] == 'u';
    forall j | 0 <= j < 6 ensures !Aplica(Reglas[j], m, ruta) {
      AntesDeUsuarios(m, ruta, j);
    }
  }

  /** No rule before the seventh matches a path whose sixth character is 'u'. */
  lemma AntesDeUsuarios(m: Metodo, ruta: string, j: nat)
    requires |ruta| > 5 && ruta[5] == 'u' && j < 6
    ensures !Aplica(Reglas[j], m, ruta)
  {
  }

  /** A request no earlier rule matches, such as the QR image "/api/qr/{id}", needs an
      authenticated user of any role and nothing more. */
  lemma RestoSoloAutenticado(m: Metodo, ruta: string, auth: Option<seq<string>>)
    requires forall j :: 0 <= j < 7 ==> !Aplica(Reglas[j], m, ruta)
    ensures ReglaDecisiva(m, ruta) == 7
    ensures Autorizado(m, ruta, auth) <==> auth.Some?
  {
  }

  /** The QR path is one of those. */
  lemma QrSoloAutenticado(id: string, auth: Option<seq<string>>)
    ensures Autorizado(GET, "/api/qr/" + id, auth) <==> auth.Some?
  {
    var ruta := "/api/qr/" + id;
    assert ruta[5] == 'q';
    assert !RutaPacientes(ruta);
    assert !CoincidePatron(Bajo("/api/auth"), ruta);
    assert !CoincidePatron(Bajo("/api/usuarios"), ruta);
    RestoSoloAutenticado(GET, ruta, auth);
  }

  /** A POST below the collection path (not to the collection itself) is decided by the
      catch-all rule: the POST rule names only the bare path. */
  lemma PostBajoPacientesSoloAutenticado(x: string, auth: Option<seq<string>>)
    ensures Autorizado(POST, "/api/pacientes/" + x, auth) <==> auth.Some?
  {
    var ruta := "/api/pacientes/" + x;
    assert ruta[..|"/api/pacientes/"|] == "/api/pacientes/";
    RutaPacientesNoEsAuthNiUsuarios(ruta);
    assert |ruta| != |"/api/pacientes"|;
    RestoSoloAutenticado(POST, ruta, auth);
  }
}
