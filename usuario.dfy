/** `model/postgres/Usuario.java` and `Role.java`: the user entity and what it reports to
    Spring Security as a `UserDetails`. */
module UsuarioModelo {
  import opened Wrappers
  import opened Texto

  datatype Role = ADMIN | MEDICO | ENFERMERO | TECNICO

  /** `Role.name()`. */
  function NombreRol(r: Role): (s: string)
    ensures s != [] && HasNoLower(s)
  {
    match r
    case ADMIN => "ADMIN"
    case MEDICO => "MEDICO"
    case ENFERMERO => "ENFERMERO"
    case TECNICO => "TECNICO"
  }

  predicate HasNoLower(s: string) {
    forall i :: 0 <= i < |s| ==> !('a' <= s[i] <= 'z')
  }

  /** `Role.valueOf`: the role with that exact name, if any. */
  function RolDeNombre(s: string): (r: Option<Role>)
    ensures r.Some? ==> NombreRol(r.value) == s
  {
    if s == "ADMIN" then Some(ADMIN)
    else if s == "MEDICO" then Some(MEDICO)
    else if s == "ENFERMERO" then Some(ENFERMERO)
    else if s == "TECNICO" then Some(TECNICO)
    else None
  }

  /** Role names are distinct and read back: `valueOf(name())` is the identity. */
  lemma NombreRolInyectivo(r: Role)
    ensures RolDeNombre(NombreRol(r)) == Some(r)
  {
  }

  /** A user row. `email`, `password` and `rol` are NOT NULL columns, `email` is unique;
      the Java object may still hold nulls before it is saved. */
  datatype Usuario = Usuario(
    idUsuario: Option<int>,
    nombre: Option<string>,
    apellido: Option<string>,
    email: Option<string>,
    password: Option<string>,
    rol: Option<Role>)

  const PrefijoRol: string := "ROLE_"

  /** `getAuthorities`: exactly one authority, "ROLE_" followed by the role's name. Needs a
      role: with a null `rol` the Java call throws. */
  function Authorities(u: Usuario): (r: seq<string>)
    requires u.rol.Some?
    ensures |r| == 1 && StartsWith(r[0], PrefijoRol)
    ensures r[0][|PrefijoRol|..] == NombreRol(u.rol.value)
  {
    [PrefijoRol + NombreRol(u.rol.value)]
  }

  /** The role behind an authority string, if it is a role authority. */
  function RolDeAuthority(a: string): Option<Role> {
    if StartsWith(a, PrefijoRol) then RolDeNombre(a[|PrefijoRol|..]) else None
  }

  /** The single authority names the user's role and no other. */
  lemma AuthorityIdentificaRol(u: Usuario, r: Role)
    requires u.rol.Some?
    ensures RolDeAuthority(Authorities(u)[0]) == u.rol
    ensures Authorities(u)[0] == PrefijoRol + NombreRol(r) <==> u.rol == Some(r)
  {
    NombreRolInyectivo(u.rol.value);
    if Authorities(u)[0] == PrefijoRol + NombreRol(r) {
      assert NombreRol(r) == (PrefijoRol + NombreRol(r))[|PrefijoRol|..];
      NombreRolInyectivo(r);
    }
  }

  /** `getUsername`: the email is the login name. */
  function Username(u: Usuario): (r: Option<string>)
    ensures r == u.email
  {
    u.email
  }

  /** The four account flags Spring Security checks; this system never expires, locks or
      disables an account. */
  datatype Flags = Flags(accountNonExpired: bool, accountNonLocked: bool,
                         credentialsNonExpired: bool, enabled: bool)

  function EstadoCuenta(u: Usuario): (f: Flags)
    ensures f.accountNonExpired && f.accountNonLocked && f.credentialsNonExpired && f.enabled
  {
    Flags(true, true, true, true)
  }
}
