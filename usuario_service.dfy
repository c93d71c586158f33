/** `service/UsuarioService.java`: saving users with their password encoded, changing a
    password, deleting, and the lookup by email Spring Security uses to authenticate. */
module UsuarioServicio {
  import opened Wrappers
  import opened UsuarioModelo

  /** `PasswordEncoder.encode`. BCrypt draws a fresh salt on every call, so the encoder
      takes the salt as an argument and nothing is assumed about it except that the hash
      it produces is a non-empty string. */
  type Codificador = f: (nat, string) -> string | forall sal, raw :: f(sal, raw) != []
    witness (sal: nat, raw: string) => "$2a$"

  /** The exceptions this service lets escape. */
  datatype ErrorUsuario =
    | ArgumentoIlegal(mensaje: string)      // IllegalArgumentException from `guardar`
    | ViolacionRestriccion                  // the database rejects the row (NOT NULL, UNIQUE)
    | UsuarioNoEncontrado                   // RuntimeException from `cambiarPassword`
    | NombreUsuarioNoEncontrado(mensaje: string)   // UsernameNotFoundException

  const MensajeSinPasswordNuevo: string := "La contraseña no puede estar vacía para un nuevo usuario."
  const MensajeSinPasswordActualizacion: string := "La contraseña no puede estar vacía o nula."

  /** One welcome mail handed to the mail server: recipient and the name it greets. */
  datatype Bienvenida = Bienvenida(destinatario: Option<string>, nombre: Option<string>)

  /** Whether `guardar` accepts the password it is given: present and non-empty. */
  predicate PasswordAceptable(p: Option<string>) {
    p.Some? && p.value != []
  }

  /** The exception `guardar` throws for a missing password: the message depends only on
      whether the user is new (no id yet). */
  function ErrorSinPassword(u: Usuario): (e: ErrorUsuario)
    ensures e.ArgumentoIlegal?
    ensures e.mensaje == MensajeSinPasswordNuevo <==> u.idUsuario.None?
  {
    if u.idUsuario.None? then ArgumentoIlegal(MensajeSinPasswordNuevo)
    else ArgumentoIlegal(MensajeSinPasswordActualizacion)
  }

  class Servicio {
    /** The `usuarios` table, by `id_usuario`. */
    var usuarios: map<int, Usuario>
    /** The next value of the IDENTITY column. */
    var siguienteId: int
    /** Every welcome mail that went out, oldest first. */
    var bienvenidas: seq<Bienvenida>

    /** The table's constraints: each row carries its own key, which the IDENTITY column
        issued before; `email`, `password` and `rol` are not null; `email` is unique. */
    ghost predicate Valid()
      reads this
    {
      && (forall k :: k in usuarios ==> k < siguienteId && usuarios[k].idUsuario == Some(k))
      && (forall k :: k in usuarios ==>
            usuarios[k].email.Some? && usuarios[k].password.Some? && usuarios[k].rol.Some?)
      && (forall a, b :: a in usuarios && b in usuarios && a != b ==> usuarios[a].email != usuarios[b].email)
    }

    /** Whether some stored user has this email. */
    ghost predicate EmailRegistrado(email: string)
      reads this
    {
      exists k :: k in usuarios && usuarios[k].email == Some(email)
    }

    constructor ()
      ensures Valid() && usuarios == map[] && bienvenidas == []
    {
      usuarios := map[];
      siguienteId := 1;
      bienvenidas := [];
    }

    /** Whether the database would reject `u` as the row for key `k`: a NOT NULL column
        is null, or another row already has its email. */
    predicate Rechazada(u: Usuario, k: int)
      reads this
    {
      || u.email.None? || u.password.None? || u.rol.None?
      || (exists j :: j in usuarios && j != k && usuarios[j].email == u.email)
    }

    /** The key `usuarioRepository.save` writes to: the user's own id when that row exists
        (an update), a freshly issued IDENTITY value otherwise. */
    function ClaveDeGuardado(u: Usuario): (k: int)
      reads this
      requires Valid()
      ensures k in usuarios || k == siguienteId
      ensures u.idUsuario.Some? && u.idUsuario.value in usuarios ==> k == u.idUsuario.value
    {
      if u.idUsuario.Some? && u.idUsuario.value in usuarios then u.idUsuario.value else siguienteId
    }

    /** `usuarioRepository.save`: writes the row under `ClaveDeGuardado`, or fails on a
        constraint and writes nothing. */
    method Persistir(u: Usuario) returns (r: Result<Usuario, ErrorUsuario>)
      requires Valid()
      modifies this
      ensures Valid()
      ensures bienvenidas == old(bienvenidas)
      ensures old(Rechazada(u, ClaveDeGuardado(u))) ==>
        r == Err(ViolacionRestriccion) && usuarios == old(usuarios) && siguienteId == old(siguienteId)
      ensures !old(Rechazada(u, ClaveDeGuardado(u))) ==>
        && r == Ok(u.(idUsuario := Some(old(ClaveDeGuardado(u)))))
        && usuarios == old(usuarios)[old(ClaveDeGuardado(u)) := r.value]
    {
      var k := ClaveDeGuardado(u);
      if Rechazada(u, k) {
        return Err(ViolacionRestriccion);
      }
      var guardado := u.(idUsuario := Some(k));
      usuarios := usuarios[k := guardado];
      if k == siguienteId {
        siguienteId := siguienteId + 1;
      }
      return Ok(guardado);
    }

    /** `guardar`: a missing or empty password is refused, with nothing mailed or stored.
        Otherwise the password is replaced by its encoding, the welcome mail is attempted
        (`correoFalla` says the mail server failed; that failure is swallowed) and then the
        user is saved. */
    method Guardar(u: Usuario, encode: Codificador, sal: nat, correoFalla: bool)
      returns (r: Result<Usuario, ErrorUsuario>)
      requires Valid()
      modifies this
      ensures Valid()
      ensures !PasswordAceptable(u.password) ==>
        && r == Err(ErrorSinPassword(u))
        && usuarios == old(usuarios) && bienvenidas == old(bienvenidas)
      ensures PasswordAceptable(u.password) ==>
        var codificado := u.(password := Some(encode(sal, u.password.value)));
        && bienvenidas == old(bienvenidas) + (if correoFalla then [] else [Bienvenida(u.email, u.nombre)])
        && (old(Rechazada(codificado, ClaveDeGuardado(codificado))) ==>
              r == Err(ViolacionRestriccion) && usuarios == old(usuarios))
        && (!old(Rechazada(codificado, ClaveDeGuardado(codificado))) ==>
              var k := old(ClaveDeGuardado(codificado));
              r == Ok(codificado.(idUsuario := Some(k))) && usuarios == old(usuarios)[k := r.value])
    {
      if !PasswordAceptable(u.password) {
        return Err(ErrorSinPassword(u));
      }
      var codificado := u.(password := Some(encode(sal, u.password.value)));
      if !correoFalla {
        bienvenidas := bienvenidas + [Bienvenida(codificado.email, codificado.nombre)];
      }
      r := Persistir(codificado);
    }

    /** `cambiarPassword`: fails on an unknown id and changes nothing; otherwise stores the
        encoding of the new password on that user and leaves every other row as it was. No
        welcome mail: the row is saved directly. */
    method CambiarPassword(id: int, nueva: string, encode: Codificador, sal: nat)
      returns (r: Result<Usuario, ErrorUsuario>)
      requires Valid()
      modifies this
      ensures Valid()
      ensures bienvenidas == old(bienvenidas)
      ensures id !in old(usuarios) ==> r == Err(UsuarioNoEncontrado) && usuarios == old(usuarios)
      ensures id in old(usuarios) ==>
        && r == Ok(old(usuarios)[id].(password := Some(encode(sal, nueva))))
        && usuarios == old(usuarios)[id := r.value]
    {
      if id !in usuarios {
        return Err(UsuarioNoEncontrado);
      }
      var usuario := usuarios[id];
      usuario := usuario.(password := Some(encode(sal, nueva)));
      assert !Rechazada(usuario, id);
      r := Persistir(usuario);
    }

    /** `eliminarUsuario`: removes that id and nothing else. */
    method EliminarUsuario(id: int)
      requires Valid()
      modifies this
      ensures Valid()
      ensures usuarios == old(usuarios) - {id}
      ensures bienvenidas == old(bienvenidas)
    {
      usuarios := usuarios - {id};
    }

    /** `loadUserByUsername` (and `buscarPorEmail`): the stored user with that email, or
        UsernameNotFoundException when there is none. */
    method LoadUserByUsername(email: string) returns (r: Result<Usuario, ErrorUsuario>)
      requires Valid()
      ensures r.Ok? <==> EmailRegistrado(email)
      ensures r.Ok? ==> r.value.idUsuario.Some? && r.value.idUsuario.value in usuarios
                        && usuarios[r.value.idUsuario.value] == r.value && r.value.email == Some(email)
      ensures r.Err? ==> r == Err(NombreUsuarioNoEncontrado("Usuario no encontrado con email: " + email))
      // What is loaded logs in under the email asked for, with an account Spring accepts.
      ensures r.Ok? ==> Username(r.value) == Some(email) && EstadoCuenta(r.value) == Flags(true, true, true, true)
    {
      if k :| k in usuarios && usuarios[k].email == Some(email) {
        return Ok(usuarios[k]);
      }
      return Err(NombreUsuarioNoEncontrado("Usuario no encontrado con email: " + email));
    }
  }

  /** A user saved with a password can then be loaded by its email, and what is loaded is
      the saved row: same role, and the password's encoding instead of the password. */
  method GuardarYCargar(s: Servicio, u: Usuario, encode: Codificador, sal: nat, correoFalla: bool)
    returns (guardado: Result<Usuario, ErrorUsuario>, cargado: Result<Usuario, ErrorUsuario>)
    requires s.Valid() && u.email.Some?
    modifies s
    ensures s.Valid()
    ensures guardado.Ok? ==> cargado == guardado
    ensures guardado.Ok? ==> u.password.Some? && cargado.Ok?
                             && cargado.value.password == Some(encode(sal, u.password.value))
                             && cargado.value.rol == u.rol
  {
    guardado := s.Guardar(u, encode, sal, correoFalla);
    cargado := s.LoadUserByUsername(u.email.value);
    if guardado.Ok? {
      var k := guardado.value.idUsuario.value;
      assert s.usuarios[k].email == Some(u.email.value);
      var j := cargado.value.idUsuario.value;
      assert s.usuarios[j].email == s.usuarios[k].email;
    }
  }
}
