/** `controller/auth/AuthController.java`: registration and login, each answering with a
    signed token (represented by its claims). */
module ControladorAuth {
  import opened Wrappers
  import opened UsuarioModelo
  import opened UsuarioServicio
  import opened JwtServicio

  /** `AuthRequest`: every field may be missing from the JSON body. */
  datatype AuthRequest = AuthRequest(email: Option<string>, password: Option<string>,
                                     nombre: Option<string>, apellido: Option<string>,
                                     rol: Option<Role>)

  datatype Cuerpo = Mensaje(texto: string) | Token(claims: Claims)

  /** What a call produces: a response, or an exception that escapes the controller. */
  datatype Salida =
    | Respuesta(status: nat, cuerpo: Cuerpo)
    | CredencialesInvalidas                // thrown by `authenticate`
    | UsuarioPerdido(mensaje: string)      // the lookup after authentication found nobody
    | FalloAlGuardar(error: ErrorUsuario)  // thrown by `guardar`

  const MensajeFaltanDatos: string := "Faltan datos obligatorios para el registro (email, password, rol)."
  const MensajeUsuarioPerdido: string := "Usuario no encontrado después de autenticación exitosa."

  /** The required-field check of `register`. */
  predicate DatosCompletos(req: AuthRequest) {
    req.email.Some? && req.password.Some? && req.rol.Some?
  }

  /** The user `register` builds: no id, the request's names, email and role, and the
      password already encoded once. */
  function UsuarioNuevo(req: AuthRequest, encodedPassword: string): (u: Usuario)
    ensures u.idUsuario.None? && u.password == Some(encodedPassword)
    ensures u.nombre == req.nombre && u.apellido == req.apellido
    ensures u.email == req.email && u.rol == req.rol
  {
    Usuario(None, req.nombre, req.apellido, req.email, Some(encodedPassword), req.rol)
  }

  /** `register`. `salControlador` and `salServicio` are the salts of the two encodings:
      the controller's own and the one inside `guardar`. */
  method Register(req: AuthRequest, usuarios: UsuarioServicio.Servicio, jwt: JwtServicio.Servicio,
                  encode: Codificador, salControlador: nat, salServicio: nat,
                  correoFalla: bool, now: int)
    returns (salida: Salida)
    requires usuarios.Valid()
    modifies usuarios
    ensures usuarios.Valid()
    ensures !DatosCompletos(req) ==>
      && salida == Respuesta(400, Mensaje(MensajeFaltanDatos))
      && usuarios.usuarios == old(usuarios.usuarios) && usuarios.bienvenidas == old(usuarios.bienvenidas)
    ensures DatosCompletos(req) ==>
      // The stored password is the encoding of the encoding of what was sent, and the
      // empty password is not refused: `guardar` only sees its non-empty encoding.
      var doble := encode(salServicio, encode(salControlador, req.password.value));
      && (salida.FalloAlGuardar? ==> usuarios.usuarios == old(usuarios.usuarios))
      // The welcome mail is attempted before the save, so even a failing save mails it,
      // unless the mail server fails.
      && usuarios.bienvenidas == old(usuarios.bienvenidas)
           + (if correoFalla then [] else [Bienvenida(req.email, req.nombre)])
      && (salida.FalloAlGuardar? || salida.Respuesta?)
      // Saving fails exactly when the email is already taken (the unique constraint).
      && (salida.FalloAlGuardar? <==> old(usuarios.EmailRegistrado(req.email.value)))
      && (salida.Respuesta? ==>
            exists k :: k !in old(usuarios.usuarios) &&
              var guardado := Usuario(Some(k), req.nombre, req.apellido, req.email, Some(doble), req.rol);
              && usuarios.usuarios == old(usuarios.usuarios)[k := guardado]
              && salida == Respuesta(200, Token(ClaimsDeToken(map[], guardado, now, jwt.jwtExpiration))))
  {
    if req.email.None? || req.password.None? || req.rol.None? {
      return Respuesta(400, Mensaje(MensajeFaltanDatos));
    }
    var encodedPassword := encode(salControlador, req.password.value);
    var nuevoUsuario := UsuarioNuevo(req, encodedPassword);
    ghost var codificado := nuevoUsuario.(password := Some(encode(salServicio, encodedPassword)));
    assert usuarios.ClaveDeGuardado(codificado) == usuarios.siguienteId;
    assert usuarios.Rechazada(codificado, usuarios.siguienteId) <==> usuarios.EmailRegistrado(req.email.value);
    var guardado := usuarios.Guardar(nuevoUsuario, encode, salServicio, correoFalla);
    if guardado.Err? {
      return FalloAlGuardar(guardado.error);
    }
    var k := guardado.value.idUsuario.value;
    assert k == old(usuarios.siguienteId) && k !in old(usuarios.usuarios);
    assert guardado.value == Usuario(Some(k), req.nombre, req.apellido, req.email,
      Some(encode(salServicio, encodedPassword)), req.rol);
    var token := jwt.GenerateToken(guardado.value, now);
    return Respuesta(200, Token(token));
  }

  /** `login`. `autenticado` is the verdict of `authenticationManager.authenticate` on the
      request's credentials; only after it succeeds is the user looked up and a token
      issued. */
  method Login(req: AuthRequest, autenticado: bool, usuarios: UsuarioServicio.Servicio,
               jwt: JwtServicio.Servicio, now: int)
    returns (salida: Salida)
    requires usuarios.Valid()
    ensures !autenticado ==> salida == CredencialesInvalidas
    ensures autenticado && req.email.Some? && usuarios.EmailRegistrado(req.email.value) ==>
      exists k :: k in usuarios.usuarios && usuarios.usuarios[k].email == req.email &&
        salida == Respuesta(200, Token(ClaimsDeToken(map[], usuarios.usuarios[k], now, jwt.jwtExpiration)))
    ensures autenticado && (req.email.None? || !usuarios.EmailRegistrado(req.email.value)) ==>
      salida == UsuarioPerdido(MensajeUsuarioPerdido)
  {
    if !autenticado {
      return CredencialesInvalidas;
    }
    if req.email.None? {
      return UsuarioPerdido(MensajeUsuarioPerdido);
    }
    var usuario := usuarios.LoadUserByUsername(req.email.value);
    if usuario.Err? {
      return UsuarioPerdido(MensajeUsuarioPerdido);
    }
    var k := usuario.value.idUsuario.value;
    assert usuarios.usuarios[k] == usuario.value && usuario.value.rol.Some?;
    var token := jwt.GenerateToken(usuario.value, now);
    return Respuesta(200, Token(token));
  }

  /** A token returned by `login` is valid for the user it was issued to until it expires,
      is refused by the parser afterwards, and names that user's role. */
  lemma TokenDeLoginValido(u: Usuario, now: int, jwtExpiration: int, t: int)
    requires u.rol.Some? && u.email.Some?
    ensures var c := ClaimsDeToken(map[], u, now, jwtExpiration);
      && c.subject.Some?
      && (IsTokenValid(c, u, t) == Some(true) <==> t <= now + jwtExpiration)
      && (IsTokenValid(c, u, t).None? <==> t > now + jwtExpiration)
      && c.custom[ClaveRoles] == ListaCadenas([PrefijoRol + NombreRol(u.rol.value)])
  {
    TokenValidoHastaExpirar(map[], u, u, now, jwtExpiration, t);
  }
}
