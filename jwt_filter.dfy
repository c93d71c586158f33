/** `security/JwtAuthenticationFilter.java`: reading the bearer token of a request and, when
    it names a stored user and is valid for them, authenticating the request. */
module FiltroJwt {
  import opened Wrappers
  import opened Texto
  import opened UsuarioModelo
  import opened UsuarioServicio
  import opened JwtServicio

  const PrefijoBearer: string := "Bearer "

  /** The token after the "Bearer " prefix (`substring(7)`), or nothing when the header does
      not start with that prefix. */
  function ExtraerToken(header: string): (r: Option<string>)
    ensures r.Some? <==> StartsWith(header, PrefijoBearer)
    ensures r.Some? ==> header == PrefijoBearer + r.value
  {
    if StartsWith(header, PrefijoBearer) then Some(header[|PrefijoBearer|..]) else None
  }

  /** A header built as "Bearer " + t yields exactly t. */
  lemma ExtraerTokenInverso(t: string)
    ensures ExtraerToken(PrefijoBearer + t) == Some(t)
  {
    assert (PrefijoBearer + t)[..|PrefijoBearer|] == PrefijoBearer;
    assert (PrefijoBearer + t)[|PrefijoBearer|..] == t;
  }

  /** The authentication placed in the security context: the loaded user as principal,
      with the user's own authorities. */
  datatype Autenticacion = Autenticacion(principal: Usuario, authorities: seq<string>)

  /** How a call ends: the chain was continued, or an exception escaped (a token that does
      not parse, a token that has expired, or a subject no stored user has). */
  datatype Fin = Continuada | TokenIlegible | TokenExpirado | SinUsuario(error: ErrorUsuario)

  class Filtro {
    /** `SecurityContextHolder.getContext().getAuthentication()` for this request. */
    var autenticacion: Option<Autenticacion>
    /** How many times `filterChain.doFilter` was called. */
    var llamadasCadena: nat

    constructor (inicial: Option<Autenticacion>)
      ensures autenticacion == inicial && llamadasCadena == 0
    {
      autenticacion := inicial;
      llamadasCadena := 0;
    }

    /** `doFilterInternal`. `decode` stands for checking the signature and reading the body
        of the signed token (None: it fails), `now` for the clock, read once per request.
        `cargado` is the user the filter loaded, if it got that far. */
    method DoFilterInternal(header: Option<string>, decode: string -> Option<Claims>,
                            usuarios: UsuarioServicio.Servicio, now: int)
      returns (fin: Fin, cargado: Option<Usuario>)
      requires usuarios.Valid()
      modifies this
      // Every path that does not throw continues the chain exactly once.
      ensures fin == Continuada ==> llamadasCadena == old(llamadasCadena) + 1
      ensures fin != Continuada ==> llamadasCadena == old(llamadasCadena) && autenticacion == old(autenticacion)
      // No bearer header: pass on, authenticate nobody.
      ensures header.None? || ExtraerToken(header.value).None? ==>
        fin == Continuada && cargado.None? && autenticacion == old(autenticacion)
      // A bearer token that does not parse, or has expired: reading its subject throws.
      ensures header.Some? && ExtraerToken(header.value).Some? ==>
        var p := ParseClaimsJws(decode, ExtraerToken(header.value).value, now);
        && (fin == TokenIlegible <==> p.Ilegible?)
        && (fin == TokenExpirado <==> p.Expirado?)
      // A live token with a subject, while nobody is authenticated: the subject's user is
      // loaded, and the only way to fail is that no stored user has that email.
      ensures header.Some? && ExtraerToken(header.value).Some? ==>
        var p := ParseClaimsJws(decode, ExtraerToken(header.value).value, now);
        p.Leido? && p.claims.subject.Some? && old(autenticacion).None? ==>
          && (fin.SinUsuario? <==> !usuarios.EmailRegistrado(p.claims.subject.value))
          && (fin.SinUsuario? ==>
                fin.error == NombreUsuarioNoEncontrado("Usuario no encontrado con email: " + p.claims.subject.value))
          && (!fin.SinUsuario? ==> fin == Continuada && cargado.Some?)
      // A live token without a subject, or a request already authenticated: nothing is
      // loaded and the context is left alone.
      ensures header.Some? && ExtraerToken(header.value).Some? ==>
        var p := ParseClaimsJws(decode, ExtraerToken(header.value).value, now);
        p.Leido? && (p.claims.subject.None? || old(autenticacion).Some?) ==>
          fin == Continuada && cargado.None? && autenticacion == old(autenticacion)
      // A user is loaded only for a subject while the context is still unauthenticated,
      // and it is the stored user with that email.
      ensures cargado.Some? ==>
        && header.Some? && ExtraerToken(header.value).Some?
        && var p := ParseClaimsJws(decode, ExtraerToken(header.value).value, now);
        && p.Leido? && p.claims.subject.Some? && old(autenticacion).None?
        && cargado.value.email == p.claims.subject
        && cargado.value.idUsuario.Some? && cargado.value.idUsuario.value in usuarios.usuarios
        && usuarios.usuarios[cargado.value.idUsuario.value] == cargado.value
      // The context changes only from empty, to the loaded user with their authorities,
      // when the token is valid for that user; an existing authentication is never replaced.
      ensures autenticacion != old(autenticacion) ==>
        && old(autenticacion).None? && cargado.Some? && cargado.value.rol.Some?
        && autenticacion == Some(Autenticacion(cargado.value, Authorities(cargado.value)))
      ensures cargado.Some? && fin == Continuada ==>
        var c := ParseClaimsJws(decode, ExtraerToken(header.value).value, now).claims;
        (autenticacion.Some? <==> IsTokenValid(c, cargado.value, now) == Some(true))
    {
      cargado := None;
      if header.None? || !StartsWith(header.value, PrefijoBearer) {
        llamadasCadena := llamadasCadena + 1;
        return Continuada, cargado;
      }
      var jwt := header.value[|PrefijoBearer|..];
      var claims := ParseClaimsJws(decode, jwt, now);
      if claims.Ilegible? {
        return TokenIlegible, cargado;
      }
      if claims.Expirado? {
        return TokenExpirado, cargado;
      }
      var userEmail := claims.claims.subject;
      if userEmail.Some? && autenticacion.None? {
        var userDetails := usuarios.LoadUserByUsername(userEmail.value);
        if userDetails.Err? {
          return SinUsuario(userDetails.error), cargado;
        }
        cargado := Some(userDetails.value);
        assert usuarios.Valid();
        var k := userDetails.value.idUsuario.value;
        assert k in usuarios.usuarios;
        assert usuarios.usuarios[k].rol.Some?;
        if IsTokenValid(claims.claims, userDetails.value, now) == Some(true) {
          var authToken := Autenticacion(userDetails.value, Authorities(userDetails.value));
          autenticacion := Some(authToken);
        }
      }
      llamadasCadena := llamadasCadena + 1;
      return Continuada, cargado;
    }
  }
}
