/** `service/JwtService.java`: which claims a token carries and when a token is valid for a
    user. Signing and parsing are left abstract: a token is represented by its claims. */
module JwtServicio {
  import opened Wrappers
  import opened UsuarioModelo

  /** A custom claim value: the role list this service writes, or a caller-supplied text. */
  datatype ValorClaim = ListaCadenas(items: seq<string>) | Cadena(s: string)

  /** A token's body: the custom claims, `sub`, `iat` and `exp` (milliseconds). */
  datatype Claims = Claims(custom: map<string, ValorClaim>, subject: Option<string>,
                           issuedAt: int, expiration: int)

  const ClaveRoles: string := "roles"

  /** The body `generateToken(extraClaims, userDetails)` signs at clock `now`: the caller's
      claims with "roles" set to the user's authorities (overwriting a caller-supplied
      "roles"), the username as subject, and an expiration `jwtExpiration` after issue. */
  function ClaimsDeToken(extra: map<string, ValorClaim>, u: Usuario, now: int, jwtExpiration: int): (c: Claims)
    requires u.rol.Some?
    ensures ClaveRoles in c.custom && c.custom[ClaveRoles] == ListaCadenas(Authorities(u))
    ensures c.custom.Keys == extra.Keys + {ClaveRoles}
    ensures forall k :: k in extra && k != ClaveRoles ==> c.custom[k] == extra[k]
    ensures c.subject == Username(u)
    ensures c.issuedAt == now && c.expiration - c.issuedAt == jwtExpiration
  {
    Claims(extra[ClaveRoles := ListaCadenas(Authorities(u))], Username(u), now, now + jwtExpiration)
  }

  /** `isTokenExpired`: the expiration lies strictly before `now`. */
  predicate IsTokenExpired(c: Claims, now: int) {
    c.expiration < now
  }

  /** What parsing a signed token yields at clock `now`: a signature or format failure, an
      expired token (the parser throws instead of returning its claims), or the claims. */
  datatype Parseo = Ilegible | Expirado | Leido(claims: Claims)

  /** `extractAllClaims`: `decode` stands for checking the signature and reading the body
      (None: it fails); the parser then refuses a body whose expiration lies before `now`. */
  function ParseClaimsJws(decode: string -> Option<Claims>, jwt: string, now: int): (p: Parseo)
    ensures p.Ilegible? <==> decode(jwt).None?
    ensures p.Expirado? <==> decode(jwt).Some? && IsTokenExpired(decode(jwt).value, now)
    ensures p.Leido? ==> Some(p.claims) == decode(jwt) && !IsTokenExpired(p.claims, now)
  {
    match decode(jwt)
    case None => Ilegible
    case Some(c) => if IsTokenExpired(c, now) then Expirado else Leido(c)
  }

  /** `isTokenValid`: Some(b) when the token still parses, b telling whether its subject
      names this user; None when it has expired, because reading the subject throws
      before the expiry test is reached, so an expired token is never answered `false`.
      A token without a subject makes the Java call throw as well, so a subject is
      required. */
  function IsTokenValid(c: Claims, u: Usuario, now: int): (r: Option<bool>)
    requires c.subject.Some?
    ensures r.None? <==> IsTokenExpired(c, now)
    ensures r == Some(true) <==> Some(c.subject.value) == Username(u) && !IsTokenExpired(c, now)
  {
    if IsTokenExpired(c, now) then None else Some(Some(c.subject.value) == Username(u))
  }

  /** The caller's claims map, which `generateToken` writes "roles" into. */
  class MapaClaims {
    var entradas: map<string, ValorClaim>

    constructor (inicial: map<string, ValorClaim>)
      ensures entradas == inicial
    {
      entradas := inicial;
    }
  }

  class Servicio {
    /** `jwt.expiration`, the lifetime of a token in milliseconds. */
    const jwtExpiration: int

    constructor (jwtExpiration: int)
      ensures this.jwtExpiration == jwtExpiration
    {
      this.jwtExpiration := jwtExpiration;
    }

    /** `generateToken(extraClaims, userDetails)`: puts "roles" into the caller's own map
        (the change is visible to the caller afterwards) and returns the body it signs. */
    method GenerateTokenCon(extra: MapaClaims, u: Usuario, now: int) returns (token: Claims)
      requires u.rol.Some?
      modifies extra
      ensures extra.entradas == old(extra.entradas)[ClaveRoles := ListaCadenas(Authorities(u))]
      ensures token == ClaimsDeToken(old(extra.entradas), u, now, jwtExpiration)
    {
      var roles := Authorities(u);
      extra.entradas := extra.entradas[ClaveRoles := ListaCadenas(roles)];
      token := Claims(extra.entradas, Username(u), now, now + jwtExpiration);
    }

    /** `generateToken(userDetails)`: starts from a fresh empty map, so "roles" is the only
        custom claim. */
    method GenerateToken(u: Usuario, now: int) returns (token: Claims)
      requires u.rol.Some?
      ensures token.custom == map[ClaveRoles := ListaCadenas(Authorities(u))]
      ensures token.subject == Username(u) && token.expiration == now + jwtExpiration
      ensures token == ClaimsDeToken(map[], u, now, jwtExpiration)
    {
      var extra := new MapaClaims(map[]);
      token := GenerateTokenCon(extra, u, now);
    }
  }

  /** A token issued to a user with an email is valid for that user up to its expiration
      instant and throws from then on (it is never answered `false` for its own user); for a
      user with another email it is answered `false` while it has not expired. */
  lemma TokenValidoHastaExpirar(extra: map<string, ValorClaim>, u: Usuario, otro: Usuario,
                                now: int, jwtExpiration: int, t: int)
    requires u.rol.Some? && u.email.Some?
    ensures ClaimsDeToken(extra, u, now, jwtExpiration).subject.Some?
    ensures t <= now + jwtExpiration ==> IsTokenValid(ClaimsDeToken(extra, u, now, jwtExpiration), u, t) == Some(true)
    ensures t > now + jwtExpiration ==> IsTokenValid(ClaimsDeToken(extra, u, now, jwtExpiration), u, t).None?
    ensures otro.email != u.email && t <= now + jwtExpiration ==>
              IsTokenValid(ClaimsDeToken(extra, u, now, jwtExpiration), otro, t) == Some(false)
  {
  }

  /** The role claim of any token lists exactly one authority, naming the user's role. */
  lemma RolesDelToken(extra: map<string, ValorClaim>, u: Usuario, now: int, jwtExpiration: int)
    requires u.rol.Some?
    ensures var roles := ClaimsDeToken(extra, u, now, jwtExpiration).custom[ClaveRoles];
            roles.ListaCadenas? && |roles.items| == 1 && RolDeAuthority(roles.items[0]) == u.rol
  {
    AuthorityIdentificaRol(u, u.rol.value);
  }
}
