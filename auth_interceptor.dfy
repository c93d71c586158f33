/** `auth/auth-interceptor.ts`: every outgoing request passes through `authInterceptor`,
    which adds the bearer header when a token is stored. */
module InterceptorAuth {
  import opened Wrappers
  import opened Http
  import opened AuthCliente
  import FiltroJwt

  const CabeceraAuthorization: string := "Authorization"

  /** The request handed to `next` (exactly one per call) when the stored token is
      `token`: a truthy token adds "Authorization: Bearer <token>" and changes nothing
      else; a missing or empty token forwards the original request. */
  function Interceptar(req: HttpRequest, token: Option<string>): (r: HttpRequest)
    ensures r.metodo == req.metodo && r.url == req.url && r.body == req.body
    ensures forall h :: h in req.headers && h != CabeceraAuthorization ==>
      h in r.headers && r.headers[h] == req.headers[h]
    ensures r.headers.Keys <= req.headers.Keys + {CabeceraAuthorization}
    ensures Truthy(token) ==> CabeceraAuthorization in r.headers
                              && r.headers[CabeceraAuthorization] == FiltroJwt.PrefijoBearer + token.value
    ensures !Truthy(token) ==> r == req
  {
    if Truthy(token)
    then req.(headers := req.headers[CabeceraAuthorization := "Bearer " + token.value])
    else req
  }

  /** `authInterceptor` as the application runs it: the token comes from `obtenerToken`. */
  function AuthInterceptor(req: HttpRequest, auth: AuthService): (r: HttpRequest)
    reads auth, auth.storage
    ensures auth.EstaLogueado() ==>
      && CabeceraAuthorization in r.headers
      && r.headers[CabeceraAuthorization] == FiltroJwt.PrefijoBearer + auth.ObtenerToken().value
    ensures !auth.EstaLogueado() ==> r == req
  {
    Interceptar(req, auth.ObtenerToken())
  }

  /** The header the client writes is the header the backend filter reads: its
      `substring(7)` gives back exactly the stored token. */
  lemma CabeceraIdaYVuelta(req: HttpRequest, token: string)
    requires token != []
    ensures var r := Interceptar(req, Some(token));
      FiltroJwt.ExtraerToken(r.headers[CabeceraAuthorization]) == Some(token)
  {
    FiltroJwt.ExtraerTokenInverso(token);
  }
}
