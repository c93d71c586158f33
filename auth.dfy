/** `auth/auth.ts`: the client's session, a token kept in the browser's `localStorage`
    under "authToken". Outside a browser (server-side rendering) nothing is stored. */
module AuthCliente {
  import opened Wrappers
  import opened Texto

  /** The browser's `localStorage`: a string-to-string dictionary shared by the page. */
  class LocalStorage {
    var items: map<string, string>

    constructor (inicial: map<string, string>)
      ensures items == inicial
    {
      items := inicial;
    }

    /** `getItem(key)`: the stored value, or null. */
    function GetItem(key: string): (r: Option<string>)
      reads this
      ensures r.Some? <==> key in items
      ensures r.Some? ==> r.value == items[key]
    {
      if key in items then Some(items[key]) else None
    }

    /** `setItem(key, value)`. */
    method SetItem(key: string, value: string)
      modifies this
      ensures items == old(items)[key := value]
    {
      items := items[key := value];
    }

    /** `removeItem(key)`. */
    method RemoveItem(key: string)
      modifies this
      ensures items == old(items) - {key}
    {
      items := items - {key};
    }
  }

  const TokenKey: string := "authToken"

  /** The prefix every JSON Web Token has (the base64 of `{"`). */
  const PrefijoJwt: string := "ey"

  /** `AuthResponse`. */
  datatype AuthResponse = AuthResponse(token: string)

  /** Whether `login` keeps a response as the token: a string starting with "ey" (which
      is then also truthy). */
  predicate PareceJwt(respuesta: string) {
    StartsWith(respuesta, PrefijoJwt)
  }

  class AuthService {
    /** `isPlatformBrowser(platformId)`, fixed when the service is created. */
    const isBrowser: bool
    const storage: LocalStorage

    constructor (isBrowser: bool, storage: LocalStorage)
      ensures this.isBrowser == isBrowser && this.storage == storage
    {
      this.isBrowser := isBrowser;
      this.storage := storage;
    }

    /** `obtenerToken`: the stored token in a browser, null otherwise. */
    function ObtenerToken(): (r: Option<string>)
      reads this, storage
      ensures !isBrowser ==> r.None?
      ensures isBrowser ==> r == storage.GetItem(TokenKey)
    {
      if isBrowser then storage.GetItem(TokenKey) else None
    }

    /** `estaLogueado`: a non-empty token is stored. */
    predicate EstaLogueado()
      reads this, storage
    {
      var t := ObtenerToken();
      t.Some? && t.value != []
    }

    /** `guardarToken`: in a browser, the token becomes the one `obtenerToken` returns and
        no other entry changes; outside a browser, nothing changes. */
    method GuardarToken(token: string)
      modifies storage
      ensures isBrowser ==> storage.items == old(storage.items)[TokenKey := token]
      ensures isBrowser ==> ObtenerToken() == Some(token)
      ensures !isBrowser ==> storage.items == old(storage.items)
    {
      if isBrowser {
        storage.SetItem(TokenKey, token);
      }
    }

    /** `logout`: in a browser, no token remains and the session is over; outside a
        browser, nothing changes. */
    method Logout()
      modifies storage
      ensures isBrowser ==> storage.items == old(storage.items) - {TokenKey}
      ensures ObtenerToken().None? && !EstaLogueado()
      ensures !isBrowser ==> storage.items == old(storage.items)
    {
      if isBrowser {
        storage.RemoveItem(TokenKey);
      }
    }

    /** `login`, on the backend's text response: keeps it as the token only when it looks
        like a JWT (otherwise the stored token stays as it was), and always answers
        `{token: response}`. */
    method Login(respuesta: string) returns (r: AuthResponse)
      modifies storage
      ensures r.token == respuesta
      ensures PareceJwt(respuesta) && isBrowser ==>
        storage.items == old(storage.items)[TokenKey := respuesta] && EstaLogueado()
      ensures !PareceJwt(respuesta) || !isBrowser ==> storage.items == old(storage.items)
    {
      if respuesta != [] && StartsWith(respuesta, PrefijoJwt) {
        GuardarToken(respuesta);
      }
      r := AuthResponse(respuesta);
    }
  }
}
