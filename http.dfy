/** The pieces of Angular's `HttpClient` the components see: an outgoing request and the
    `HttpErrorResponse` an error callback receives, with JavaScript's truthiness. */
module Http {
  import opened Wrappers

  /** An outgoing request: method, URL, headers and (text) body. */
  datatype HttpRequest = HttpRequest(metodo: string, url: string, headers: map<string, string>,
                                     body: Option<string>)

  /** The `error` field of an error response: nothing, a text body, or a JSON object that
      may carry a `message`. */
  datatype ErrorBody = SinCuerpo | CuerpoTexto(texto: string) | CuerpoJson(message: Option<string>)

  /** `HttpErrorResponse`: `status` is 0 when no response arrived. */
  datatype HttpError = HttpError(status: nat, error: ErrorBody, message: Option<string>)

  /** JavaScript truthiness of a string that may be null: present and non-empty. */
  predicate Truthy(s: Option<string>) {
    s.Some? && s.value != []
  }

  /** `a || b` on an optional string and a fallback. */
  function OrElse(a: Option<string>, b: string): (r: string)
    ensures Truthy(a) ==> r == a.value
    ensures !Truthy(a) ==> r == b
  {
    if Truthy(a) then a.value else b
  }

  /** `error.error.message`, or nothing when the body is not an object with one. */
  function MensajeDelCuerpo(e: HttpError): Option<string> {
    if e.error.CuerpoJson? then e.error.message else None
  }

  /** `error?.error?.message || error?.message || porDefecto`: the first truthy of the
      body's message and the response's message, else the fallback. */
  function MensajeDeError(e: HttpError, porDefecto: string): (r: string)
    ensures Truthy(MensajeDelCuerpo(e)) ==> r == MensajeDelCuerpo(e).value
    ensures !Truthy(MensajeDelCuerpo(e)) && Truthy(e.message) ==> r == e.message.value
    ensures !Truthy(MensajeDelCuerpo(e)) && !Truthy(e.message) ==> r == porDefecto
    ensures porDefecto != [] ==> r != []
  {
    OrElse(MensajeDelCuerpo(e), OrElse(e.message, porDefecto))
  }
}
