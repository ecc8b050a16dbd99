/**
 * The access gate of chat/auth.go: a handler that wraps another one and lets
 * a request through only when it carries an `auth` cookie.
 *
 * A request is represented by what the gate looks at: what looking up its
 * `auth` cookie gives. The response the gate produces is an Outcome value
 * instead of writes to a ResponseWriter. `next` is any handler; handing the
 * request to it is represented by the Delegate outcome.
 */
module ChatAuth {

  /** 307 Temporary Redirect (section 15.4.8 of RFC 9110). */
  const StatusTemporaryRedirect: nat := 307

  /** 500 Internal Server Error (section 15.6.1 of RFC 9110). */
  const StatusInternalServerError: nat := 500

  /** Where a request without the cookie is sent. */
  const LoginPath: string := "/login"

  /** What `r.Cookie("auth")` gives: no such cookie, another error (with its text), or the cookie. */
  datatype CookieLookup = NoCookie | LookupError(text: string) | Found(value: string)

  /** A request to a guarded page: its target and the result of looking up its `auth` cookie. */
  datatype Request = Request(target: string, auth: CookieLookup)

  /** The gate: the handler that is called for requests that pass. */
  datatype AuthHandler<H> = AuthHandler(next: H)

  /**
   * What the gate does with one request: a redirect (status and Location
   * header), an error response (status and error text as the body), or
   * handing the request on to a handler, writing nothing itself.
   */
  datatype Outcome<H> =
    | Redirect(status: nat, location: string)
    | Failure(status: nat, text: string)
    | Delegate(handler: H, request: Request)

  /**
   * ServeHTTP: a missing cookie is checked first and sends the client to the
   * login page; any other lookup error is answered with 500 and the error's
   * text; otherwise, whatever the cookie's value, the request goes on to
   * `next` unchanged. Exactly one of the three happens.
   */
  function ServeHTTP<H>(g: AuthHandler<H>, req: Request): (o: Outcome<H>)
    ensures o.Redirect? <==> req.auth.NoCookie?
    ensures o.Redirect? ==> o.status == StatusTemporaryRedirect && o.location == LoginPath
    ensures o.Failure? <==> req.auth.LookupError?
    ensures o.Failure? ==> o.status == StatusInternalServerError && o.text == req.auth.text
    ensures o.Delegate? <==> req.auth.Found?
    ensures o.Delegate? ==> o.handler == g.next && o.request == req
  {
    if req.auth.NoCookie? then Redirect(StatusTemporaryRedirect, LoginPath)
    else if req.auth.LookupError? then Failure(StatusInternalServerError, req.auth.text)
    else Delegate(g.next, req)
  }

  /** MustAuth: the gate in front of handler. */
  function MustAuth<H>(handler: H): (g: AuthHandler<H>)
    ensures g.next == handler
  {
    AuthHandler(handler)
  }

  /**
   * A request with an `auth` cookie, whatever its value, reaches the wrapped
   * handler unchanged; every other request is answered by the gate itself.
   */
  lemma MustAuthGuards<H>(handler: H, req: Request)
    ensures req.auth.Found? ==> ServeHTTP(MustAuth(handler), req) == Delegate(handler, req)
    ensures !req.auth.Found? ==> !ServeHTTP(MustAuth(handler), req).Delegate?
  {
  }
}
