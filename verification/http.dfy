/** The slice of the Fiber request context the core touches: the request as
    an immutable value, and the response side as a recorder of what the
    middleware asked the framework to do, in order. */
module Http {
  import opened Wrappers
  import opened Text
  import opened Errors

  /** An incoming request. A header or cookie that is absent reads as "".
      Header names are matched without regard to ASCII case, as fasthttp
      normalises them, so `headers` is keyed by the lower-cased name;
      cookie names are matched exactly. */
  datatype Request = Request(
    verb: string,
    path: string,
    ip: string,
    headers: map<string, string>,
    cookies: map<string, string>)
  {
    /** ctx.Get(name): the request header's value, whatever the case of
        `name`. */
    function Get(name: string): (v: string)
      ensures ToLower(name) in headers ==> v == headers[ToLower(name)]
      ensures ToLower(name) !in headers ==> v == ""
    {
      if ToLower(name) in headers then headers[ToLower(name)] else ""
    }

    /** ctx.Cookies(name): the request cookie's value. */
    function Cookies(name: string): string
    {
      if name in cookies then cookies[name] else ""
    }
  }

  /** Two spellings of a header name that differ only in ASCII case read
      the same header; in particular an upper-cased name reads the header
      the name itself reads. */
  lemma {:induction false} GetIgnoresCase(req: Request, a: string, b: string)
    requires ToLower(a) == ToLower(b)
    ensures req.Get(a) == req.Get(b)
    ensures req.Get(ToUpper(a)) == req.Get(a)
  {
    LowerOfUpper(a);
  }

  /** The fiber.Cookie attributes the session copies from its configuration. */
  datatype CookieAttrs = CookieAttrs(
    secure: bool,
    domain: string,
    sameSite: string,
    path: string,
    maxAge: int,
    httpOnly: bool,
    sessionOnly: bool)

  /** `fiber.Cookie{}`: every attribute at its zero value. */
  const ZeroCookie := CookieAttrs(false, "", "", "", 0, false, false)

  /** A response cookie; `lifetime` is the duration added to the current
      time to give its Expires instant. */
  datatype Cookie = Cookie(name: string, value: string, lifetime: int, attrs: CookieAttrs)

  /** What a handler does to the response, in the order it does it. */
  datatype Event =
    | SetHeader(name: string, value: string)
    | AppendHeader(name: string, value: string)
    | SetCookie(cookie: Cookie)
    | StoreLocal(key: string)
    | CallNext
    | CallFail
    | Reply(status: int, body: string)

  /** A handler that is only known by what it returns for a request. */
  type Handler = Request -> Outcome<Error>

  const StatusInvalidToken := 419

  const ExposeHeaders := "Access-Control-Expose-Headers"
  const AllowHeaders := "Access-Control-Allow-Headers"

  class Ctx {
    const req: Request
    var events: seq<Event>

    constructor (req: Request)
      ensures this.req == req && events == []
    {
      this.req := req;
      events := [];
    }

    /** ctx.Set: sets a response header. */
    method Set(name: string, value: string)
      modifies this
      ensures events == old(events) + [SetHeader(name, value)]
    {
      events := events + [SetHeader(name, value)];
    }

    /** ctx.Append: adds a value to a response header. */
    method Append(name: string, value: string)
      modifies this
      ensures events == old(events) + [AppendHeader(name, value)]
    {
      events := events + [AppendHeader(name, value)];
    }

    /** ctx.Cookie: sets a response cookie. */
    method SetCookie(c: Cookie)
      modifies this
      ensures events == old(events) + [Event.SetCookie(c)]
    {
      events := events + [Event.SetCookie(c)];
    }

    /** ctx.Locals(key, value): exposes a value to later handlers. */
    method Locals(key: string)
      modifies this
      ensures events == old(events) + [StoreLocal(key)]
    {
      events := events + [StoreLocal(key)];
    }

    /** ctx.Next(): runs the rest of the chain, whose result is given. */
    method Next(downstream: Outcome<Error>) returns (r: Outcome<Error>)
      modifies this
      ensures r == downstream
      ensures events == old(events) + [CallNext]
    {
      events := events + [CallNext];
      r := downstream;
    }

    /** Runs a configured failure handler and returns what it returns. */
    method Fail(handler: Handler) returns (r: Outcome<Error>)
      modifies this
      ensures r == handler(req)
      ensures events == old(events) + [CallFail]
    {
      events := events + [CallFail];
      r := handler(req);
    }

    /** ctx.Status(status).SendString(body). */
    method SendString(status: int, body: string) returns (r: Outcome<Error>)
      modifies this
      ensures r == Pass
      ensures events == old(events) + [Reply(status, body)]
    {
      events := events + [Reply(status, body)];
      r := Pass;
    }
  }
}
