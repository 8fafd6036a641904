/** csrf/middleware.go: the handler that checks the CSRF token of requests
    whose method needs one against the token kept in the session.

    The helpers it calls that are not part of this model are parameters of
    the handler: `checked` for isRFC9110Method (whether the request's method
    needs a token), `bodyValue` for getBodyValue (a form field's value) and
    `refreshed` for the token refresh(session) returns. The session reaches
    the handler as its data, or None when session.Parse finds none. */
module CsrfMiddleware {
  import opened Wrappers
  import opened Text
  import opened Json
  import opened Errors
  import opened Http
  import opened CsrfOption
  import Folding

  const TokenKey := "csrf"
  const MissingSession := "failed to resolve session"
  const InvalidToken := "invalid csrf token"

  /** session.Cast("csrf").StringSafe(""): the stored token when it is a
      string, "" otherwise. */
  function StoredToken(data: Doc): (t: string)
    ensures TokenKey in data && data[TokenKey].Str? ==> t == data[TokenKey].s
    ensures !(TokenKey in data && data[TokenKey].Str?) ==> t == ""
  {
    if TokenKey in data && data[TokenKey].Str? then data[TokenKey].s else ""
  }

  /** The token a request is checked against: the stored one, or a
      refreshed one when none is stored. */
  function SessionToken(data: Doc, refreshed: string): (t: string)
    ensures StoredToken(data) != "" ==> t == StoredToken(data)
    ensures StoredToken(data) == "" ==> t == refreshed
  {
    var t := StoredToken(data);
    if t == "" then refreshed else t
  }

  /** A checked request is rejected unless it presents the session's token
      and that token is not empty. */
  predicate Rejects(token: string, input: string)
  {
    token == "" || input != token
  }

  /** Rejection is exactly a mismatch or a missing token. */
  lemma {:induction false} AcceptedOnlyWithToken(token: string, input: string)
    ensures !Rejects(token, input) <==> token != "" && input == token
  {
  }

  /** The events and result of the token check itself, once the session is
      resolved. */
  function Checked(o: Options, req: Request, token: string, checked: Request -> bool,
                   bodyValue: (Request, string) -> string, downstream: Outcome<Error>): (Options, seq<Event>, Outcome<Error>)
  {
    var key := if o.header then ToUpper(o.key) else o.key;
    var announce := if o.header then [AppendHeader(AllowHeaders, key)] else [];
    var input := if o.header then req.Get(key) else bodyValue(req, key);
    if checked(req) && Rejects(token, input) then
      if o.fail.Some? then (o.(key := key), announce + [CallFail], o.fail.value(req))
      else (o.(key := key), announce + [Reply(StatusInvalidToken, InvalidToken)], Pass)
    else (o.(key := key), announce + [CallNext], downstream)
  }

  /** The handler NewMiddleware returns, with the configuration it captured.
      In header mode every request upper-cases the stored token name. */
  class Middleware {
    var opt: Options

    /** NewMiddleware. */
    constructor (options: seq<Opt>)
      ensures opt == Configured(options)
    {
      var o := Build(options);
      opt := o;
    }

    method Handle(ctx: Ctx, session: Option<Doc>, refreshed: string, checked: Request -> bool,
                  bodyValue: (Request, string) -> string, downstream: Outcome<Error>) returns (r: Outcome<Error>)
      modifies this, ctx
      // a matching skip predicate passes the request straight on
      ensures old(opt.next).Some? && old(opt.next).value(ctx.req) ==>
        && r == downstream && opt == old(opt) && ctx.events == old(ctx.events) + [CallNext]
      ensures !(old(opt.next).Some? && old(opt.next).value(ctx.req)) && session.None? ==>
        && r == Fail(Plain(MissingSession)) && opt == old(opt) && ctx.events == old(ctx.events)
      ensures !(old(opt.next).Some? && old(opt.next).value(ctx.req)) && session.Some? ==>
        var c := Checked(old(opt), ctx.req, SessionToken(session.value, refreshed), checked, bodyValue, downstream);
        && opt == c.0 && ctx.events == old(ctx.events) + c.1 && r == c.2
    {
      if opt.next.Some? && opt.next.value(ctx.req) {
        r := ctx.Next(downstream);
        return;
      }
      if session.None? {
        return Fail(Plain(MissingSession));
      }
      var token := StoredToken(session.value);
      if token == "" {
        token := refreshed;
      }
      if opt.header {
        opt := opt.(key := ToUpper(opt.key));
        ctx.Append(AllowHeaders, opt.key);
        if checked(ctx.req) {
          var input := ctx.req.Get(opt.key);
          if token == "" || input != token {
            if opt.fail.Some? {
              r := ctx.Fail(opt.fail.value);
              return;
            }
            r := ctx.SendString(StatusInvalidToken, InvalidToken);
            return;
          }
        }
      } else {
        if checked(ctx.req) {
          var input := bodyValue(ctx.req, opt.key);
          if token == "" || input != token {
            if opt.fail.Some? {
              r := ctx.Fail(opt.fail.value);
              return;
            }
            r := ctx.SendString(StatusInvalidToken, InvalidToken);
            return;
          }
        }
      }
      r := ctx.Next(downstream);
    }
  }

  /** Upper-casing the token name on every request settles after the
      first: later requests find it already upper-cased. */
  lemma {:induction false} HeaderKeySettles(o: Options, req: Request, token: string, checked: Request -> bool,
                                            bodyValue: (Request, string) -> string, downstream: Outcome<Error>)
    requires o.header
    ensures var o1 := Checked(o, req, token, checked, bodyValue, downstream).0;
      o1.key == ToUpper(o.key)
      && Checked(o1, req, token, checked, bodyValue, downstream).0 == o1
  {
    ToUpperIdempotent(o.key);
  }

  /** A request whose method needs no token always reaches the rest of the
      chain, whatever token it carries. */
  lemma {:induction false} UncheckedPasses(o: Options, req: Request, token: string, checked: Request -> bool,
                                           bodyValue: (Request, string) -> string, downstream: Outcome<Error>)
    requires !checked(req)
    ensures var c := Checked(o, req, token, checked, bodyValue, downstream);
      c.2 == downstream && c.1[|c.1| - 1] == CallNext
  {
  }

  /** A checked request reaches the rest of the chain exactly when it
      presents the session's non-empty token. */
  lemma {:induction false} CheckedPassesIffToken(o: Options, req: Request, token: string, checked: Request -> bool,
                                                 bodyValue: (Request, string) -> string, downstream: Outcome<Error>)
    requires checked(req)
    ensures var c := Checked(o, req, token, checked, bodyValue, downstream);
      var key := if o.header then ToUpper(o.key) else o.key;
      var input := if o.header then req.Get(key) else bodyValue(req, key);
      (c.1[|c.1| - 1] == CallNext <==> token != "" && input == token)
  {
  }

  /** Two requests through a header-mode middleware: the token name the
      second one announces is the one the first one settled on. */
  method KeySettlesScenario(name: string) returns (first: string, second: string)
    requires name != ""
    ensures first == ToUpper(name) && second == ToUpper(name)
  {
    Folding.FoldOne(CsrfOption.Apply, Defaults, WithHeader(name));
    var m := new Middleware([WithHeader(name)]);
    var data: Doc := map[TokenKey := Str("t")];
    var a := new Ctx(Request("GET", "/", "", map[], map[]));
    var _ := m.Handle(a, Some(data), "", _ => false, (_, _) => "", Pass);
    first := m.opt.key;
    var b := new Ctx(Request("GET", "/", "", map[], map[]));
    ToUpperIdempotent(name);
    var _ := m.Handle(b, Some(data), "", _ => false, (_, _) => "", Pass);
    second := m.opt.key;
  }

  /** A form-mode POST carrying `presented` against a session holding
      `token`: it reaches the chain exactly when the two agree and the token
      is not empty, and is otherwise answered with status 419. */
  method TokenScenario(token: string, presented: string) returns (passed: bool, last: Event)
    ensures passed <==> token != "" && presented == token
    ensures !passed ==> last == Reply(StatusInvalidToken, InvalidToken)
  {
    var m := new Middleware([]);
    var ctx := new Ctx(Request("POST", "/", "", map[], map[]));
    var data: Doc := map[TokenKey := Str(token)];
    var _ := m.Handle(ctx, Some(data), "", _ => true, (_, _) => presented, Pass);
    last := ctx.events[|ctx.events| - 1];
    passed := last == CallNext;
  }

  /** A header-mode POST presenting the session's token under the header
      name in lower case: the middleware looks the header up under the
      upper-cased name, finds it all the same and passes the request on. */
  method HeaderTokenScenario(name: string, token: string) returns (passed: bool)
    requires name != "" && token != ""
    ensures passed
  {
    Folding.FoldOne(CsrfOption.Apply, Defaults, WithHeader(name));
    var m := new Middleware([WithHeader(name)]);
    var ctx := new Ctx(Request("POST", "/", "", map[ToLower(name) := token], map[]));
    LowerOfUpper(name);
    var data: Doc := map[TokenKey := Str(token)];
    var _ := m.Handle(ctx, Some(data), "", _ => true, (_, _) => "", Pass);
    passed := ctx.events[|ctx.events| - 1] == CallNext;
  }
}
