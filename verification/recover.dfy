/** recover.go: the error handler NewFiberErrorHandler returns. It reads the
    status, message, origin and body off an error, logs them when the
    status passes the filter, and answers through the callback or with a
    plain-text response.

    The APP_ROOT-relative path helper is a parameter (it reads the process
    environment); the logger is a recorder of the entries it was given. */
module Recover {
  import opened Wrappers
  import opened Json
  import opened Errors
  import opened Http

  const StatusInternalServerError := 500
  const InternalServerError := "Internal Server Error"
  const HeaderContentType := "Content-Type"
  const TextPlainUTF8 := "text/plain; charset=utf-8"

  /** One logger.LogOptions: a named value, or the entry's message. */
  datatype LogParam = With(key: string, value: Value) | WithMessage(text: string)

  /** A logger.Logger that keeps every entry it is given. */
  class Logger {
    var entries: seq<seq<LogParam>>

    constructor ()
      ensures entries == []
    {
      entries := [];
    }

    /** l.Error(params...). */
    method Error(params: seq<LogParam>)
      modifies this
      ensures entries == old(entries) + [params]
    {
      entries := entries + [params];
    }
  }

  /** ErrorCallback, known by what it returns for the request and the
      error it is given. */
  type Callback = (Request, HttpError) -> Outcome<Error>

  /** The details the handler works with, read off the error: a
      *fiber.Error gives its code and text, an HttpError gives itself, and
      any other error gives status 500 and its text. Only an HttpError has
      an origin and a body. */
  function Classify(err: Error): (d: HttpError)
    ensures d.message == Message(err)
    ensures err.Http? ==> d == err.he
    ensures err.FiberError? ==> d.status == err.code
    ensures !err.Http? ==> d.file == "" && d.line == 0 && d.body.None?
    ensures err.Plain? ==> d.status == StatusInternalServerError
  {
    match err
    case FiberError(code, text) => HttpError(0, "", None, code, text)
    case Http(he) => HttpError(he.line, he.file, he.body, he.status, he.Error())
    case Plain(text) => HttpError(0, "", None, StatusInternalServerError, text)
  }

  /** The log filter: a logger is configured, and either no status codes
      were listed or the status is one of them. */
  predicate ShouldLog(hasLogger: bool, codes: seq<int>, status: int)
  {
    hasLogger && (|codes| == 0 || status in codes)
  }

  /** The fixed part of a log entry, in the order the handler lists it. */
  function Header(d: HttpError, req: Request, relative: string -> string): (ps: seq<LogParam>)
    ensures |ps| == 7 && ps[6] == WithMessage(d.message)
  {
    [ With("file", Str(relative(d.file))),
      With("line", Num(d.line)),
      With("status", Num(d.status)),
      With("ip", Str(req.ip)),
      With("path", Str(req.path)),
      With("method", Str(req.verb)),
      WithMessage(d.message) ]
  }

  function BodyOf(d: HttpError): Doc
  {
    if d.body.Some? then d.body.value else map[]
  }

  /** `ps` lists every field of `body` once, as a named value, in some
      order (Go ranges over a map in no fixed order). */
  ghost predicate Lists(ps: seq<LogParam>, body: Doc)
  {
    && (forall j :: 0 <= j < |ps| ==> ps[j].With? && ps[j].key in body && ps[j].value == body[ps[j].key])
    && (forall i, j :: 0 <= i < j < |ps| ==> ps[i].key != ps[j].key)
    && (forall k :: k in body ==> exists j :: 0 <= j < |ps| && ps[j].key == k)
  }

  /** The keys of a run of named values. */
  function KeySet(ps: seq<LogParam>): (r: set<string>)
    requires forall j :: 0 <= j < |ps| ==> ps[j].With?
    ensures forall j :: 0 <= j < |ps| ==> ps[j].key in r
    ensures forall k :: k in r ==> exists j :: 0 <= j < |ps| && ps[j].key == k
    decreases |ps|
  {
    if |ps| == 0 then {}
    else
      var init := ps[..|ps| - 1];
      assert forall j :: 0 <= j < |init| ==> init[j] == ps[j];
      KeySet(init) + {ps[|ps| - 1].key}
  }

  /** A listing of a body has one entry per field. */
  lemma {:induction false} ListingLength(ps: seq<LogParam>, body: Doc)
    requires Lists(ps, body)
    ensures |ps| == |body|
  {
    assert KeySet(ps) == body.Keys;
    DistinctKeysCount(ps);
  }

  /** Entries with pairwise distinct keys have as many keys as entries. */
  lemma {:induction false} DistinctKeysCount(ps: seq<LogParam>)
    requires forall j :: 0 <= j < |ps| ==> ps[j].With?
    requires forall i, j :: 0 <= i < j < |ps| ==> ps[i].key != ps[j].key
    ensures |KeySet(ps)| == |ps|
    decreases |ps|
  {
    if |ps| != 0 {
      var init := ps[..|ps| - 1];
      forall j | 0 <= j < |init| ensures init[j] == ps[j] && init[j].key != ps[|ps| - 1].key {
      }
      DistinctKeysCount(init);
    }
  }

  /** The loop that appends the error's body fields to the log entry. */
  method BodyParams(body: Doc) returns (ps: seq<LogParam>)
    ensures Lists(ps, body)
    ensures |ps| == |body|
  {
    ps := [];
    var todo := body.Keys;
    while todo != {}
      invariant todo <= body.Keys
      invariant forall j :: 0 <= j < |ps| ==> ps[j].With? && ps[j].key in body && ps[j].key !in todo && ps[j].value == body[ps[j].key]
      invariant forall i, j :: 0 <= i < j < |ps| ==> ps[i].key != ps[j].key
      invariant forall k :: k in body && k !in todo ==> exists j :: 0 <= j < |ps| && ps[j].key == k
      decreases todo
    {
      var k :| k in todo;
      var prev := ps;
      ps := ps + [With(k, body[k])];
      forall k' | k' in body && k' !in todo - {k} ensures exists j :: 0 <= j < |ps| && ps[j].key == k' {
        if k' == k {
          assert ps[|prev|].key == k';
        } else {
          var j :| 0 <= j < |prev| && prev[j].key == k';
          assert ps[j] == prev[j];
        }
      }
      todo := todo - {k};
    }
    ListingLength(ps, body);
  }

  /** The returned fiber.ErrorHandler for one request and error. The log
      entry, when the filter lets the status through, is the fixed part
      followed by the body's fields; the answer is the callback's, given
      exactly the details read off the error, or a plain-text response
      with that status and message. */
  method Handle(ctx: Ctx, err: Error, logger: Option<Logger>, cb: Option<Callback>, codes: seq<int>, relative: string -> string)
    returns (r: Outcome<Error>)
    modifies ctx, if logger.Some? then {logger.value} else {}
    ensures var d := Classify(err);
      && (logger.Some? && ShouldLog(true, codes, d.status) ==>
            && |logger.value.entries| == |old(logger.value.entries)| + 1
            && logger.value.entries[..|old(logger.value.entries)|] == old(logger.value.entries)
            && var entry := logger.value.entries[|old(logger.value.entries)|];
               && |entry| == 7 + |BodyOf(d)|
               && entry[..7] == Header(d, ctx.req, relative)
               && Lists(entry[7..], BodyOf(d)))
      && (logger.Some? && !ShouldLog(true, codes, d.status) ==> logger.value.entries == old(logger.value.entries))
      && (cb.Some? ==> r == cb.value(ctx.req, d) && ctx.events == old(ctx.events))
      && (cb.None? ==>
            && r == Pass
            && ctx.events == old(ctx.events) + [SetHeader(HeaderContentType, TextPlainUTF8), Reply(d.status, d.message)])
  {
    var d := Classify(err);
    if logger.Some? && (|codes| == 0 || d.status in codes) {
      var params := Header(d, ctx.req, relative);
      var extra := BodyParams(BodyOf(d));
      params := params + extra;
      assert params[..7] == Header(d, ctx.req, relative) && params[7..] == extra;
      logger.value.Error(params);
    }
    if cb.Some? {
      return cb.value(ctx.req, d);
    }
    ctx.Set(HeaderContentType, TextPlainUTF8);
    r := ctx.SendString(d.status, d.message);
  }

  /** An error made by NewError reaches the handler with the message it
      was made with, a 4xx or 5xx status and no body. */
  lemma {:induction false} NewErrorClassified(e: string, statuses: seq<int>, file: string, line: int)
    ensures var d := Classify(NewError(e, statuses, file, line));
      && d.message == e && d.body.None? && d.file == file && d.line == line
      && 400 <= d.status <= 599
      && (|statuses| == 0 ==> d.status == StatusInternalServerError)
  {
  }

  /** Without a list of codes every status is logged, and a listed code is
      logged whatever else is listed. */
  lemma {:induction false} FilterByCodes(codes: seq<int>, status: int)
    ensures ShouldLog(true, [], status)
    ensures ShouldLog(true, codes + [status], status)
    ensures !ShouldLog(false, codes, status)
  {
    assert (codes + [status])[|codes|] == status;
  }
}
