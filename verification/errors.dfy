/** error.go: the HttpError record, its constructors, the status clamp and
    the flattening of a request body into the error's Body map.

    The caller's file and line (runtime.Caller) and the request's parsed
    multipart form or JSON body are parameters: they come from the runtime
    and from the HTTP framework. */
module Errors {
  import opened Wrappers
  import opened Json

  /** HttpError: an HTTP error with the place it was raised and, for form
      errors, the request body. A nil Body is None. */
  datatype HttpError = HttpError(line: int, file: string, body: Option<Doc>, status: int, message: string)
  {
    /** HttpError.Error(). */
    function Error(): (m: string)
      ensures m == message
    {
      message
    }
  }

  /** The Go `error` values the core tells apart: a *fiber.Error, an
      HttpError, and any other error (known only by its text). */
  datatype Error =
    | FiberError(code: int, text: string)
    | Http(he: HttpError)
    | Plain(text: string)

  /** err.Error() for each kind of error. */
  function Message(e: Error): string
  {
    match e
    case FiberError(_, text) => text
    case Http(he) => he.Error()
    case Plain(text) => text
  }

  /** realStatus: the first status when it is a client or server error
      (400 to 599), otherwise 500; later statuses are never read. */
  function RealStatus(statuses: seq<int>): (r: int)
    ensures 400 <= r <= 599
    ensures |statuses| > 0 && 399 < statuses[0] < 600 ==> r == statuses[0]
    ensures (|statuses| == 0 || !(399 < statuses[0] < 600)) ==> r == 500
  {
    if |statuses| > 0 && statuses[0] > 399 && statuses[0] < 600 then statuses[0] else 500
  }

  /** Only the first status given to realStatus matters. */
  lemma {:induction false} RealStatusReadsFirstOnly(s: int, rest: seq<int>, other: seq<int>)
    ensures RealStatus([s] + rest) == RealStatus([s] + other)
  {
  }

  /** NewError: an error carrying `e` as its message, no body, and a status
      clamped by realStatus (500 when none is given). */
  function NewError(e: string, statuses: seq<int>, file: string, line: int): (r: Error)
    ensures r.Http? && Message(r) == e && r.he.body.None?
    ensures r.he.file == file && r.he.line == line
    ensures 400 <= r.he.status <= 599
    ensures |statuses| == 0 ==> r.he.status == 500
    ensures |statuses| > 0 && 399 < statuses[0] < 600 ==> r.he.status == statuses[0]
  {
    Http(HttpError(line, file, None, RealStatus(statuses), e))
  }

  /** NewFormError: as NewError, with the flattened request body. */
  method NewFormError(e: string, ctx: Option<RequestBody>, statuses: seq<int>, file: string, line: int)
    returns (r: Error)
    ensures r.Http? && Message(r) == e
    ensures r.he.file == file && r.he.line == line
    ensures 400 <= r.he.status <= 599
    ensures |statuses| == 0 ==> r.he.status == 500
    ensures |statuses| > 0 && 399 < statuses[0] < 600 ==> r.he.status == statuses[0]
    ensures ctx.None? <==> r.he.body.None?
    ensures ctx.Some? ==> Flattened(ctx.value, r.he.body.value)
  {
    var body := ExtractRequestBody(ctx);
    r := Http(HttpError(line, file, body, RealStatus(statuses), e));
  }

  /** An uploaded file as the error body describes it: its name, its size as
      go-bytesize formats it and the MIME type mimetype detects (both
      computed outside this model). */
  datatype FileInfo = FileInfo(filename: string, size: string, mime: string)

  /** A parsed multipart form: field values and uploaded files by field. */
  datatype Form = Form(values: map<string, seq<string>>, files: map<string, seq<FileInfo>>)

  /** What the framework gives extractRequestBody: the multipart form when
      MultipartForm succeeded with a non-nil form, and the outcome of
      BodyParser (the decoded JSON object or the parser's error text). */
  datatype RequestBody = RequestBody(multipart: Option<Form>, parsed: Result<Doc, string>)

  const FormPrefix := "form."
  const FilePrefix := "file."

  /** `fmt.Sprintf("%s [%s] (%s)", name, size, mime)`. */
  function Describe(f: FileInfo): string
  {
    f.filename + " [" + f.size + "] (" + f.mime + ")"
  }

  function Strs(vs: seq<string>): (r: seq<Value>)
    ensures |r| == |vs| && forall i :: 0 <= i < |vs| ==> r[i] == Str(vs[i])
  {
    seq(|vs|, i requires 0 <= i < |vs| => Str(vs[i]))
  }

  /** A form field: its only value, the list of its values, or nil. */
  function FormEntry(vs: seq<string>): Value
  {
    if |vs| == 1 then Str(vs[0]) else if |vs| > 1 then List(Strs(vs)) else Null
  }

  /** A file field: nil when empty, else one description per file. */
  function FileEntry(fs: seq<FileInfo>): Value
  {
    if |fs| == 0 then Null else List(Strs(seq(|fs|, i requires 0 <= i < |fs| => Describe(fs[i]))))
  }

  function Prefixed(prefix: string, keys: set<string>): set<string>
  {
    set k | k in keys :: prefix + k
  }

  /** The body map extractRequestBody builds, stated key by key. */
  ghost predicate Flattened(ctx: RequestBody, body: Doc)
  {
    match ctx.multipart
    case Some(form) =>
      && body.Keys == Prefixed(FormPrefix, form.values.Keys) + Prefixed(FilePrefix, form.files.Keys)
      && (forall k :: k in form.values ==> body[FormPrefix + k] == FormEntry(form.values[k]))
      && (forall k :: k in form.files ==> body[FilePrefix + k] == FileEntry(form.files[k]))
    case None =>
      match ctx.parsed
      case Failure(e) => body == map["form" := Str(e)]
      case Success(m) =>
        if |m| == 0 then body == map["form" := Null]
        else
          && body.Keys == Prefixed(FormPrefix, m.Keys)
          && (forall k :: k in m ==> body[FormPrefix + k] == m[k])
  }

  lemma {:induction false} PrefixInjective(p: string, a: string, b: string)
    requires p + a == p + b
    ensures a == b
  {
    assert a == (p + a)[|p|..];
    assert b == (p + b)[|p|..];
  }

  /** A "form." key is never a "file." key. */
  lemma {:induction false} PrefixesDisjoint(a: string, b: string)
    ensures FormPrefix + a != FilePrefix + b
  {
    assert (FormPrefix + a)[1] == 'o';
    assert (FilePrefix + b)[1] == 'i';
  }

  /** extractRequestBody: nil without a context; otherwise every form value
      under "form."+field, every file field under "file."+field, or, for a
      non-multipart request, the JSON object's fields under "form."+field
      ("form" alone holds the parse error, or nil for an empty object). */
  method ExtractRequestBody(ctx: Option<RequestBody>) returns (body: Option<Doc>)
    ensures ctx.None? <==> body.None?
    ensures ctx.Some? ==> Flattened(ctx.value, body.value)
  {
    if ctx.None? {
      return None;
    }
    var b: Doc := map[];
    match ctx.value.multipart {
      case Some(form) =>
        b := AddFormValues(form.values);
        b := AddFiles(b, form.values.Keys, form.files);
      case None =>
        match ctx.value.parsed {
          case Failure(e) =>
            b := map["form" := Str(e)];
          case Success(m) =>
            if |m| == 0 {
              b := map["form" := Null];
            } else {
              b := AddJsonFields(m);
            }
        }
    }
    body := Some(b);
  }

  /** The loop over form.Value. */
  method AddFormValues(values: map<string, seq<string>>) returns (b: Doc)
    ensures b.Keys == Prefixed(FormPrefix, values.Keys)
    ensures forall k :: k in values ==> b[FormPrefix + k] == FormEntry(values[k])
  {
    b := map[];
    var todo := values.Keys;
    while todo != {}
      invariant todo <= values.Keys
      invariant b.Keys == Prefixed(FormPrefix, values.Keys - todo)
      invariant forall k :: k in values && k !in todo ==> b[FormPrefix + k] == FormEntry(values[k])
      decreases todo
    {
      var k :| k in todo;
      var v := values[k];
      if |v| == 1 {
        b := b[FormPrefix + k := Str(v[0])];
      } else if |v| > 1 {
        b := b[FormPrefix + k := List(Strs(v))];
      } else {
        b := b[FormPrefix + k := Null];
      }
      forall k' | k' in values && k' !in todo ensures FormPrefix + k' != FormPrefix + k {
        if FormPrefix + k' == FormPrefix + k { PrefixInjective(FormPrefix, k', k); }
      }
      todo := todo - {k};
    }
  }

  /** The loop over form.File, on top of the form values already in `b0`. */
  method AddFiles(b0: Doc, formKeys: set<string>, files: map<string, seq<FileInfo>>) returns (b: Doc)
    requires b0.Keys == Prefixed(FormPrefix, formKeys)
    ensures b.Keys == b0.Keys + Prefixed(FilePrefix, files.Keys)
    ensures forall k :: k in b0 ==> b[k] == b0[k]
    ensures forall k :: k in files ==> b[FilePrefix + k] == FileEntry(files[k])
  {
    b := b0;
    var todo := files.Keys;
    while todo != {}
      invariant todo <= files.Keys
      invariant b.Keys == b0.Keys + Prefixed(FilePrefix, files.Keys - todo)
      invariant forall k :: k in b0 ==> b[k] == b0[k]
      invariant forall k :: k in files && k !in todo ==> b[FilePrefix + k] == FileEntry(files[k])
      decreases todo
    {
      var k :| k in todo;
      var fs := files[k];
      var described := DescribeAll(fs);
      if |described| == 0 {
        b := b[FilePrefix + k := Null];
      } else {
        b := b[FilePrefix + k := List(Strs(described))];
      }
      forall k' | k' in b0 ensures k' != FilePrefix + k {
        var f :| f in formKeys && k' == FormPrefix + f;
        PrefixesDisjoint(f, k);
      }
      forall k' | k' in files && k' !in todo ensures FilePrefix + k' != FilePrefix + k {
        if FilePrefix + k' == FilePrefix + k { PrefixInjective(FilePrefix, k', k); }
      }
      todo := todo - {k};
    }
  }

  /** The inner loop that describes each uploaded file of one field. */
  method DescribeAll(fs: seq<FileInfo>) returns (values: seq<string>)
    ensures values == seq(|fs|, i requires 0 <= i < |fs| => Describe(fs[i]))
  {
    values := [];
    for i := 0 to |fs|
      invariant values == seq(i, j requires 0 <= j < i => Describe(fs[j]))
    {
      values := values + [Describe(fs[i])];
    }
  }

  /** The loop over the fields of a non-empty JSON body. */
  method AddJsonFields(m: Doc) returns (b: Doc)
    ensures b.Keys == Prefixed(FormPrefix, m.Keys)
    ensures forall k :: k in m ==> b[FormPrefix + k] == m[k]
  {
    b := map[];
    var todo := m.Keys;
    while todo != {}
      invariant todo <= m.Keys
      invariant b.Keys == Prefixed(FormPrefix, m.Keys - todo)
      invariant forall k :: k in m && k !in todo ==> b[FormPrefix + k] == m[k]
      decreases todo
    {
      var k :| k in todo;
      b := b[FormPrefix + k := m[k]];
      forall k' | k' in m && k' !in todo ensures FormPrefix + k' != FormPrefix + k {
        if FormPrefix + k' == FormPrefix + k { PrefixInjective(FormPrefix, k', k); }
      }
      todo := todo - {k};
    }
  }

  /** Flattened describes at most one map: the body does not depend on the
      order in which Go visits the form's fields. */
  lemma {:induction false} FlattenedUnique(ctx: RequestBody, b1: Doc, b2: Doc)
    requires Flattened(ctx, b1) && Flattened(ctx, b2)
    ensures b1 == b2
  {
    match ctx.multipart {
      case Some(form) =>
        forall k | k in b1 ensures b1[k] == b2[k] {
          if k in Prefixed(FormPrefix, form.values.Keys) {
            var f :| f in form.values && k == FormPrefix + f;
          } else {
            var f :| f in form.files && k == FilePrefix + f;
          }
        }
      case None =>
        match ctx.parsed {
          case Failure(_) =>
          case Success(m) =>
            if |m| != 0 {
              forall k | k in b1 ensures b1[k] == b2[k] {
                var f :| f in m && k == FormPrefix + f;
              }
            }
        }
    }
  }
}
