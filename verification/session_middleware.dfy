/** session/middelware.go: the handler that opens the session for a
    request, exposes it to later handlers and saves it afterwards.

    The rest of the chain is known by two things: the changes it makes to
    the session it finds in the SESSION local, as a list of edits, and the
    error it returns. */
module SessionMiddleware {
  import opened Wrappers
  import opened Text
  import opened Json
  import opened Errors
  import opened Http
  import opened Cache
  import opened SessionOption
  import opened Session

  /** The headers a header-carried session asks the browser to expose and
      accept. */
  function CorsEvents(o: Options, noop: bool): seq<Event>
  {
    if o.header && !noop then [AppendHeader(ExposeHeaders, o.name), AppendHeader(AllowHeaders, o.name)] else []
  }

  /** A change a later handler makes to the session: Set, Delete, AddTTL,
      SetTTL or Destroy. */
  datatype Edit =
    | SetValue(key: string, value: Value)
    | DeleteKey(key: string)
    | ExtendTTL(amount: int)
    | ReplaceTTL(amount: int)
    | DestroySession

  /** The session's fields together with the store's entries and calls and
      the response events. */
  datatype Trace = Trace(fields: Fields, entries: Entries, calls: seq<Call>, events: seq<Event>)

  /** What one edit does, as the session's methods do it. An edit keeps the
      fresh flag and only appends to the store calls and response events. */
  function EditEffect(t: Trace, e: Edit, opt: Options, faults: map<Op, string>): (r: Trace)
    requires opt.Valid()
    ensures r.fields.isFresh == t.fields.isFresh
    ensures |t.calls| <= |r.calls| && r.calls[..|t.calls|] == t.calls
    ensures |t.events| <= |r.events| && r.events[..|t.events|] == t.events
  {
    var f := t.fields;
    match e
    case SetValue(k, v) =>
      if TrimSpace(k) == "" then t else t.(fields := f.(data := f.data[TrimSpace(k) := v], modified := true))
    case DeleteKey(k) =>
      t.(fields := f.(data := f.data - {k}, modified := true))
    case ExtendTTL(d) =>
      if d <= 0 then t
      else
        var sy := SyncEffect(f.id, f.isFresh, d, opt, t.entries, faults);
        Trace(f.(ttl := d, modified := true), t.entries, t.calls + sy.calls, t.events + sy.events)
    case ReplaceTTL(d) =>
      if d <= 0 then t
      else
        var sy := SyncEffect(f.id, f.isFresh, -d, opt, t.entries, faults);
        Trace(f.(ttl := -d, modified := true), t.entries, t.calls + sy.calls, t.events + sy.events)
    case DestroySession =>
      if f.id == "" then t
      else
        var calls := t.calls + [Call(OpForget, Key(f.id))];
        if OpForget in faults then t.(calls := calls)
        else Trace(f.(id := "", data := map[]), t.entries - {Key(f.id)}, calls, t.events)
  }

  /** The edits applied in order. They keep the fresh flag and only append
      to the store calls and response events. */
  function Edits(t: Trace, edits: seq<Edit>, opt: Options, faults: map<Op, string>): (r: Trace)
    requires opt.Valid()
    ensures r.fields.isFresh == t.fields.isFresh
    ensures |t.calls| <= |r.calls| && r.calls[..|t.calls|] == t.calls
    ensures |t.events| <= |r.events| && r.events[..|t.events|] == t.events
    decreases |edits|
  {
    if |edits| == 0 then t
    else
      var before := Edits(t, edits[..|edits| - 1], opt, faults);
      var r := EditEffect(before, edits[|edits| - 1], opt, faults);
      assert r.calls[..|t.calls|] == r.calls[..|before.calls|][..|t.calls|];
      assert r.events[..|t.events|] == r.events[..|before.events|][..|t.events|];
      r
  }

  /** The session, its store and its response as they stand. */
  function TraceOf(s: Session): Trace
    reads s, s.ctx, s.cache
  {
    Trace(s.View(), s.cache.entries, s.cache.calls, s.ctx.events)
  }

  /** A later handler calls one of the session's methods. */
  method ApplyEdit(s: Session, e: Edit)
    requires s.Valid()
    modifies s, s.ctx, s.cache
    ensures s.cache.faults == old(s.cache.faults)
    ensures TraceOf(s) == EditEffect(old(TraceOf(s)), e, s.opt, s.cache.faults)
  {
    match e {
      case SetValue(k, v) => s.Set(k, v);
      case DeleteKey(k) => s.Delete(k);
      case ExtendTTL(d) => var _ := s.AddTTL(d);
      case ReplaceTTL(d) => var _ := s.SetTTL(d);
      case DestroySession => var _ := s.Destroy();
    }
  }

  /** The rest of the chain makes its edits to the session, in order. */
  method RunChain(s: Session, edits: seq<Edit>)
    requires s.Valid()
    modifies s, s.ctx, s.cache
    ensures s.cache.faults == old(s.cache.faults)
    ensures TraceOf(s) == Edits(old(TraceOf(s)), edits, s.opt, s.cache.faults)
  {
    for i := 0 to |edits|
      invariant s.cache.faults == old(s.cache.faults)
      invariant TraceOf(s) == Edits(old(TraceOf(s)), edits[..i], s.opt, s.cache.faults)
    {
      ApplyEdit(s, edits[i]);
      assert edits[..i + 1][..i] == edits[..i];
    }
    assert edits[..|edits|] == edits;
  }

  /** Session.New as the middleware calls it: a new session configured
      from the options and bound to this request and store, or New's
      error, with the store and response effects Opened states. */
  method Open(ctx: Ctx, cache: Store, options: seq<Opt>, seed: nat, now: string) returns (r: Result<Session, Error>)
    modifies ctx, cache
    ensures cache.faults == old(cache.faults)
    ensures r.Success? ==>
      && fresh(r.value) && r.value.Valid()
      && r.value.opt == Configured(options) && r.value.ctx == ctx && r.value.cache == cache
    ensures Opened(ctx.req, options, seed, now, cache.faults, old(cache.entries), old(cache.calls), old(ctx.events),
                   Viewed(r), cache.entries, cache.calls, ctx.events)
  {
    r := Session.New(ctx, cache, options, seed, now);
  }

  /** The middleware announces a header-carried session's name (unless the
      session is a no-op one) and stores the session in the SESSION local. */
  method Expose(s: Session, noop: bool)
    modifies s.ctx
    ensures s.ctx.events == old(s.ctx.events) + CorsEvents(s.opt, noop) + [StoreLocal(LocalsKey)]
  {
    var ctx := s.ctx;
    if s.IsHeader() && !noop {
      ctx.Append(ExposeHeaders, s.GetName());
      ctx.Append(AllowHeaders, s.GetName());
    }
    ctx.Locals(LocalsKey);
  }

  /** What the middleware does with the session New returned: exposes it,
      runs the rest of the chain, which edits it, and saves it when the
      chain succeeded. */
  method Continue(s: Session, noop: bool, edits: seq<Edit>, downstream: Outcome<Error>) returns (r: Outcome<Error>)
    requires s.Valid()
    modifies s, s.ctx, s.cache
    ensures s.cache.faults == old(s.cache.faults)
    ensures
      var exposed := old(s.ctx.events) + CorsEvents(s.opt, noop) + [StoreLocal(LocalsKey), CallNext];
      var t := Edits(Trace(old(s.View()), old(s.cache.entries), old(s.cache.calls), exposed), edits, s.opt, s.cache.faults);
      && s.ctx.events == t.events
      && (downstream.Fail? ==> r == downstream && s.cache.entries == t.entries && s.cache.calls == t.calls)
      && (downstream.Pass? ==>
            var e := SaveEffect(t.fields.id, t.fields.data, t.fields.ttl, t.fields.isFresh, t.fields.modified,
                                s.opt.ttl, t.entries, s.cache.faults);
            r == e.outcome && s.cache.entries == e.entries && s.cache.calls == t.calls + e.calls)
  {
    ghost var start := Trace(s.View(), s.cache.entries, s.cache.calls,
                             s.ctx.events + CorsEvents(s.opt, noop) + [StoreLocal(LocalsKey), CallNext]);
    Expose(s, noop);
    r := s.ctx.Next(downstream);
    assert TraceOf(s) == start;
    RunChain(s, edits);
    ghost var t := TraceOf(s);
    assert t == Edits(start, edits, s.opt, s.cache.faults);
    if r.Pass? {
      r := s.Save();
    }
  }

  /** One request through the middleware. The rest of the chain makes
      `edits` to the session and returns `downstream`; whether the session
      is a no-op one is the parameter `noop`. The ghost results name the
      fields of the session New returned (or its error) and the response
      and store as New left them. */
  method Serve(ctx: Ctx, cache: Store, options: seq<Opt>, seed: nat, now: string, noop: bool,
               edits: seq<Edit>, downstream: Outcome<Error>)
    returns (r: Outcome<Error>, ghost created: Result<Fields, Error>, ghost eventsAfterNew: seq<Event>,
             ghost entriesAfterNew: Entries, ghost callsAfterNew: seq<Call>)
    modifies ctx, cache
    ensures cache.faults == old(cache.faults)
    // the session was created by New
    ensures Opened(ctx.req, options, seed, now, cache.faults, old(cache.entries), old(cache.calls), old(ctx.events),
                   created, entriesAfterNew, callsAfterNew, eventsAfterNew)
    // New failed: its error is returned and nothing else happens
    ensures created.Failure? ==>
      && r == Fail(created.error)
      && ctx.events == eventsAfterNew && cache.entries == entriesAfterNew && cache.calls == callsAfterNew
    // New succeeded: the session is exposed, the chain runs and edits it
    ensures created.Success? ==>
      var o := Configured(options);
      var exposed := eventsAfterNew + CorsEvents(o, noop) + [StoreLocal(LocalsKey), CallNext];
      var t := Edits(Trace(created.value, entriesAfterNew, callsAfterNew, exposed), edits, o, cache.faults);
      && ctx.events == t.events
      // a failing chain: its error is returned and the edited session is not saved
      && (downstream.Fail? ==> r == downstream && cache.entries == t.entries && cache.calls == t.calls)
      // a passing chain: the edited session is saved and the result is Save's
      && (downstream.Pass? ==>
            var e := SaveEffect(t.fields.id, t.fields.data, t.fields.ttl, t.fields.isFresh, t.fields.modified,
                                o.ttl, t.entries, cache.faults);
            r == e.outcome && cache.entries == e.entries && cache.calls == t.calls + e.calls)
  {
    var made := Open(ctx, cache, options, seed, now);
    created := Viewed(made);
    eventsAfterNew, entriesAfterNew, callsAfterNew := ctx.events, cache.entries, cache.calls;
    if made.Failure? {
      return Fail(made.error), created, eventsAfterNew, entriesAfterNew, callsAfterNew;
    }
    r := Continue(made.value, noop, edits, downstream);
  }

  /** Edits to the data alone make no store call and no response event and
      keep the id: what they change reaches the store only through the
      middleware's Save. */
  lemma {:induction false} DataEditsStayLocal(t: Trace, edits: seq<Edit>, opt: Options, faults: map<Op, string>)
    requires opt.Valid()
    requires forall i :: 0 <= i < |edits| ==> edits[i].SetValue? || edits[i].DeleteKey?
    ensures var r := Edits(t, edits, opt, faults);
      r.entries == t.entries && r.calls == t.calls && r.events == t.events
      && r.fields.id == t.fields.id && r.fields.ttl == t.fields.ttl
    decreases |edits|
  {
    if |edits| != 0 {
      DataEditsStayLocal(t, edits[..|edits| - 1], opt, faults);
    }
  }

  /** The edit neither deletes nor overwrites `key` nor destroys the
      session. */
  predicate KeepsKey(e: Edit, key: string)
  {
    !e.DestroySession? && !(e.DeleteKey? && e.key == key) && !(e.SetValue? && TrimSpace(e.key) == key)
  }

  /** An edit that keeps `key` keeps the value under it. */
  lemma {:induction false} EditKeepsValue(t: Trace, e: Edit, key: string, v: Value, opt: Options, faults: map<Op, string>)
    requires opt.Valid() && key in t.fields.data && t.fields.data[key] == v
    requires KeepsKey(e, key)
    ensures var d := EditEffect(t, e, opt, faults).fields.data; key in d && d[key] == v
  {
  }

  /** A value a handler sets under a non-blank key is still there when the
      middleware saves, unless a later edit deletes or overwrites that key
      or destroys the session. */
  lemma {:induction false} SetValueReachesSave(t: Trace, edits: seq<Edit>, j: nat, opt: Options, faults: map<Op, string>)
    requires opt.Valid() && j < |edits| && edits[j].SetValue? && TrimSpace(edits[j].key) != ""
    requires forall i :: j < i < |edits| ==> KeepsKey(edits[i], TrimSpace(edits[j].key))
    ensures var d := Edits(t, edits, opt, faults).fields.data;
      TrimSpace(edits[j].key) in d && d[TrimSpace(edits[j].key)] == edits[j].value
    decreases |edits|
  {
    var init := edits[..|edits| - 1];
    if j < |edits| - 1 {
      assert init[j] == edits[j];
      SetValueReachesSave(t, init, j, opt, faults);
      EditKeepsValue(Edits(t, init, opt, faults), edits[|edits| - 1], TrimSpace(edits[j].key), edits[j].value, opt, faults);
    }
  }

  /** A session a handler destroyed leaves nothing for the middleware's
      Save to write: its key is gone from the store and Save makes no
      call. */
  lemma {:induction false} DestroyedSessionNotSaved(t: Trace, opt: Options, faults: map<Op, string>, configured: int)
    requires opt.Valid() && t.fields.id != "" && OpForget !in faults
    ensures var d := EditEffect(t, DestroySession, opt, faults);
      && Key(t.fields.id) !in d.entries
      && SaveEffect(d.fields.id, d.fields.data, d.fields.ttl, d.fields.isFresh, d.fields.modified,
                    configured, d.entries, faults) == Effect(d.entries, [], Pass)
  {
  }
}
