/** session/session.go: a request's session — its identifier, its data, the
    pending TTL change and the fresh/modified flags — and the calls it makes
    to the store under the key "ses-" + id.

    The pending TTL is sign-encoded: AddTTL(t) records +t ("extend what is
    left by t"), SetTTL(t) records -t ("live exactly t from now"), 0 means
    no change. Save and sync decode it with the same branching; the pure
    functions below state those decodings and the store effects of Save and
    Load, and the class's methods are proved against them. */
module Session {
  import opened Wrappers
  import opened Text
  import opened Json
  import opened Errors
  import opened Http
  import opened Cache
  import opened SessionOption

  const CreatedAtKey := "created_at"
  const LocalsKey := "SESSION"

  /** k(): the store key of a session. */
  function Key(id: string): (k: string)
    ensures |k| == |id| + 4 && k[4..] == id
  {
    "ses-" + id
  }

  /** Distinct sessions never share a store key. */
  lemma {:induction false} KeyInjective(a: string, b: string)
    ensures Key(a) == Key(b) <==> a == b
  {
    if Key(a) == Key(b) {
      assert a == Key(a)[4..] && b == Key(b)[4..];
    }
  }

  /** The TTL Save gives a non-fresh session with a pending change: extend
      what the store has left (or start afresh when nothing is left), or set
      the encoded magnitude outright. */
  function SaveTTL(pending: int, remaining: int): (t: int)
    requires pending != 0
    ensures t > 0
    ensures pending > 0 && remaining > 0 ==> t == remaining + pending
    ensures pending > 0 && remaining <= 0 ==> t == pending
    ensures pending < 0 ==> t == -pending
  {
    if pending > 0 then
      if remaining <= 0 then pending else remaining + pending
    else -pending
  }

  /** The lifetime sync gives the cookie: the pending value itself for a
      fresh session, otherwise the same decoding as Save. */
  function CookieLifetime(isFresh: bool, pending: int, remaining: int): int
  {
    if isFresh then pending
    else if pending < 0 then -pending
    else if pending > 0 then (if remaining > 0 then pending + remaining else pending)
    else pending
  }

  /** What a store interaction did: the entries after it, the calls it made
      and the error it returned. */
  datatype Effect = Effect(entries: Entries, calls: seq<Call>, outcome: Outcome<Error>)

  function PutEffect(entries: Entries, faults: map<Op, string>, key: string, blob: Blob, ttl: int, before: seq<Call>): Effect
  {
    if OpPut in faults then Effect(entries, before + [Call(OpPut, key)], Fail(Plain(faults[OpPut])))
    else Effect(Stored(entries, key, blob, ttl), before + [Call(OpPut, key)], Pass)
  }

  function UpdateEffect(entries: Entries, faults: map<Op, string>, key: string, blob: Blob): Effect
  {
    if OpUpdate in faults then Effect(entries, [Call(OpUpdate, key)], Fail(Plain(faults[OpUpdate])))
    else if key in entries then Effect(Stored(entries, key, blob, entries[key].ttl), [Call(OpUpdate, key)], Pass)
    else Effect(entries, [Call(OpUpdate, key)], Pass)
  }

  /** Save, as a function of the session's fields and the store. */
  function SaveEffect(id: string, data: Doc, pending: int, isFresh: bool, modified: bool,
                      configured: int, entries: Entries, faults: map<Op, string>): Effect
  {
    if id == "" || (!isFresh && !modified) then Effect(entries, [], Pass)
    else
      match Encode(data)
      case Failure(e) => Effect(entries, [], Fail(Plain(e)))
      case Success(blob) =>
        var key := Key(id);
        if isFresh then PutEffect(entries, faults, key, blob, configured, [])
        else if pending > 0 then
          if OpTTL in faults then Effect(entries, [Call(OpTTL, key)], Fail(Plain(faults[OpTTL])))
          else PutEffect(entries, faults, key, blob, SaveTTL(pending, Remaining(entries, key)), [Call(OpTTL, key)])
        else if pending < 0 then PutEffect(entries, faults, key, blob, SaveTTL(pending, 0), [])
        else UpdateEffect(entries, faults, key, blob)
  }

  /** What Load did: whether it found the session, the data afterwards, the
      calls it made and the error it returned. */
  datatype Loaded = Loaded(found: bool, data: Doc, calls: seq<Call>, outcome: Outcome<Error>)

  /** Load, as a function of the id, the current data and the store. A blob
      that does not decode leaves the data empty, as the source resets the
      map before unmarshalling into it. */
  function LoadEffect(id: string, data: Doc, entries: Entries, faults: map<Op, string>): Loaded
  {
    if id == "" then Loaded(false, data, [], Pass)
    else
      var key := Key(id);
      var probe := [Call(OpExists, key)];
      if OpExists in faults then Loaded(false, data, probe, Fail(Plain(faults[OpExists])))
      else if key !in entries then Loaded(false, data, probe, Pass)
      else
        var read := probe + [Call(OpCast, key)];
        if OpCast in faults then Loaded(false, data, read, Fail(Plain(faults[OpCast])))
        else
          match Decode(entries[key].blob)
          case Success(d) => Loaded(true, d, read, Pass)
          case Failure(e) => Loaded(false, map[], read, Fail(Plain(e)))
  }

  /** What sync did: the response events, the store calls and the error. */
  datatype Synced = Synced(events: seq<Event>, calls: seq<Call>, outcome: Outcome<Error>)

  /** sync, as a function of the session's fields and the store. */
  function SyncEffect(id: string, isFresh: bool, pending: int, opt: Options,
                      entries: Entries, faults: map<Op, string>): Synced
    requires opt.Valid()
  {
    if id == "" then Synced([], [], Pass)
    else if opt.header then Synced([SetHeader(opt.name, id)], [], Pass)
    else
      var key := Key(id);
      var asks := !isFresh && pending > 0;
      var calls := if asks then [Call(OpTTL, key)] else [];
      if asks && OpTTL in faults then Synced([], calls, Fail(Plain(faults[OpTTL])))
      else
        var lifetime := CookieLifetime(isFresh, pending, Remaining(entries, key));
        Synced([SetCookie(Cookie(opt.name, id, lifetime, opt.cookie.value))], calls, Pass)
  }

  /** The identifier New reads from the request: the configured header or
      the configured cookie. */
  function IncomingId(req: Request, o: Options): string
  {
    if o.header then req.Get(o.name) else req.Cookies(o.name)
  }

  /** A session's own fields at one moment. */
  datatype Fields = Fields(id: string, data: Doc, ttl: int, isFresh: bool, modified: bool)

  /** What New does, stated over the request, the options, the random draw,
      the time, the store's faults and its entries, calls and the response
      events before (`entries0`, `calls0`, `events0`) and after: a store or
      decoding error while loading is returned, a stored session is used as
      it is, and otherwise the stale key is dropped and a fresh session is
      started and announced. */
  ghost predicate Opened(req: Request, options: seq<Opt>, seed: nat, now: string, faults: map<Op, string>,
                         entries0: Entries, calls0: seq<Call>, events0: seq<Event>,
                         r: Result<Fields, Error>, entries: Entries, calls: seq<Call>, events: seq<Event>)
  {
    var o := Configured(options);
    var id := IncomingId(req, o);
    var l := LoadEffect(id, map[], entries0, faults);
    // a store or decoding error while loading is returned
    && (l.outcome.Fail? ==>
          && r == Failure(l.outcome.error)
          && entries == entries0
          && calls == calls0 + l.calls
          && events == events0)
    // a stored session is used as it is
    && (l.found ==>
          && r.Success?
          && r.value.id == id && r.value.data == l.data && r.value.ttl == 0
          && !r.value.isFresh && !r.value.modified
          && entries == entries0
          && calls == calls0 + l.calls
          && events == events0)
    // otherwise the stale key is dropped and a fresh session announced
    && (!l.found && l.outcome.Pass? && id != "" && OpForget in faults ==>
          && r == Failure(Plain(faults[OpForget]))
          && entries == entries0
          && calls == calls0 + l.calls + [Call(OpForget, Key(id))]
          && events == events0)
    && (!l.found && l.outcome.Pass? && !(id != "" && OpForget in faults) ==>
          var newId := o.generator(seed);
          var kept := if id != "" then entries0 - {Key(id)} else entries0;
          var forget := if id != "" then [Call(OpForget, Key(id))] else [];
          var sy := SyncEffect(newId, true, o.ttl, o, kept, faults);
          && entries == kept
          && calls == calls0 + l.calls + forget + sy.calls
          && events == events0 + sy.events
          && (sy.outcome.Fail? ==> r == Failure(sy.outcome.error))
          && (sy.outcome.Pass? ==>
                && r.Success?
                && r.value.id == newId && r.value.data == map[CreatedAtKey := Str(now)]
                && r.value.ttl == o.ttl && r.value.isFresh && r.value.modified))
  }

  /** The fields of the session a call returned, or its error. */
  function Viewed(r: Result<Session, Error>): Result<Fields, Error>
    reads if r.Success? then {r.value} else {}
  {
    if r.Success? then Success(r.value.View()) else Failure(r.error)
  }

  class Session {
    var id: string
    var data: Doc
    var ttl: int
    var isFresh: bool
    var modified: bool
    const opt: Options
    const ctx: Ctx
    const cache: Store

    ghost predicate Valid()
    {
      opt.Valid()
    }

    /** The `&session{...}` literal in New. */
    constructor (id: string, opt: Options, ctx: Ctx, cache: Store)
      requires opt.Valid()
      ensures Valid()
      ensures this.id == id && this.opt == opt && this.ctx == ctx && this.cache == cache
      ensures data == map[] && ttl == 0 && !isFresh && !modified
    {
      this.id := id;
      this.opt := opt;
      this.ctx := ctx;
      this.cache := cache;
      data := map[];
      ttl := 0;
      isFresh := false;
      modified := false;
    }

    /** New: builds the options, reads the identifier from the request, loads
        the session and, when it is not found, starts a fresh one. The
        read-only flag is never consulted. */
    static method New(ctx: Ctx, cache: Store, options: seq<Opt>, seed: nat, now: string)
      returns (r: Result<Session, Error>)
      modifies ctx, cache
      ensures cache.faults == old(cache.faults)
      ensures r.Success? ==> var s := r.value;
        && fresh(s) && s.Valid() && s.ctx == ctx && s.cache == cache
        && s.opt == Configured(options)
      ensures Opened(ctx.req, options, seed, now, cache.faults, old(cache.entries), old(cache.calls), old(ctx.events),
                     Viewed(r), cache.entries, cache.calls, ctx.events)
    {
      var o := Build(options);
      var id := IncomingId(ctx.req, o);
      var s := new Session(id, o, ctx, cache);
      var ok, err := s.Load();
      if err.Fail? {
        return Failure(err.error);
      }
      if !ok {
        var e := s.Fresh(seed, now);
        if e.Fail? {
          return Failure(e.error);
        }
      }
      return Success(s);
    }

    /** The session's fields as they stand. */
    function View(): Fields
      reads this
    {
      Fields(id, data, ttl, isFresh, modified)
    }

    /** Id(). */
    function Id(): (r: string)
      reads this
      ensures r == id
    {
      id
    }

    /** Get(k): the stored value, or nil. */
    function Get(k: string): (r: Value)
      reads this
      ensures k in data ==> r == data[k]
      ensures k !in data ==> r == Null
    {
      if k in data then data[k] else Null
    }

    /** Exists(k). */
    function Exists(k: string): (r: bool)
      reads this
      ensures r <==> k in data
    {
      k in data
    }

    /** The raw created_at text, when it is a string (CreatedAt without the
        time parsing). */
    function CreatedAtText(): (r: Option<string>)
      reads this
      ensures r.Some? <==> CreatedAtKey in data && data[CreatedAtKey].Str?
      ensures r.Some? ==> data[CreatedAtKey] == Str(r.value)
    {
      if CreatedAtKey in data && data[CreatedAtKey].Str? then Some(data[CreatedAtKey].s) else None
    }

    function IsHeader(): bool
    {
      opt.header
    }

    function GetName(): string
    {
      opt.name
    }

    /** Set(k, v): a key that is blank after trimming is ignored; otherwise
        the value is stored under the trimmed key and the session is marked
        modified. */
    method Set(k: string, v: Value)
      modifies this`data, this`modified
      ensures TrimSpace(k) == "" ==> data == old(data) && modified == old(modified)
      ensures TrimSpace(k) != "" ==> data == old(data)[TrimSpace(k) := v] && modified
      // what Get and Exists read back afterwards
      ensures TrimSpace(k) != "" ==> Get(TrimSpace(k)) == v && Exists(TrimSpace(k))
      ensures forall j :: j != TrimSpace(k) ==> Get(j) == old(Get(j)) && Exists(j) == old(Exists(j))
    {
      var key := TrimSpace(k);
      if key != "" {
        data := data[key := v];
        modified := true;
      }
    }

    /** Delete(k): removes the key as given (untrimmed) and marks the
        session modified, whether or not the key was there. */
    method Delete(k: string)
      modifies this`data, this`modified
      ensures data == old(data) - {k} && modified
      ensures !Exists(k) && Get(k) == Null
    {
      data := data - {k};
      modified := true;
    }

    /** AddTTL(t): a non-positive duration changes nothing; otherwise the
        pending change becomes "extend by t", the session is marked
        modified and the transport is synchronised. */
    method AddTTL(t: int) returns (r: Outcome<Error>)
      requires Valid()
      modifies this`ttl, this`modified, ctx, cache`calls
      ensures t <= 0 ==>
        && r == Pass && ttl == old(ttl) && modified == old(modified)
        && ctx.events == old(ctx.events) && cache.calls == old(cache.calls)
      ensures t > 0 ==>
        var sy := SyncEffect(id, isFresh, t, opt, cache.entries, cache.faults);
        && ttl == t && modified
        && ctx.events == old(ctx.events) + sy.events && cache.calls == old(cache.calls) + sy.calls && r == sy.outcome
    {
      if t <= 0 {
        return Pass;
      }
      ttl := t;
      modified := true;
      r := Sync();
    }

    /** SetTTL(t): a non-positive duration changes nothing; otherwise the
        pending change becomes "set to t" (stored as -t), the session is
        marked modified and the transport is synchronised. */
    method SetTTL(t: int) returns (r: Outcome<Error>)
      requires Valid()
      modifies this`ttl, this`modified, ctx, cache`calls
      ensures t <= 0 ==>
        && r == Pass && ttl == old(ttl) && modified == old(modified)
        && ctx.events == old(ctx.events) && cache.calls == old(cache.calls)
      ensures t > 0 ==>
        var sy := SyncEffect(id, isFresh, -t, opt, cache.entries, cache.faults);
        && ttl == -t && modified
        && ctx.events == old(ctx.events) + sy.events && cache.calls == old(cache.calls) + sy.calls && r == sy.outcome
    {
      if t <= 0 {
        return Pass;
      }
      ttl := -t;
      modified := true;
      r := Sync();
    }

    /** Destroy: with an id, deletes the stored session and clears the id and
        the data; fresh, modified and the pending TTL are left as they were. */
    method Destroy() returns (r: Outcome<Error>)
      modifies this`id, this`data, cache`entries, cache`calls
      ensures old(id) == "" ==>
        && r == Pass && id == old(id) && data == old(data)
        && cache.entries == old(cache.entries) && cache.calls == old(cache.calls)
      ensures old(id) != "" ==> cache.calls == old(cache.calls) + [Call(OpForget, Key(old(id)))]
      ensures old(id) != "" && OpForget in cache.faults ==>
        && r == Fail(Plain(cache.faults[OpForget])) && id == old(id) && data == old(data)
        && cache.entries == old(cache.entries)
      ensures old(id) != "" && OpForget !in cache.faults ==>
        && r == Pass && id == "" && data == map[] && cache.entries == old(cache.entries) - {Key(old(id))}
    {
      if id == "" {
        return Pass;
      }
      var err := cache.Forget(Key(id));
      if err.Fail? {
        return err;
      }
      id := "";
      data := map[];
      r := Pass;
    }

    /** Save: persists the session when it has an id and is fresh or
        modified. Save itself never clears fresh, modified or the pending
        TTL. */
    method Save() returns (r: Outcome<Error>)
      modifies cache`entries, cache`calls
      ensures var e := SaveEffect(id, data, ttl, isFresh, modified, opt.ttl, old(cache.entries), cache.faults);
        cache.entries == e.entries && cache.calls == old(cache.calls) + e.calls && r == e.outcome
      ensures isFresh == old(isFresh) && modified == old(modified) && ttl == old(ttl)
    {
      if id == "" || (!isFresh && !modified) {
        return Pass;
      }
      var encoded := Encode(data);
      if encoded.Failure? {
        return Fail(Plain(encoded.error));
      }
      var blob := encoded.value;
      if isFresh {
        r := cache.Put(Key(id), blob, opt.ttl);
        return;
      }
      if ttl > 0 {
        var remaining := cache.TTL(Key(id));
        if remaining.Failure? {
          return Fail(remaining.error);
        }
        var newTTL := if remaining.value <= 0 then ttl else remaining.value + ttl;
        r := cache.Put(Key(id), blob, newTTL);
        return;
      }
      if ttl < 0 {
        r := cache.Put(Key(id), blob, -ttl);
        return;
      }
      var updated := cache.Update(Key(id), blob);
      r := if updated.Failure? then Fail(updated.error) else Pass;
    }

    /** Fresh: drops the stored session (when there is an id), then starts a
        new one: a generated id, the configured TTL as pending value, data
        holding only created_at, fresh and modified; finally synchronises
        the transport. */
    method Fresh(seed: nat, now: string) returns (r: Outcome<Error>)
      requires Valid()
      modifies this`id, this`data, this`ttl, this`isFresh, this`modified, ctx, cache
      ensures cache.faults == old(cache.faults)
      ensures old(id) != "" && OpForget in cache.faults ==>
        && r == Fail(Plain(cache.faults[OpForget]))
        && id == old(id) && data == old(data) && ttl == old(ttl)
        && isFresh == old(isFresh) && modified == old(modified)
        && cache.entries == old(cache.entries)
        && cache.calls == old(cache.calls) + [Call(OpForget, Key(old(id)))]
        && ctx.events == old(ctx.events)
      ensures !(old(id) != "" && OpForget in cache.faults) ==>
        var entries := if old(id) != "" then old(cache.entries) - {Key(old(id))} else old(cache.entries);
        var forget := if old(id) != "" then [Call(OpForget, Key(old(id)))] else [];
        var sy := SyncEffect(opt.generator(seed), true, opt.ttl, opt, entries, cache.faults);
        && id == opt.generator(seed) && ttl == opt.ttl
        && data == map[CreatedAtKey := Str(now)] && isFresh && modified
        && cache.entries == entries
        && cache.calls == old(cache.calls) + forget + sy.calls
        && ctx.events == old(ctx.events) + sy.events
        && r == sy.outcome
    {
      if id != "" {
        var err := cache.Forget(Key(id));
        if err.Fail? {
          return err;
        }
      }
      id := opt.generator(seed);
      ttl := opt.ttl;
      data := map[];
      isFresh := true;
      modified := true;
      data := data[CreatedAtKey := Str(now)];
      r := Sync();
    }

    /** Load: with an id held by the store, replaces the data with the
        decoded stored document and reports true. */
    method Load() returns (ok: bool, r: Outcome<Error>)
      modifies this`data, cache`calls
      ensures var l := LoadEffect(id, old(data), cache.entries, cache.faults);
        ok == l.found && data == l.data && cache.calls == old(cache.calls) + l.calls && r == l.outcome
    {
      if id == "" {
        return false, Pass;
      }
      var held := cache.Exists(Key(id));
      if held.Failure? {
        return false, Fail(held.error);
      }
      if !held.value {
        return false, Pass;
      }
      var caster := cache.Cast(Key(id));
      if caster.Failure? {
        return false, Fail(caster.error);
      }
      data := map[];
      var decoded := Decode(caster.value);
      if decoded.Failure? {
        return false, Fail(Plain(decoded.error));
      }
      data := decoded.value;
      return true, Pass;
    }

    /** sync: writes the id to the response header, or a cookie whose
        lifetime mirrors what Save will write. */
    method Sync() returns (r: Outcome<Error>)
      requires Valid()
      modifies ctx, cache`calls
      ensures var sy := SyncEffect(id, isFresh, ttl, opt, cache.entries, cache.faults);
        ctx.events == old(ctx.events) + sy.events && cache.calls == old(cache.calls) + sy.calls && r == sy.outcome
    {
      if id == "" {
        return Pass;
      }
      if opt.header {
        ctx.Set(opt.name, id);
        return Pass;
      }
      var lifetime := ttl;
      if !isFresh {
        if ttl < 0 {
          lifetime := -ttl;
        } else if ttl > 0 {
          var cacheTTL := cache.TTL(Key(id));
          if cacheTTL.Failure? {
            return Fail(cacheTTL.error);
          } else if cacheTTL.value > 0 {
            lifetime := lifetime + cacheTTL.value;
          }
        }
      }
      ctx.SetCookie(Cookie(opt.name, id, lifetime, opt.cookie.value));
      r := Pass;
    }
  }

  /** Save leaves a session without an id, or one that is neither fresh nor
      modified, alone: no store call, no error. */
  lemma {:induction false} SaveSkipsUnchanged(id: string, data: Doc, pending: int, isFresh: bool, modified: bool,
                                              configured: int, entries: Entries, faults: map<Op, string>)
    requires id == "" || (!isFresh && !modified)
    ensures SaveEffect(id, data, pending, isFresh, modified, configured, entries, faults) == Effect(entries, [], Pass)
  {
  }

  /** Save writes no key but the session's own and leaves every other entry
      as it was. */
  lemma {:induction false} SaveTouchesOnlyItsKey(id: string, data: Doc, pending: int, isFresh: bool, modified: bool,
                                                 configured: int, entries: Entries, faults: map<Op, string>, k: string)
    requires k != Key(id)
    ensures var e := SaveEffect(id, data, pending, isFresh, modified, configured, entries, faults);
      && (k in e.entries <==> k in entries)
      && (k in entries ==> e.entries[k] == entries[k])
      && (forall c :: c in e.calls ==> c.key == Key(id))
  {
  }

  /** Every Put that Save makes and that succeeds stores the encoded data
      with a positive TTL: the configured one for a fresh session, the
      extended or replaced one otherwise. */
  lemma {:induction false} SavePutsPositiveTTL(id: string, data: Doc, pending: int, isFresh: bool, modified: bool,
                                               configured: int, entries: Entries, faults: map<Op, string>)
    requires configured > 0
    ensures var e := SaveEffect(id, data, pending, isFresh, modified, configured, entries, faults);
      Call(OpPut, Key(id)) in e.calls && e.outcome.Pass? ==>
        && Key(id) in e.entries && e.entries[Key(id)].blob == Encoded(data) && e.entries[Key(id)].ttl > 0
        && (isFresh ==> e.entries[Key(id)].ttl == configured)
        && (!isFresh ==> e.entries[Key(id)].ttl == SaveTTL(pending, Remaining(entries, Key(id))))
  {
    var e := SaveEffect(id, data, pending, isFresh, modified, configured, entries, faults);
    if Call(OpPut, Key(id)) in e.calls && e.outcome.Pass? {
      DecodeEncode(data);
    }
  }

  /** A fresh session is saved with one Put of its data under the
      configured TTL, whatever TTL change is pending. */
  lemma {:induction false} SaveFreshUsesConfiguredTTL(id: string, data: Doc, pending: int, modified: bool,
                                                      configured: int, entries: Entries, faults: map<Op, string>)
    requires id != "" && EncodableDoc(data) && OpPut !in faults
    ensures SaveEffect(id, data, pending, true, modified, configured, entries, faults)
      == Effect(Stored(entries, Key(id), Encoded(data), configured), [Call(OpPut, Key(id))], Pass)
  {
  }

  /** With no pending TTL change, a modified session is saved with Update:
      the stored TTL is kept, and a key the store no longer holds stays
      absent (the write is silently lost). */
  lemma {:induction false} SaveWithoutTTLChangeKeepsTTL(id: string, data: Doc, modified: bool,
                                                        configured: int, entries: Entries, faults: map<Op, string>)
    requires id != "" && modified && EncodableDoc(data) && OpUpdate !in faults
    ensures var e := SaveEffect(id, data, 0, false, modified, configured, entries, faults);
      && e.calls == [Call(OpUpdate, Key(id))] && e.outcome == Pass
      && (Key(id) in entries ==> e.entries == Stored(entries, Key(id), Encoded(data), entries[Key(id)].ttl))
      && (Key(id) !in entries ==> e.entries == entries)
  {
    DecodeEncode(data);
  }

  /** The cookie lifetime sync computes for a session that is not fresh is
      the TTL Save will write for it. */
  lemma {:induction false} CookieMatchesSave(pending: int, remaining: int)
    requires pending != 0
    ensures CookieLifetime(false, pending, remaining) == SaveTTL(pending, remaining)
  {
  }

  /** For a fresh session the two disagree as soon as the pending value is
      not the configured TTL: SetTTL(t) on a fresh session sends a cookie
      whose lifetime is -t, already expired, while Save stores the session
      for the configured TTL. */
  lemma {:induction false} FreshSetTTLCookieExpired(id: string, data: Doc, t: int, opt: Options,
                                                    entries: Entries, faults: map<Op, string>)
    requires opt.Valid() && !opt.header && id != "" && t > 0
    requires EncodableDoc(data) && OpPut !in faults
    ensures var sy := SyncEffect(id, true, -t, opt, entries, faults);
      var e := SaveEffect(id, data, -t, true, true, opt.ttl, entries, faults);
      && sy.events == [SetCookie(Cookie(opt.name, id, -t, opt.cookie.value))]
      && e.entries[Key(id)].ttl == opt.ttl
      && sy.events[0].cookie.lifetime < 0 < e.entries[Key(id)].ttl
  {
    DecodeEncode(data);
  }

  /** A session that Save wrote is found by Load with exactly the saved
      data, whatever data the loading session held before. */
  lemma {:induction false} LoadAfterSave(id: string, data: Doc, pending: int, isFresh: bool, modified: bool,
                                         configured: int, entries: Entries, faults: map<Op, string>, before: Doc)
    requires id != "" && (isFresh || modified)
    requires isFresh || pending != 0 || Key(id) in entries
    requires OpExists !in faults && OpCast !in faults
    requires SaveEffect(id, data, pending, isFresh, modified, configured, entries, faults).outcome.Pass?
    ensures var e := SaveEffect(id, data, pending, isFresh, modified, configured, entries, faults);
      var l := LoadEffect(id, before, e.entries, faults);
      && l.found && l.data == data && l.outcome == Pass
      && l.calls == [Call(OpExists, Key(id)), Call(OpCast, Key(id))]
  {
    DecodeEncode(data);
  }

  /** Load with a stored, decodable session reports it found; with a key
      the store does not hold it reports not found and keeps the data. */
  lemma {:induction false} LoadFindsExactlyHeldKeys(id: string, data: Doc, entries: Entries, faults: map<Op, string>)
    requires id != "" && OpExists !in faults && OpCast !in faults
    ensures var l := LoadEffect(id, data, entries, faults);
      && (l.found <==> Key(id) in entries && entries[Key(id)].blob.Encoded?)
      && (Key(id) !in entries ==> l.data == data && l.outcome == Pass)
      && (l.found ==> l.data == entries[Key(id)].blob.doc)
  {
  }

  /** Save does not clear the pending TTL or the modified flag, so a second
      Save of the same extended session extends it a second time. */
  lemma {:induction false} RepeatedSaveExtendsAgain(id: string, data: Doc, pending: int, configured: int,
                                                    entries: Entries, faults: map<Op, string>)
    requires id != "" && pending > 0 && EncodableDoc(data)
    requires Key(id) in entries && entries[Key(id)].ttl > 0
    requires OpTTL !in faults && OpPut !in faults
    ensures var once := SaveEffect(id, data, pending, false, true, configured, entries, faults);
      var twice := SaveEffect(id, data, pending, false, true, configured, once.entries, faults);
      && once.entries[Key(id)].ttl == entries[Key(id)].ttl + pending
      && twice.entries[Key(id)].ttl == entries[Key(id)].ttl + 2 * pending
  {
    DecodeEncode(data);
  }
}
