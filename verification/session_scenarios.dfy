/** Whole-request walks through the session lifecycle against a store and a
    request built on the spot: each method runs New and the operations a
    handler would call, and reports what the store or the response observed. */
module SessionScenarios {
  import opened Wrappers
  import opened Text
  import opened Json
  import opened Errors
  import opened Http
  import opened Cache
  import opened SessionOption
  import opened Session
  import opened SessionMiddleware
  import Folding

  const Now := "2024-01-01T00:00:00Z"

  /** A store holding session "abc" with the given remaining TTL, and a
      request presenting it in the default cookie. */
  method Existing(remaining: int) returns (store: Store, ctx: Ctx, doc: Doc)
    ensures fresh(store) && fresh(ctx)
    ensures doc == map[CreatedAtKey := Str(Now)]
    ensures store.entries == map[Key("abc") := Entry(Encoded(doc), remaining)]
    ensures store.faults == map[] && store.calls == []
    ensures ctx.req.Cookies("session") == "abc" && ctx.events == []
  {
    doc := map[CreatedAtKey := Str(Now)];
    store := new Store(map[Key("abc") := Entry(Encoded(doc), remaining)], map[]);
    ctx := new Ctx(Request("GET", "/", "", map[], map["session" := "abc"]));
  }

  /** A stored session with time left: AddTTL(d) then Save leaves it with
      what it had left plus d. */
  method ExtendScenario(remaining: int, d: int) returns (stored: int)
    requires remaining > 0 && d > 0
    ensures stored == remaining + d
  {
    var store, ctx, doc := Existing(remaining);
    assert Configured([]) == Defaults;
    var created := Session.New(ctx, store, [], 0, Now);
    var s := created.value;
    var _ := s.AddTTL(d);
    var _ := s.Save();
    stored := store.entries[Key("abc")].ttl;
  }

  /** A stored session: SetTTL(d) then Save leaves it with exactly d,
      whatever it had left. */
  method SetTTLScenario(remaining: int, d: int) returns (stored: int)
    requires d > 0
    ensures stored == d
  {
    var store, ctx, doc := Existing(remaining);
    assert Configured([]) == Defaults;
    var created := Session.New(ctx, store, [], 0, Now);
    var s := created.value;
    var _ := s.SetTTL(d);
    var _ := s.Save();
    stored := store.entries[Key("abc")].ttl;
  }

  /** A request without a session: New starts a fresh one holding only
      created_at. */
  method Arrive(store: Store, seed: nat) returns (s: Session)
    requires store.entries == map[] && store.faults == map[]
    modifies store
    ensures fresh(s) && s.Valid() && s.cache == store && s.opt == Defaults
    ensures s.id == UUIDGenerator(seed) && s.data == map[CreatedAtKey := Str(Now)]
    ensures s.isFresh && s.modified
    ensures store.entries == map[] && store.faults == map[]
  {
    var ctx := new Ctx(Request("GET", "/", "", map[], map[]));
    assert Configured([]) == Defaults;
    assert IncomingId(ctx.req, Defaults) == "";
    var created := Session.New(ctx, store, [], seed, Now);
    s := created.value;
  }

  /** The handler stores `v` under a key with no surrounding white space. */
  method Record(s: Session, k: string, v: Value)
    requires k != "" && Trimmed(k) && Encodable(v) && EncodableDoc(s.data)
    modifies s`data, s`modified
    ensures s.data == old(s.data)[k := v] && EncodableDoc(s.data)
  {
    TrimmedFixed(k);
    EncodableUpdate(s.data, k, v);
    s.Set(k, v);
  }

  /** The handler stores `v` under `k` and the middleware saves the fresh
      session with the configured TTL. */
  method FirstVisit(store: Store, k: string, v: Value, seed: nat) returns (id: string, data: Doc)
    requires store.entries == map[] && store.faults == map[]
    requires k != "" && Trimmed(k) && Encodable(v)
    modifies store
    ensures id == UUIDGenerator(seed)
    ensures data == map[CreatedAtKey := Str(Now)][k := v]
    ensures store.entries == map[Key(id) := Entry(Encoded(data), 24 * Hour)] && store.faults == map[]
  {
    var s := Arrive(store, seed);
    id := s.id;
    Record(s, k, v);
    data := s.data;
    Persist(s);
  }

  /** Save of a fresh session with encodable data into a store without
      faults. */
  method Persist(s: Session)
    requires s.isFresh && s.id != "" && EncodableDoc(s.data) && s.cache.faults == map[]
    modifies s.cache
    ensures s.cache.entries == Stored(old(s.cache.entries), Key(s.id), Encoded(s.data), s.opt.ttl)
    ensures s.cache.faults == map[]
  {
    SaveFreshUsesConfiguredTTL(s.id, s.data, s.ttl, s.modified, s.opt.ttl, s.cache.entries, s.cache.faults);
    var _ := s.Save();
  }

  /** A request presenting a stored id: New loads the stored document. */
  method Revisit(store: Store, id: string, seed: nat) returns (data: Doc)
    requires id != "" && Key(id) in store.entries && store.entries[Key(id)].blob.Encoded?
    requires store.faults == map[]
    modifies store
    ensures data == old(store.entries[Key(id)].blob.doc)
  {
    var ctx := new Ctx(Request("GET", "/", "", map[], map["session" := id]));
    assert Configured([]) == Defaults;
    assert IncomingId(ctx.req, Defaults) == id;
    var created := Session.New(ctx, store, [], seed, Now);
    data := created.value.data;
  }

  /** A first request without a session gets a fresh one and stores a value
      in it; a second request presenting the new id gets back exactly the
      data the first one saved, created_at included. */
  method RoundTripScenario(k: string, v: Value, seed: nat) returns (id: string, reloaded: Doc)
    requires k != "" && Trimmed(k) && Encodable(v)
    ensures id == UUIDGenerator(seed)
    ensures reloaded == map[CreatedAtKey := Str(Now)][k := v]
  {
    var store := new Store(map[], map[]);
    var data;
    id, data := FirstVisit(store, k, v, seed);
    reloaded := Revisit(store, id, seed + 1);
  }

  /** A request presenting an id the store no longer holds: New probes the
      store, forgets the stale key and starts a fresh session with a new
      id, announced in a cookie carrying the configured TTL. */
  method StaleIdScenario(seed: nat) returns (id: string, calls: seq<Call>, events: seq<Event>)
    ensures id == UUIDGenerator(seed)
    ensures calls == [Call(OpExists, Key("gone")), Call(OpForget, Key("gone"))]
    ensures events == [SetCookie(Cookie("session", id, 24 * Hour, ZeroCookie))]
  {
    var store := new Store(map[], map[]);
    var ctx := new Ctx(Request("GET", "/", "", map[], map["session" := "gone"]));
    assert Configured([]) == Defaults;
    var created := Session.New(ctx, store, [], seed, Now);
    id := created.value.id;
    calls := store.calls;
    events := ctx.events;
  }

  /** With header transport the fresh id goes to the response header. */
  method HeaderScenario(name: string, seed: nat) returns (events: seq<Event>)
    requires name != "" && Trimmed(name)
    ensures events == [SetHeader(name, UUIDGenerator(seed))]
  {
    TrimmedFixed(name);
    Folding.FoldOne(Apply, Defaults, WithHeader(name));
    var store := new Store(map[], map[]);
    var ctx := new Ctx(Request("GET", "/", "", map[], map[]));
    var o := Apply(Defaults, WithHeader(name));
    assert o.header && o.name == name;
    assert IncomingId(ctx.req, o) == "";
    assert LoadEffect("", map[], store.entries, store.faults).found == false;
    assert SyncEffect(UUIDGenerator(seed), true, o.ttl, o, map[], map[]).events == [SetHeader(name, UUIDGenerator(seed))];
    var created := Session.New(ctx, store, [WithHeader(name)], seed, Now);
    events := ctx.events;
  }

  /** A loaded session that nothing changed is not written back. */
  method CleanSaveScenario() returns (callsBySave: seq<Call>)
    ensures callsBySave == []
  {
    var store, ctx, doc := Existing(Hour);
    assert Configured([]) == Defaults;
    var created := Session.New(ctx, store, [], 0, Now);
    var s := created.value;
    var before := |store.calls|;
    var _ := s.Save();
    callsBySave := store.calls[before..];
  }

  /** Destroy removes the stored session; a Save afterwards, though the
      session is still marked modified, makes no store call because it has
      no id. */
  method DestroyThenSaveScenario() returns (held: bool, callsBySave: seq<Call>)
    ensures !held && callsBySave == []
  {
    var store, ctx, doc := Existing(Hour);
    assert Configured([]) == Defaults;
    var created := Session.New(ctx, store, [], 0, Now);
    var s := created.value;
    assert s.id == "abc";
    s.Delete("user");
    var _ := s.Destroy();
    assert s.id == "" && Key("abc") !in store.entries;
    var before := |store.calls|;
    var _ := s.Save();
    held := Key("abc") in store.entries;
    callsBySave := store.calls[before..];
  }

  /** A first request without a session through the middleware, whose
      chain stores a user name and succeeds: New starts a fresh session and
      announces it in a 24h cookie, the session is exposed and the chain
      runs, and the session is written, user name included, under its new
      key with the configured 24h. */
  method FirstVisitServeScenario(seed: nat) returns (r: Outcome<Error>, events: seq<Event>, calls: seq<Call>, entries: Entries)
    ensures r == Pass
    ensures events == [SetCookie(Cookie("session", UUIDGenerator(seed), 24 * Hour, ZeroCookie)), StoreLocal(LocalsKey), CallNext]
    ensures calls == [Call(OpPut, Key(UUIDGenerator(seed)))]
    ensures entries == map[Key(UUIDGenerator(seed)) := Entry(Encoded(map[CreatedAtKey := Str(Now), "user" := Str("ada")]), 24 * Hour)]
  {
    var store := new Store(map[], map[]);
    var ctx := new Ctx(Request("GET", "/", "", map[], map[]));
    assert Configured([]) == Defaults;
    assert IncomingId(ctx.req, Defaults) == "";
    TrimmedFixed("user");
    var edits := [SetValue("user", Str("ada"))];
    assert edits[..0] == [];
    ghost var created, eventsAfterNew, entriesAfterNew, callsAfterNew;
    r, created, eventsAfterNew, entriesAfterNew, callsAfterNew := Serve(ctx, store, [], seed, Now, false, edits, Pass);
    events := ctx.events;
    calls := store.calls;
    entries := store.entries;
  }
}
