/** session/option.go: the session configuration record and the option
    closures that fill it in, applied in order by New. */
module SessionOption {
  import opened Wrappers
  import opened Text
  import opened Http
  import Folding

  /** time.Hour in nanoseconds (time.Duration's unit). */
  const Hour: int := 3_600_000_000_000

  /** The random draw an identifier generator consumes is a parameter of the
      model; a generator maps it to an identifier. */
  type IdGenerator = nat -> string

  /** Stand-in for the package's UUIDGenerator (not part of this model): some
      non-empty text for each random draw. */
  function UUIDGenerator(seed: nat): (id: string)
    ensures id != ""
  {
    if seed < 10 then [(seed + '0' as int) as char] else UUIDGenerator(seed / 10) + [(seed % 10 + '0' as int) as char]
  }

  /** The `option` struct. A nil cookie is None. */
  datatype Options = Options(
    ttl: int,
    name: string,
    header: bool,
    readOnly: bool,
    cookie: Option<CookieAttrs>,
    generator: IdGenerator)
  {
    /** A cookie transport always has cookie attributes to copy, and the
        default TTL is positive. */
    predicate Valid()
    {
      (header || cookie.Some?) && ttl > 0
    }
  }

  /** The record New starts from: 24h, a cookie named "session" with zero
      attributes, UUID identifiers. */
  const Defaults := Options(24 * Hour, "session", false, false, Some(ZeroCookie), UUIDGenerator)

  /** The option closures, one constructor per builder. */
  datatype Opt =
    | WithTTL(ttl: int)
    | WithHeader(name: string)
    | WithCookie(name: string, cookie: CookieAttrs)
    | WithReadonly
    | WithGenerator(generator: Option<IdGenerator>)

  /** What one option closure does to the record. */
  function Apply(o: Options, opt: Opt): (r: Options)
    ensures o.Valid() ==> r.Valid()
  {
    match opt
    case WithTTL(t) => if t > 0 then o.(ttl := t) else o
    case WithHeader(n) =>
      var name := TrimSpace(n);
      if name != "" then o.(name := name, header := true, cookie := None) else o
    case WithCookie(n, c) =>
      var name := TrimSpace(n);
      if name != "" then o.(name := name, cookie := Some(c), header := false) else o
    case WithReadonly => o.(readOnly := true)
    case WithGenerator(g) => if g.Some? then o.(generator := g.value) else o
  }

  /** The mutable `*option` the closures write to. */
  class Config {
    var ttl: int
    var name: string
    var header: bool
    var readOnly: bool
    var cookie: Option<CookieAttrs>
    var generator: IdGenerator

    function Snapshot(): Options
      reads this
    {
      Options(ttl, name, header, readOnly, cookie, generator)
    }

    constructor ()
      ensures Snapshot() == Defaults
    {
      ttl := 24 * Hour;
      name := "session";
      header := false;
      readOnly := false;
      cookie := Some(ZeroCookie);
      generator := UUIDGenerator;
    }

    /** WithTTL: keeps a positive TTL, ignores any other. */
    method WithTTL(t: int)
      modifies this
      ensures Snapshot() == Apply(old(Snapshot()), Opt.WithTTL(t))
    {
      if t > 0 {
        ttl := t;
      }
    }

    /** WithHeader: a non-blank name switches to header transport and drops
        the cookie attributes. */
    method WithHeader(n: string)
      modifies this
      ensures Snapshot() == Apply(old(Snapshot()), Opt.WithHeader(n))
    {
      var trimmed := TrimSpace(n);
      if trimmed != "" {
        name := trimmed;
        header := true;
        cookie := None;
      }
    }

    /** WithCookie: a non-blank name switches to cookie transport with the
        given attributes. */
    method WithCookie(n: string, c: CookieAttrs)
      modifies this
      ensures Snapshot() == Apply(old(Snapshot()), Opt.WithCookie(n, c))
    {
      var trimmed := TrimSpace(n);
      if trimmed != "" {
        name := trimmed;
        cookie := Some(c);
        header := false;
      }
    }

    /** WithReadonly: sets the read-only flag and nothing else. */
    method WithReadonly()
      modifies this
      ensures Snapshot() == Apply(old(Snapshot()), Opt.WithReadonly)
    {
      readOnly := true;
    }

    /** WithGenerator: keeps a non-nil generator. */
    method WithGenerator(g: Option<IdGenerator>)
      modifies this
      ensures Snapshot() == Apply(old(Snapshot()), Opt.WithGenerator(g))
    {
      if g.Some? {
        generator := g.value;
      }
    }

    /** `opt(option)`: runs one closure. */
    method Run(opt: Opt)
      modifies this
      ensures Snapshot() == Apply(old(Snapshot()), opt)
    {
      match opt {
        case WithTTL(t) => WithTTL(t);
        case WithHeader(n) => WithHeader(n);
        case WithCookie(n, c) => WithCookie(n, c);
        case WithReadonly => WithReadonly();
        case WithGenerator(g) => WithGenerator(g);
      }
    }
  }

  /** The record New configures: the defaults with every option applied in
      order. It always has a positive TTL and, for a cookie transport,
      cookie attributes. */
  function Configured(options: seq<Opt>): (o: Options)
    ensures o.Valid()
  {
    Folding.FoldKeeps(Apply, (o: Options) => o.Valid(), Defaults, options);
    Folding.Fold(Apply, Defaults, options)
  }

  /** The option loop at the top of New. */
  method Build(options: seq<Opt>) returns (o: Options)
    ensures o == Configured(options)
    ensures o.Valid()
  {
    var cfg := new Config();
    for i := 0 to |options|
      invariant cfg.Snapshot() == Folding.Fold(Apply, Defaults, options[..i])
      invariant cfg.Snapshot().Valid()
    {
      cfg.Run(options[i]);
      assert options[..i + 1][..i] == options[..i];
    }
    assert options[..|options|] == options;
    o := cfg.Snapshot();
  }

  /** A WithTTL whose argument is not positive can be dropped. */
  lemma {:induction false} NonPositiveTTLIgnored(o: Options, before: seq<Opt>, t: int, after: seq<Opt>)
    requires t <= 0
    ensures Folding.Fold(Apply, o, before + [WithTTL(t)] + after) == Folding.Fold(Apply, o, before + after)
  {
    Folding.FoldSkips(Apply, o, before, WithTTL(t), after);
  }

  /** A WithHeader or WithCookie whose name is blank can be dropped. */
  lemma {:induction false} BlankNameIgnored(o: Options, before: seq<Opt>, x: Opt, after: seq<Opt>)
    requires (x.WithHeader? || x.WithCookie?) && TrimSpace(x.name) == ""
    ensures Folding.Fold(Apply, o, before + [x] + after) == Folding.Fold(Apply, o, before + after)
  {
    Folding.FoldSkips(Apply, o, before, x, after);
  }

  /** A WithGenerator without a generator can be dropped. */
  lemma {:induction false} NilGeneratorIgnored(o: Options, before: seq<Opt>, after: seq<Opt>)
    ensures Folding.Fold(Apply, o, before + [WithGenerator(None)] + after) == Folding.Fold(Apply, o, before + after)
  {
    Folding.FoldSkips(Apply, o, before, WithGenerator(None), after);
  }

  function TTLOf(o: Options): int { o.ttl }

  /** The last positive WithTTL decides the TTL. */
  lemma {:induction false} LastTTLWins(o: Options, before: seq<Opt>, t: int, after: seq<Opt>)
    requires t > 0
    requires forall y :: y in after ==> !y.WithTTL?
    ensures Folding.Fold(Apply, o, before + [WithTTL(t)] + after).ttl == t
  {
    Folding.LastWins(Apply, TTLOf, o, before, WithTTL(t), t, after);
  }

  /** The transport a record selects: the carrier's name and whether it is
      a header, with the cookie attributes a cookie carrier uses. */
  function Transport(o: Options): (string, bool, Option<CookieAttrs>)
  {
    (o.name, o.header, o.cookie)
  }

  /** Option that may change the transport. */
  predicate SetsTransport(y: Opt)
  {
    (y.WithHeader? || y.WithCookie?) && TrimSpace(y.name) != ""
  }

  /** Of WithHeader and WithCookie, the last one with a non-blank name
      decides the name, the carrier and the cookie attributes. */
  lemma {:induction false} LastTransportWins(o: Options, before: seq<Opt>, x: Opt, after: seq<Opt>)
    requires SetsTransport(x)
    requires forall y :: y in after ==> !SetsTransport(y)
    ensures var r := Folding.Fold(Apply, o, before + [x] + after);
      && r.name == TrimSpace(x.name)
      && (r.header <==> x.WithHeader?)
      && r.cookie == (if x.WithHeader? then None else Some(x.cookie))
  {
    var v := (TrimSpace(x.name), x.WithHeader?, if x.WithHeader? then None else Some(x.cookie));
    Folding.LastWins(Apply, Transport, o, before, x, v, after);
  }

  /** WithReadonly sets the flag and leaves every other field as it was. */
  lemma {:induction false} ReadonlyOnlySetsFlag(o: Options, before: seq<Opt>, after: seq<Opt>)
    ensures var r := Folding.Fold(Apply, o, before + [WithReadonly] + after);
      var s := Folding.Fold(Apply, o, before + after);
      r == s.(readOnly := true)
  {
    Folding.FoldAppend(Apply, o, before + [WithReadonly], after);
    Folding.FoldAppend(Apply, o, before, [WithReadonly]);
    Folding.FoldAppend(Apply, o, before, after);
    var p := Folding.Fold(Apply, o, before);
    assert Folding.Fold(Apply, p, [WithReadonly]) == Apply(Folding.Fold(Apply, p, []), WithReadonly);
    ReadonlyCommutes(p, after);
  }

  /** Setting the read-only flag commutes with every option. */
  lemma {:induction false} ReadonlyCommutes(p: Options, after: seq<Opt>)
    ensures Folding.Fold(Apply, p.(readOnly := true), after) == Folding.Fold(Apply, p, after).(readOnly := true)
    decreases |after|
  {
    if |after| != 0 {
      var init, y := after[..|after| - 1], after[|after| - 1];
      ReadonlyCommutes(p, init);
      ApplyKeepsReadonly(Folding.Fold(Apply, p, init), y);
    }
  }

  /** One option applied to a read-only record is the same option applied
      to the record, then marked read-only. */
  lemma {:induction false} ApplyKeepsReadonly(o: Options, y: Opt)
    ensures Apply(o.(readOnly := true), y) == Apply(o, y).(readOnly := true)
  {
  }
}
