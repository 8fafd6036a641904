/** uploader/option.go: the uploader's configuration record and the option
    closures that fill it in, applied in order by NewUploader. */
module UploaderOption {
  import opened Wrappers
  import opened Text
  import opened Cache
  import Folding

  /** The `option` struct: the queue that collects files whose removal
      failed (nil is None), numbered rather than timestamped file names,
      and the path prefix left out of file URLs. */
  datatype Options = Options(queue: Option<Queue>, numbered: bool, prefix: string)

  /** The record NewUploader starts from. */
  const Defaults := Options(None, false, "")

  /** The option closures. WithPrefix carries the prefix as the builder
      captured it, which is already trimmed once (see `Prefix`). */
  datatype Opt =
    | WithQueue(queue: Option<Queue>)
    | WithNumbered
    | WithTimestamped
    | WithPrefix(captured: string)

  /** The builder WithPrefix(prefix): trims its argument before building
      the closure. */
  function Prefix(prefix: string): (x: Opt)
    ensures x.WithPrefix? && Trimmed(x.captured)
  {
    WithPrefix(TrimSpace(prefix))
  }

  /** What one closure does to the record; the closure trims the captured
      prefix a second time. A trimmed prefix stays trimmed. */
  function Apply(o: Options, opt: Opt): (r: Options)
    ensures Trimmed(o.prefix) ==> Trimmed(r.prefix)
  {
    match opt
    case WithQueue(q) => o.(queue := q)
    case WithNumbered => o.(numbered := true)
    case WithTimestamped => o.(numbered := false)
    case WithPrefix(p) => o.(prefix := TrimSpace(p))
  }

  /** The mutable `*option` the closures write to. */
  class Config {
    var queue: Option<Queue>
    var numbered: bool
    var prefix: string

    function Snapshot(): Options
      reads this
    {
      Options(queue, numbered, prefix)
    }

    constructor ()
      ensures Snapshot() == Defaults
    {
      queue := None;
      numbered := false;
      prefix := "";
    }

    /** WithQueue: stores the queue, nil included. */
    method WithQueue(q: Option<Queue>)
      modifies this
      ensures Snapshot() == Apply(old(Snapshot()), Opt.WithQueue(q))
    {
      queue := q;
    }

    /** WithNumbered: numbered file names. */
    method WithNumbered()
      modifies this
      ensures Snapshot() == Apply(old(Snapshot()), Opt.WithNumbered)
    {
      numbered := true;
    }

    /** WithTimestamped: timestamped file names. */
    method WithTimestamped()
      modifies this
      ensures Snapshot() == Apply(old(Snapshot()), Opt.WithTimestamped)
    {
      numbered := false;
    }

    /** WithPrefix's closure: stores the captured prefix, trimmed again. */
    method WithPrefix(captured: string)
      modifies this
      ensures Snapshot() == Apply(old(Snapshot()), Opt.WithPrefix(captured))
    {
      prefix := TrimSpace(captured);
    }

    /** `opt(option)`: runs one closure. */
    method Run(opt: Opt)
      modifies this
      ensures Snapshot() == Apply(old(Snapshot()), opt)
    {
      match opt {
        case WithQueue(q) => WithQueue(q);
        case WithNumbered => WithNumbered();
        case WithTimestamped => WithTimestamped();
        case WithPrefix(p) => WithPrefix(p);
      }
    }
  }

  /** The record NewUploader configures; its prefix never has surrounding
      white space. */
  function Configured(options: seq<Opt>): (o: Options)
    ensures Trimmed(o.prefix)
  {
    Folding.FoldKeeps(Apply, (o: Options) => Trimmed(o.prefix), Defaults, options);
    Folding.Fold(Apply, Defaults, options)
  }

  /** The option loop in NewUploader. */
  method Build(options: seq<Opt>) returns (o: Options)
    ensures o == Configured(options)
    ensures Trimmed(o.prefix)
  {
    var cfg := new Config();
    for i := 0 to |options|
      invariant cfg.Snapshot() == Folding.Fold(Apply, Defaults, options[..i])
    {
      cfg.Run(options[i]);
      assert options[..i + 1][..i] == options[..i];
    }
    assert options[..|options|] == options;
    o := cfg.Snapshot();
  }

  /** WithPrefix(p) leaves exactly `p` without its surrounding white space:
      the second trim changes nothing. */
  lemma {:induction false} PrefixTrimmedOnce(o: Options, p: string)
    ensures Apply(o, Prefix(p)) == o.(prefix := TrimSpace(p))
  {
    TrimSpaceIdempotent(p);
  }

  /** Each option sets its own field and leaves the other two as they
      were. */
  lemma {:induction false} OnlyOwnField(o: Options, x: Opt)
    ensures var r := Apply(o, x);
      && (r.queue == if x.WithQueue? then x.queue else o.queue)
      && (r.numbered == if x.WithNumbered? then true else if x.WithTimestamped? then false else o.numbered)
      && (r.prefix == if x.WithPrefix? then TrimSpace(x.captured) else o.prefix)
  {
  }

  function QueueOf(o: Options): Option<Queue> { o.queue }
  function NumberedOf(o: Options): bool { o.numbered }
  function PrefixOf(o: Options): string { o.prefix }

  /** The last WithQueue decides the queue, even when it is nil. */
  lemma {:induction false} LastQueueWins(o: Options, before: seq<Opt>, q: Option<Queue>, after: seq<Opt>)
    requires forall y :: y in after ==> !y.WithQueue?
    ensures Folding.Fold(Apply, o, before + [WithQueue(q)] + after).queue == q
  {
    Folding.LastWins(Apply, QueueOf, o, before, WithQueue(q), q, after);
  }

  /** Of WithNumbered and WithTimestamped, the last one decides the naming
      scheme. */
  lemma {:induction false} LastNamingWins(o: Options, before: seq<Opt>, x: Opt, after: seq<Opt>)
    requires x.WithNumbered? || x.WithTimestamped?
    requires forall y :: y in after ==> !y.WithNumbered? && !y.WithTimestamped?
    ensures Folding.Fold(Apply, o, before + [x] + after).numbered == x.WithNumbered?
  {
    Folding.LastWins(Apply, NumberedOf, o, before, x, x.WithNumbered?, after);
  }

  /** The last WithPrefix decides the prefix, trimmed. */
  lemma {:induction false} LastPrefixWins(o: Options, before: seq<Opt>, p: string, after: seq<Opt>)
    requires forall y :: y in after ==> !y.WithPrefix?
    ensures Folding.Fold(Apply, o, before + [Prefix(p)] + after).prefix == TrimSpace(p)
  {
    TrimSpaceIdempotent(p);
    Folding.LastWins(Apply, PrefixOf, o, before, Prefix(p), TrimSpace(p), after);
  }
}
