/** csrf/option.go: the CSRF middleware's configuration and the option
    closures that fill it in. */
module CsrfOption {
  import opened Wrappers
  import opened Http
  import Folding

  /** The `option` struct: where the token is read from (a request header
      when `header`, a form field otherwise) and under which name, the
      failure handler and the skip predicate (nil is None). */
  datatype Options = Options(
    header: bool,
    key: string,
    fail: Option<Handler>,
    next: Option<Request -> bool>)

  /** The record NewMiddleware starts from. */
  const Defaults := Options(false, "csrf_token", None, None)

  datatype Opt =
    | WithFail(handler: Option<Handler>)
    | WithNext(skip: Option<Request -> bool>)
    | WithHeader(name: string)
    | WithForm(name: string)

  /** What one option closure does to the record: the handlers are stored
      as given (nil included), a carrier is switched only for a non-empty
      name. */
  function Apply(o: Options, opt: Opt): (r: Options)
    ensures o.key != "" ==> r.key != ""
  {
    match opt
    case WithFail(h) => o.(fail := h)
    case WithNext(n) => o.(next := n)
    case WithHeader(name) => if name != "" then o.(header := true, key := name) else o
    case WithForm(name) => if name != "" then o.(header := false, key := name) else o
  }

  /** The mutable `*option` the closures write to. */
  class Config {
    var header: bool
    var key: string
    var fail: Option<Handler>
    var next: Option<Request -> bool>

    function Snapshot(): Options
      reads this
    {
      Options(header, key, fail, next)
    }

    constructor ()
      ensures Snapshot() == Defaults
    {
      header := false;
      key := "csrf_token";
      fail := None;
      next := None;
    }

    /** WithFail: stores the failure handler, nil included. */
    method WithFail(h: Option<Handler>)
      modifies this
      ensures Snapshot() == Apply(old(Snapshot()), Opt.WithFail(h))
    {
      fail := h;
    }

    /** WithNext: stores the skip predicate, nil included. */
    method WithNext(n: Option<Request -> bool>)
      modifies this
      ensures Snapshot() == Apply(old(Snapshot()), Opt.WithNext(n))
    {
      next := n;
    }

    /** WithHeader: a non-empty name selects that request header. */
    method WithHeader(name: string)
      modifies this
      ensures Snapshot() == Apply(old(Snapshot()), Opt.WithHeader(name))
    {
      if name != "" {
        header := true;
        key := name;
      }
    }

    /** WithForm: a non-empty name selects that form field. */
    method WithForm(name: string)
      modifies this
      ensures Snapshot() == Apply(old(Snapshot()), Opt.WithForm(name))
    {
      if name != "" {
        header := false;
        key := name;
      }
    }

    method Run(opt: Opt)
      modifies this
      ensures Snapshot() == Apply(old(Snapshot()), opt)
    {
      match opt {
        case WithFail(h) => WithFail(h);
        case WithNext(n) => WithNext(n);
        case WithHeader(name) => WithHeader(name);
        case WithForm(name) => WithForm(name);
      }
    }
  }

  /** The record NewMiddleware configures; its token name is never empty. */
  function Configured(options: seq<Opt>): (o: Options)
    ensures o.key != ""
  {
    Folding.FoldKeeps(Apply, (o: Options) => o.key != "", Defaults, options);
    Folding.Fold(Apply, Defaults, options)
  }

  /** The option loop at the top of NewMiddleware. */
  method Build(options: seq<Opt>) returns (o: Options)
    ensures o == Configured(options)
    ensures o.key != ""
  {
    var cfg := new Config();
    for i := 0 to |options|
      invariant cfg.Snapshot() == Folding.Fold(Apply, Defaults, options[..i])
    {
      cfg.Run(options[i]);
      assert options[..i + 1][..i] == options[..i];
    }
    assert options[..|options|] == options;
    o := cfg.Snapshot();
  }

  /** A WithHeader or WithForm with an empty name can be dropped. */
  lemma {:induction false} EmptyNameIgnored(o: Options, before: seq<Opt>, x: Opt, after: seq<Opt>)
    requires (x.WithHeader? || x.WithForm?) && x.name == ""
    ensures Folding.Fold(Apply, o, before + [x] + after) == Folding.Fold(Apply, o, before + after)
  {
    Folding.FoldSkips(Apply, o, before, x, after);
  }

  function Carrier(o: Options): (bool, string)
  {
    (o.header, o.key)
  }

  predicate SetsCarrier(y: Opt)
  {
    (y.WithHeader? || y.WithForm?) && y.name != ""
  }

  /** Of WithHeader and WithForm, the last one with a non-empty name decides
      where the token is read from. */
  lemma {:induction false} LastCarrierWins(o: Options, before: seq<Opt>, x: Opt, after: seq<Opt>)
    requires SetsCarrier(x)
    requires forall y :: y in after ==> !SetsCarrier(y)
    ensures var r := Folding.Fold(Apply, o, before + [x] + after);
      r.key == x.name && (r.header <==> x.WithHeader?)
  {
    Folding.LastWins(Apply, Carrier, o, before, x, (x.WithHeader?, x.name), after);
  }

  function FailOf(o: Options): Option<Handler>
  {
    o.fail
  }

  /** The last WithFail decides the failure handler, even when it is nil. */
  lemma {:induction false} LastFailWins(o: Options, before: seq<Opt>, h: Option<Handler>, after: seq<Opt>)
    requires forall y :: y in after ==> !y.WithFail?
    ensures Folding.Fold(Apply, o, before + [WithFail(h)] + after).fail == h
  {
    Folding.LastWins(Apply, FailOf, o, before, WithFail(h), h, after);
  }

  function NextOf(o: Options): Option<Request -> bool>
  {
    o.next
  }

  /** The last WithNext decides the skip predicate, even when it is nil. */
  lemma {:induction false} LastNextWins(o: Options, before: seq<Opt>, n: Option<Request -> bool>, after: seq<Opt>)
    requires forall y :: y in after ==> !y.WithNext?
    ensures Folding.Fold(Apply, o, before + [WithNext(n)] + after).next == n
  {
    Folding.LastWins(Apply, NextOf, o, before, WithNext(n), n, after);
  }
}
