/** limiter/option.go: the rate limiter's configuration record and the
    option closures that fill it in. The middleware that builds the record
    and its defaults is not part of this model, so records here start from
    any given record. */
module LimiterOption {
  import opened Wrappers
  import opened Http
  import Folding

  /** The `option` struct. `attempts` is a Go `uint`, so never negative;
      `ttl` is a duration in nanoseconds; the three callbacks are nil when
      None. `fail` receives the time left until the limit resets. */
  datatype Options = Options(
    key: string,
    attempts: nat,
    ttl: int,
    skipFail: bool,
    fail: Option<int -> Handler>,
    next: Option<Request -> bool>,
    keys: Option<Request -> seq<string>>)

  datatype Opt =
    | WithMaxAttempts(attempts: nat)
    | WithTTl(ttl: int)
    | WithSkipFail(skipFail: bool)
    | WithFail(fail: Option<int -> Handler>)
    | WithNext(next: Option<Request -> bool>)
    | WithKeys(keys: Option<Request -> seq<string>>)

  /** What one option closure does to the record: the two limits are
      replaced only by a positive value, everything else as given, nil
      included. A positive limit therefore stays positive. */
  function Apply(o: Options, opt: Opt): (r: Options)
    ensures o.attempts > 0 ==> r.attempts > 0
    ensures o.ttl > 0 ==> r.ttl > 0
    ensures r.key == o.key
  {
    match opt
    case WithMaxAttempts(n) => if n > 0 then o.(attempts := n) else o
    case WithTTl(t) => if t > 0 then o.(ttl := t) else o
    case WithSkipFail(b) => o.(skipFail := b)
    case WithFail(f) => o.(fail := f)
    case WithNext(n) => o.(next := n)
    case WithKeys(k) => o.(keys := k)
  }

  /** The mutable `*option` the closures write to. */
  class Config {
    var key: string
    var attempts: nat
    var ttl: int
    var skipFail: bool
    var fail: Option<int -> Handler>
    var next: Option<Request -> bool>
    var keys: Option<Request -> seq<string>>

    function Snapshot(): Options
      reads this
    {
      Options(key, attempts, ttl, skipFail, fail, next, keys)
    }

    constructor (start: Options)
      ensures Snapshot() == start
    {
      key := start.key;
      attempts := start.attempts;
      ttl := start.ttl;
      skipFail := start.skipFail;
      fail := start.fail;
      next := start.next;
      keys := start.keys;
    }

    /** WithMaxAttempts: keeps a positive count, ignores zero. */
    method WithMaxAttempts(n: nat)
      modifies this
      ensures Snapshot() == Apply(old(Snapshot()), Opt.WithMaxAttempts(n))
    {
      if n > 0 {
        attempts := n;
      }
    }

    /** WithTTl: keeps a positive window, ignores any other. */
    method WithTTl(t: int)
      modifies this
      ensures Snapshot() == Apply(old(Snapshot()), Opt.WithTTl(t))
    {
      if t > 0 {
        ttl := t;
      }
    }

    /** WithSkipFail: stores the flag as given. */
    method WithSkipFail(b: bool)
      modifies this
      ensures Snapshot() == Apply(old(Snapshot()), Opt.WithSkipFail(b))
    {
      skipFail := b;
    }

    /** WithFail: stores the failure handler factory, nil included. */
    method WithFail(f: Option<int -> Handler>)
      modifies this
      ensures Snapshot() == Apply(old(Snapshot()), Opt.WithFail(f))
    {
      fail := f;
    }

    /** WithNext: stores the skip predicate, nil included. */
    method WithNext(n: Option<Request -> bool>)
      modifies this
      ensures Snapshot() == Apply(old(Snapshot()), Opt.WithNext(n))
    {
      next := n;
    }

    /** WithKeys: stores the extra-key function, nil included. */
    method WithKeys(k: Option<Request -> seq<string>>)
      modifies this
      ensures Snapshot() == Apply(old(Snapshot()), Opt.WithKeys(k))
    {
      keys := k;
    }

    /** `opt(option)`: runs one closure. */
    method Run(opt: Opt)
      modifies this
      ensures Snapshot() == Apply(old(Snapshot()), opt)
    {
      match opt {
        case WithMaxAttempts(n) => WithMaxAttempts(n);
        case WithTTl(t) => WithTTl(t);
        case WithSkipFail(b) => WithSkipFail(b);
        case WithFail(f) => WithFail(f);
        case WithNext(n) => WithNext(n);
        case WithKeys(k) => WithKeys(k);
      }
    }
  }

  /** Limits that start positive stay positive whatever options follow, and
      no option touches the storage key. */
  lemma {:induction false} LimitsStayPositive(o: Options, options: seq<Opt>)
    requires o.attempts > 0 && o.ttl > 0
    ensures var r := Folding.Fold(Apply, o, options);
      r.attempts > 0 && r.ttl > 0 && r.key == o.key
  {
    Folding.FoldKeeps(Apply, (s: Options) => s.attempts > 0 && s.ttl > 0 && s.key == o.key, o, options);
  }

  /** A WithMaxAttempts(0), or a WithTTl whose argument is not positive, can
      be dropped. */
  lemma {:induction false} NonPositiveLimitIgnored(o: Options, before: seq<Opt>, x: Opt, after: seq<Opt>)
    requires (x.WithMaxAttempts? && x.attempts == 0) || (x.WithTTl? && x.ttl <= 0)
    ensures Folding.Fold(Apply, o, before + [x] + after) == Folding.Fold(Apply, o, before + after)
  {
    Folding.FoldSkips(Apply, o, before, x, after);
  }

  /** Each option sets its own field and leaves the other six as they
      were. */
  lemma {:induction false} OnlyOwnField(o: Options, x: Opt)
    ensures var r := Apply(o, x);
      && r.key == o.key
      && (r.attempts == if x.WithMaxAttempts? && x.attempts > 0 then x.attempts else o.attempts)
      && (r.ttl == if x.WithTTl? && x.ttl > 0 then x.ttl else o.ttl)
      && (r.skipFail == if x.WithSkipFail? then x.skipFail else o.skipFail)
      && (r.fail == if x.WithFail? then x.fail else o.fail)
      && (r.next == if x.WithNext? then x.next else o.next)
      && (r.keys == if x.WithKeys? then x.keys else o.keys)
  {
  }

  function AttemptsOf(o: Options): nat { o.attempts }
  function TTLOf(o: Options): int { o.ttl }
  function SkipFailOf(o: Options): bool { o.skipFail }
  function FailOf(o: Options): Option<int -> Handler> { o.fail }
  function NextOf(o: Options): Option<Request -> bool> { o.next }
  function KeysOf(o: Options): Option<Request -> seq<string>> { o.keys }

  /** The last positive WithMaxAttempts decides the number of attempts. */
  lemma {:induction false} LastAttemptsWins(o: Options, before: seq<Opt>, n: nat, after: seq<Opt>)
    requires n > 0
    requires forall y :: y in after ==> !y.WithMaxAttempts?
    ensures Folding.Fold(Apply, o, before + [WithMaxAttempts(n)] + after).attempts == n
  {
    Folding.LastWins(Apply, AttemptsOf, o, before, WithMaxAttempts(n), n, after);
  }

  /** The last positive WithTTl decides the window. */
  lemma {:induction false} LastTTLWins(o: Options, before: seq<Opt>, t: int, after: seq<Opt>)
    requires t > 0
    requires forall y :: y in after ==> !y.WithTTl?
    ensures Folding.Fold(Apply, o, before + [WithTTl(t)] + after).ttl == t
  {
    Folding.LastWins(Apply, TTLOf, o, before, WithTTl(t), t, after);
  }

  /** The last WithSkipFail decides the flag, whichever value it carries. */
  lemma {:induction false} LastSkipFailWins(o: Options, before: seq<Opt>, b: bool, after: seq<Opt>)
    requires forall y :: y in after ==> !y.WithSkipFail?
    ensures Folding.Fold(Apply, o, before + [WithSkipFail(b)] + after).skipFail == b
  {
    Folding.LastWins(Apply, SkipFailOf, o, before, WithSkipFail(b), b, after);
  }

  /** The last WithFail decides the failure handler, even when it is nil. */
  lemma {:induction false} LastFailWins(o: Options, before: seq<Opt>, f: Option<int -> Handler>, after: seq<Opt>)
    requires forall y :: y in after ==> !y.WithFail?
    ensures Folding.Fold(Apply, o, before + [WithFail(f)] + after).fail == f
  {
    Folding.LastWins(Apply, FailOf, o, before, WithFail(f), f, after);
  }

  /** The last WithNext decides the skip predicate, even when it is nil. */
  lemma {:induction false} LastNextWins(o: Options, before: seq<Opt>, n: Option<Request -> bool>, after: seq<Opt>)
    requires forall y :: y in after ==> !y.WithNext?
    ensures Folding.Fold(Apply, o, before + [WithNext(n)] + after).next == n
  {
    Folding.LastWins(Apply, NextOf, o, before, WithNext(n), n, after);
  }

  /** The last WithKeys decides the extra-key function, even when it is
      nil. */
  lemma {:induction false} LastKeysWins(o: Options, before: seq<Opt>, k: Option<Request -> seq<string>>, after: seq<Opt>)
    requires forall y :: y in after ==> !y.WithKeys?
    ensures Folding.Fold(Apply, o, before + [WithKeys(k)] + after).keys == k
  {
    Folding.LastWins(Apply, KeysOf, o, before, WithKeys(k), k, after);
  }
}
