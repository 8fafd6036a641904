/** content/utils.go: the Content-Type test behind the content-negotiation
    middlewares. A content type is accepted when, trimmed and lower-cased,
    it starts with one of the accepted types, lower-cased. */
module Content {
  import opened Text

  /** The content type as it is compared. */
  function Normalized(c: string): string
  {
    ToLower(TrimSpace(c))
  }

  /** Some accepted type is a prefix of the normalised content type. */
  predicate Accepts(c: string, valids: seq<string>)
  {
    exists i :: 0 <= i < |valids| && ToLower(valids[i]) <= Normalized(c)
  }

  /** isValidContent: scans the accepted types in order and stops at the
      first that matches. */
  method IsValidContent(c: string, valids: seq<string>) returns (ok: bool)
    ensures ok <==> Accepts(c, valids)
  {
    var n := ToLower(TrimSpace(c));
    var i := 0;
    while i < |valids|
      invariant 0 <= i <= |valids|
      invariant forall j :: 0 <= j < i ==> !(ToLower(valids[j]) <= n)
    {
      if ToLower(valids[i]) <= n {
        return true;
      }
      i := i + 1;
    }
    return false;
  }

  /** With no accepted types nothing is accepted. */
  lemma {:induction false} NothingAcceptedByNone(c: string)
    ensures !Accepts(c, [])
  {
  }

  /** Surrounding white space does not change the answer. */
  lemma {:induction false} AcceptsIgnoresPadding(a: string, c: string, b: string, valids: seq<string>)
    requires AllSpace(a) && AllSpace(b)
    ensures Accepts(a + c + b, valids) <==> Accepts(c, valids)
  {
    TrimSpaceIgnoresPadding(a, c, b);
  }

  /** The case of the content type does not change the answer. */
  lemma {:induction false} AcceptsIgnoresCase(c: string, valids: seq<string>)
    ensures Accepts(ToLower(c), valids) <==> Accepts(c, valids)
    ensures Accepts(ToUpper(c), valids) <==> Accepts(c, valids)
  {
    TrimSpaceToLowerCommute(c);
    TrimSpaceToLowerCommute(ToLower(c));
    ToLowerIdempotent(TrimSpace(c));
    TrimSpaceToLowerCommute(ToUpper(c));
    LowerOfUpper(c);
    assert Normalized(ToLower(c)) == Normalized(c);
    assert Normalized(ToUpper(c)) == Normalized(c);
  }

  /** The case of an accepted type does not change the answer. */
  lemma {:induction false} AcceptedTypeCaseIgnored(c: string, valids: seq<string>, i: nat)
    requires i < |valids|
    ensures Accepts(c, valids[i := ToUpper(valids[i])]) <==> Accepts(c, valids)
  {
    LowerOfUpper(valids[i]);
    var u := valids[i := ToUpper(valids[i])];
    assert forall j :: 0 <= j < |valids| ==> ToLower(u[j]) == ToLower(valids[j]);
  }

  /** Parameters after an accepted media type ("; charset=utf-8") do not
      change the answer: a type accepted because of `valids[i]` is still
      accepted with text appended. */
  lemma {:induction false} AcceptsWithParameters(c: string, rest: string, valids: seq<string>, i: nat)
    requires Trimmed(c) && Trimmed(c + rest)
    requires i < |valids| && ToLower(valids[i]) <= Normalized(c)
    ensures Accepts(c + rest, valids)
  {
    TrimmedFixed(c);
    TrimmedFixed(c + rest);
    ToLowerAppend(c, rest);
    var v, lc, lr := ToLower(valids[i]), ToLower(c), ToLower(rest);
    assert v <= lc;
    PrefixExtends(v, lc, lr);
    assert Normalized(c + rest) == lc + lr;
    assert v <= Normalized(c + rest);
  }

  lemma {:induction false} PrefixExtends(p: string, s: string, t: string)
    requires p <= s
    ensures p <= s + t
  {
    assert (s + t)[..|p|] == s[..|p|];
  }

  /** A trimmed content type is accepted by a list naming it, in any case. */
  lemma {:induction false} AcceptsListedType(c: string, valids: seq<string>, i: nat)
    requires Trimmed(c) && i < |valids| && ToLower(valids[i]) == ToLower(c)
    ensures Accepts(c, valids)
  {
    TrimmedFixed(c);
  }
}
