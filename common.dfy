/** Values shared by every module: Go's "value or nil", Go's (value, error) pairs,
    the error texts bosh-agent's errors package builds, and two sequence helpers. */
module Common {

  /** A Go value that may be nil; for errors, None is `nil` and Some(m) an error whose Error() is m. */
  datatype Option<T> = None | Some(value: T)

  /** The (value, error) pair a Go call returns, with the value dropped when the error is non-nil. */
  datatype Result<T> = Ok(value: T) | Err(error: string)

  /** The message of `bosherr.WrapError(cause, context)`: the context, a colon, then the cause. */
  function Wrap(context: string, cause: string): (r: string)
    ensures StartsWith(r, context + ": ")
    ensures EndsWith(r, cause)
    ensures |r| == |context| + 2 + |cause|
  {
    context + ": " + cause
  }

  /** A nil check followed by WrapError: no error passes through, and an error is wrapped with the context. */
  function WrapErr(context: string, err: Option<string>): (r: Option<string>)
    ensures r.None? <==> err.None?
    ensures err.Some? ==> r.value == Wrap(context, err.value)
  {
    if err.None? then None else Some(Wrap(context, err.value))
  }

  /** A value formatted by '%s' between single quotes. */
  function Quoted(s: string): string
  {
    "'" + s + "'"
  }

  predicate StartsWith(s: string, prefix: string)
  {
    |prefix| <= |s| && s[..|prefix|] == prefix
  }

  predicate EndsWith(s: string, suffix: string)
  {
    |suffix| <= |s| && s[|s| - |suffix|..] == suffix
  }

  /** gomega's ContainSubstring. */
  ghost predicate Contains(s: string, sub: string)
  {
    exists k :: 0 <= k <= |s| && StartsWith(s[k..], sub)
  }

  lemma EndsWithContains(s: string, sub: string)
    requires EndsWith(s, sub)
    ensures Contains(s, sub)
  {
    var k := |s| - |sub|;
    assert StartsWith(s[k..], sub);
  }

  /** Every wrapped error still carries its cause, which is what the tests check with ContainSubstring. */
  lemma WrapContainsCause(context: string, cause: string)
    ensures Contains(Wrap(context, cause), cause)
  {
    EndsWithContains(Wrap(context, cause), cause);
  }

  /** Concatenation regrouped, for logs built up piece by piece. */
  lemma ConcatAssoc<T>(a: seq<T>, b: seq<T>, c: seq<T>, d: seq<T>)
    ensures a + b + c + d == a + (b + (c + d))
    ensures a + b + c + d == a + (b + c + d)
  {
  }

  /** The index of the first element satisfying `p`, or |s| when there is none. */
  function FirstIndex<T>(s: seq<T>, p: T -> bool): (k: nat)
    ensures k <= |s|
    ensures forall j :: 0 <= j < k ==> !p(s[j])
    ensures k < |s| ==> p(s[k])
  {
    if s == [] then 0
    else if p(s[0]) then 0
    else 1 + FirstIndex(s[1..], p)
  }

  /** The first index is pinned down by "none before, this one does". */
  lemma FirstIndexAt<T>(s: seq<T>, p: T -> bool, k: nat)
    requires k <= |s|
    requires forall j :: 0 <= j < k ==> !p(s[j])
    requires k < |s| ==> p(s[k])
    ensures FirstIndex(s, p) == k
  {
  }

  /** How many times `x` occurs in `s`. */
  function Count<T(==)>(x: T, s: seq<T>): (n: nat)
    ensures n <= |s|
    ensures n == 0 <==> x !in s
  {
    if s == [] then 0
    else (if s[0] == x then 1 else 0) + Count(x, s[1..])
  }

  lemma {:induction false} CountAppend<T>(x: T, a: seq<T>, b: seq<T>)
    ensures Count(x, a + b) == Count(x, a) + Count(x, b)
  {
    if a == [] {
      assert a + b == b;
    } else {
      assert (a + b)[1..] == a[1..] + b;
      CountAppend(x, a[1..], b);
    }
  }

  /** An element that appears exactly once: everything around it is free of it. */
  lemma CountOnce<T>(x: T, a: seq<T>, b: seq<T>)
    requires x !in a && x !in b
    ensures Count(x, a + [x] + b) == 1
  {
    CountAppend(x, a + [x], b);
    CountAppend(x, a, [x]);
  }
}
