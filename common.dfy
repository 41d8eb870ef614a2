/** Small value types and sequence/string helpers shared by the whole model. */
module Common {

  datatype Option<T> = None | Some(value: T)

  /** A computation that either yields a value or throws an `Error` whose message is `error`. */
  datatype Result<T> = Success(value: T) | Failure(error: string)

  /** The outcome of an `async` function returning `void`: it resolves, or it rejects with a message. */
  datatype Outcome = Pass | Fail(error: string)

  function Min(a: int, b: int): int { if a <= b then a else b }

  /** `s.filter(p)`: the elements of `s` that satisfy `p`, in their original order. */
  function Filter<T>(s: seq<T>, p: T -> bool): (r: seq<T>)
    ensures |r| <= |s|
    ensures forall i :: 0 <= i < |r| ==> p(r[i])
  {
    if s == [] then [] else (if p(s[0]) then [s[0]] else []) + Filter(s[1..], p)
  }

  /** An element survives the filter exactly when it is in the input and satisfies `p`. */
  lemma {:induction false} FilterMembership<T>(s: seq<T>, p: T -> bool, x: T)
    ensures x in Filter(s, p) <==> x in s && p(x)
  {
    if s != [] {
      FilterMembership(s[1..], p, x);
      assert s == [s[0]] + s[1..];
    }
  }

  lemma FilterCons<T>(s: seq<T>, p: T -> bool)
    requires s != []
    ensures Filter(s, p) == (if p(s[0]) then [s[0]] else []) + Filter(s[1..], p)
  {
  }

  lemma {:induction false} FilterAppend<T>(a: seq<T>, b: seq<T>, p: T -> bool)
    ensures Filter(a + b, p) == Filter(a, p) + Filter(b, p)
  {
    if a == [] {
      assert a + b == b;
    } else {
      assert (a + b)[1..] == a[1..] + b;
      FilterAppend(a[1..], b, p);
    }
  }

  /** Nothing survives a filter that rejects every element. */
  lemma {:induction false} FilterNone<T>(s: seq<T>, p: T -> bool)
    requires forall i :: 0 <= i < |s| ==> !p(s[i])
    ensures Filter(s, p) == []
  {
    if s != [] {
      FilterNone(s[1..], p);
    }
  }

  /** Filtering by a predicate and by its negation splits a sequence in two. */
  lemma {:induction false} FilterComplement<T>(s: seq<T>, p: T -> bool, q: T -> bool)
    requires forall x :: q(x) == !p(x)
    ensures |Filter(s, p)| + |Filter(s, q)| == |s|
    ensures multiset(Filter(s, p)) + multiset(Filter(s, q)) == multiset(s)
  {
    if s != [] {
      FilterComplement(s[1..], p, q);
      assert s == [s[0]] + s[1..];
    }
  }

  /** A sequence without repeated elements. */
  predicate NoDuplicates<T(==)>(s: seq<T>) {
    forall i, j :: 0 <= i < j < |s| ==> s[i] != s[j]
  }

  predicate IsDigit(c: char) { '0' <= c <= '9' }

  /** The JavaScript regular-expression class `\d+` (ASCII digits, at least one). */
  predicate IsDigits(s: string) { |s| > 0 && forall i :: 0 <= i < |s| ==> IsDigit(s[i]) }

  predicate EndsWith(s: string, suffix: string) {
    |suffix| <= |s| && s[|s| - |suffix|..] == suffix
  }

  /** The length of the longest run of digits at the end of `s`. */
  function TrailingDigits(s: string): (n: nat)
    ensures n <= |s|
    ensures forall i :: |s| - n <= i < |s| ==> IsDigit(s[i])
    ensures n < |s| ==> !IsDigit(s[|s| - n - 1])
  {
    if s != [] && IsDigit(s[|s| - 1]) then 1 + TrailingDigits(s[..|s| - 1]) else 0
  }

  /** The length of the longest run of digits in `s` starting at index `from`. */
  function DigitsFrom(s: string, from: nat): (n: nat)
    requires from <= |s|
    ensures from + n <= |s|
    ensures forall i :: from <= i < from + n ==> IsDigit(s[i])
    ensures from + n < |s| ==> !IsDigit(s[from + n])
    decreases |s| - from
  {
    if from < |s| && IsDigit(s[from]) then 1 + DigitsFrom(s, from + 1) else 0
  }

  /** A string ending in a non-digit followed by digits has exactly those digits trailing. */
  lemma {:induction false} TrailingDigitsOf(a: string, d: string)
    requires a != [] && !IsDigit(a[|a| - 1])
    requires forall i :: 0 <= i < |d| ==> IsDigit(d[i])
    ensures TrailingDigits(a + d) == |d|
  {
    if d != [] {
      var s := a + d;
      assert s[..|s| - 1] == a + d[..|d| - 1];
      TrailingDigitsOf(a, d[..|d| - 1]);
    } else {
      assert a + d == a;
    }
  }

  /** A run of digits followed by a non-digit is exactly as long as that run. */
  lemma {:induction false} DigitsFromOf(s: string, from: nat, n: nat)
    requires from + n < |s|
    requires forall i :: from <= i < from + n ==> IsDigit(s[i])
    requires !IsDigit(s[from + n])
    ensures DigitsFrom(s, from) == n
    decreases n
  {
    if n > 0 {
      DigitsFromOf(s, from + 1, n - 1);
    }
  }

  function DigitChar(d: nat): char
    requires d < 10
  {
    "0123456789"[d]
  }

  /** The decimal representation of `n`, as `String(n)` writes it. */
  function NatToString(n: nat): (s: string)
    ensures IsDigits(s)
  {
    if n < 10 then [DigitChar(n)] else NatToString(n / 10) + [DigitChar(n % 10)]
  }
}
