/**
 * The handful of Python value conversions the two scripts lean on:
 * `int(d)` on a float difference of two clock readings (truncation toward zero),
 * and `x or 0` on an optional int. The three conversions that introduce nulls,
 * `s or None` on a string, `int(x) if x else None` on an int and
 * `None if x == sentinel else x`, have the left inverses `OrEmpty`, `OrZero`
 * and `OrSentinel`, which is what makes the record mapping injective.
 */
module PyValues {
  import opened Optional

  /** `int(d)` where `d` is a difference of `time.time()` readings, given here in
      milliseconds: Python's `int` on a float truncates toward zero. */
  function TruncSeconds(ms: int): (r: int)
    ensures 0 <= ms ==> 0 <= r && r * 1000 <= ms < r * 1000 + 1000
    ensures ms <= 0 ==> r <= 0 && r * 1000 - 1000 < ms <= r * 1000
  {
    if ms >= 0 then ms / 1000 else -((-ms) / 1000)
  }

  /** `s or None`: the empty string is the only falsy `str`. */
  function StrOrNone(s: string): (r: Option<string>)
    ensures r.None? <==> s == ""
    ensures r.Some? ==> r.value == s
  {
    if s == "" then None else Some(s)
  }

  /** `int(x) if x else None` on an `int`: zero is the only falsy `int`. */
  function IntOrNone(x: int): (r: Option<int>)
    ensures r.None? <==> x == 0
    ensures r.Some? ==> r.value == x
  {
    if x != 0 then Some(x) else None
  }

  /** `None if x == sentinel else x`. */
  function NoneIf(x: string, sentinel: string): (r: Option<string>)
    ensures r.None? <==> x == sentinel
    ensures r.Some? ==> r.value == x
  {
    if x == sentinel then None else Some(x)
  }

  /** `x or 0` on an optional int: `None` and `0` both give `0`. */
  function OrZero(x: Option<int>): (r: int)
    ensures x.None? ==> r == 0
    ensures x.Some? ==> r == x.value
  {
    if x.None? || x.value == 0 then 0 else x.value
  }

  /** Inverse of `StrOrNone`: `None` reads back as the empty string. */
  function OrEmpty(x: Option<string>): (r: string)
    ensures x.None? ==> r == ""
    ensures x.Some? ==> r == x.value
  {
    x.GetOr("")
  }

  /** Inverse of `NoneIf`: `None` reads back as the sentinel. */
  function OrSentinel(x: Option<string>, sentinel: string): (r: string)
    ensures x.None? ==> r == sentinel
    ensures x.Some? ==> r == x.value
  {
    x.GetOr(sentinel)
  }

  /** Each null-introducing conversion loses nothing: each has a left inverse. */
  lemma ConversionsInvertible(s: string, x: int, c: string, sentinel: string)
    ensures OrEmpty(StrOrNone(s)) == s
    ensures OrZero(IntOrNone(x)) == x
    ensures OrSentinel(NoneIf(c, sentinel), sentinel) == c
  {
  }

  /** ... and each is onto the values it can produce: an optional value that is not
      the null-standing value (`""`, `0`, the sentinel) survives the way back. */
  lemma ConversionsCanonical(o: Option<string>, n: Option<int>, e: Option<string>, sentinel: string)
    requires o != Some("") && n != Some(0) && e != Some(sentinel)
    ensures StrOrNone(OrEmpty(o)) == o
    ensures IntOrNone(OrZero(n)) == n
    ensures NoneIf(OrSentinel(e, sentinel), sentinel) == e
  {
  }

  /** `int()` of a non-negative difference is floor division by a second, so it is
      monotone in the difference and never negative. */
  lemma TruncSecondsMonotone(a: int, b: int)
    requires 0 <= a <= b
    ensures 0 <= TruncSeconds(a) <= TruncSeconds(b)
  {
  }
}
