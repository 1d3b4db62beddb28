/** Slideshow index arithmetic shared by the restaurant card and the creator
    profile: `(i + 1) % n` and `(i - 1 + n) % n` with JavaScript numbers. */
module Slides {

  /** A JavaScript number as the index arithmetic produces it: an integer, or
      NaN once a remainder by zero has happened. */
  datatype Num = Int(v: int) | NaN

  /** JavaScript `a % b`: the sign follows the dividend and a zero divisor gives NaN. */
  function JsRem(a: int, b: int): (r: Num)
    ensures b == 0 <==> r.NaN?
    ensures b != 0 && a >= 0 ==> r.Int? && 0 <= r.v < if b > 0 then b else -b
    ensures b != 0 && a < 0 ==> r.Int? && -(if b > 0 then b else -b) < r.v <= 0
  {
    if b == 0 then NaN
    else if a >= 0 then Int(a % b)
    else Int(-((-a) % b))
  }

  /** `prev => (prev + 1) % n` */
  function Next(s: Num, n: int): (r: Num)
    ensures s.NaN? || n == 0 ==> r.NaN?
    ensures InRange(s, n) ==> InRange(r, n) && (if s.v == n - 1 then r.v == 0 else r.v == s.v + 1)
  {
    match s
    case NaN => NaN
    case Int(i) => JsRem(i + 1, n)
  }

  /** `prev => (prev - 1 + n) % n` */
  function Prev(s: Num, n: int): (r: Num)
    ensures s.NaN? || n == 0 ==> r.NaN?
    ensures InRange(s, n) ==> InRange(r, n) && (if s.v == 0 then r.v == n - 1 else r.v == s.v - 1)
  {
    match s
    case NaN => NaN
    case Int(i) => JsRem(i - 1 + n, n)
  }

  predicate InRange(s: Num, n: int) {
    s.Int? && 0 <= s.v < n
  }

  /** Both moves stay inside the slideshow and step by one with wrap-around. */
  lemma StepsStayInRange(s: Num, n: int)
    requires InRange(s, n)
    ensures InRange(Next(s, n), n) && InRange(Prev(s, n), n)
    ensures Next(s, n).v == if s.v == n - 1 then 0 else s.v + 1
    ensures Prev(s, n).v == if s.v == 0 then n - 1 else s.v - 1
  {
    var i := s.v;
    if i == n - 1 {
      ModOfSelf(n);
    } else {
      ModOfSmall(i + 1, n);
    }
    if i == 0 {
      ModOfSmall(n - 1, n);
    } else {
      ModShift(i - 1 + n, n);
    }
  }

  lemma ModOfSmall(x: int, n: int)
    requires 0 <= x < n
    ensures x % n == x
  {
  }

  lemma ModOfSelf(n: int)
    requires 0 < n
    ensures n % n == 0
  {
  }

  lemma ModShift(x: int, n: int)
    requires 0 < n <= x < 2 * n
    ensures x % n == x - n
  {
  }

  /** Stepping back undoes stepping forward, and the other way round. */
  lemma PrevUndoesNext(s: Num, n: int)
    requires InRange(s, n)
    ensures Prev(Next(s, n), n) == s
    ensures Next(Prev(s, n), n) == s
  {
    StepsStayInRange(s, n);
    StepsStayInRange(Next(s, n), n);
    StepsStayInRange(Prev(s, n), n);
  }

  /** With no images the arithmetic turns the index into NaN, and it stays NaN. */
  lemma EmptySlideshowIsNaN(s: Num)
    ensures Next(s, 0) == NaN && Prev(s, 0) == NaN
    ensures Next(NaN, 5) == NaN
  {
  }

  /** A one-image slideshow stays on its only slide. */
  lemma SingleImageStays()
    ensures Next(Int(0), 1) == Int(0) && Prev(Int(0), 1) == Int(0)
  {
  }
}
