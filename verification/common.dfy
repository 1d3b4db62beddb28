/** Shared vocabulary for the model: optional values, the JavaScript notions of
    "truthy" and "stringified" the client relies on, string predicates, and the
    last-write-wins map construction used by every bulk loader. */
module Common {

  datatype Option<+T> = None | Some(value: T)

  /** An optional string is truthy in JavaScript iff it is present and non-empty. */
  predicate Truthy(s: Option<string>) {
    s.Some? && s.value != ""
  }

  /** JavaScript `s || fallback` on an optional string. */
  function OrElse(s: Option<string>, fallback: string): (r: string)
    ensures Truthy(s) ==> r == s.value
    ensures !Truthy(s) ==> r == fallback
  {
    if Truthy(s) then s.value else fallback
  }

  /** JavaScript `a || b` on two optional strings. */
  function FirstTruthy(a: Option<string>, b: Option<string>): (r: Option<string>)
    ensures Truthy(a) ==> r == a
    ensures !Truthy(a) ==> r == b
  {
    if Truthy(a) then a else b
  }

  /** An optional number is truthy iff it is present and non-zero. */
  predicate TruthyNum(n: Option<int>) {
    n.Some? && n.value != 0
  }

  /** `String(x)` / use as an object key: a missing value becomes "undefined". */
  function JsString(s: Option<string>): string {
    match s
    case Some(v) => v
    case None => "undefined"
  }

  predicate StartsWith(s: string, prefix: string) {
    |prefix| <= |s| && s[..|prefix|] == prefix
  }

  lemma StartsWithConcat(prefix: string, rest: string)
    ensures StartsWith(prefix + rest, prefix)
  {
    assert (prefix + rest)[..|prefix|] == prefix;
  }

  /** If `s` starts with `p` then so does every extension of `s`. */
  lemma StartsWithExtend(s: string, p: string, rest: string)
    requires StartsWith(s, p)
    ensures StartsWith(s + rest, p)
  {
    assert (s + rest)[..|p|] == s[..|p|];
  }

  predicate OccursAt(s: string, sub: string, i: int) {
    0 <= i && i + |sub| <= |s| && s[i..i + |sub|] == sub
  }

  /** `s.includes(sub)`. */
  predicate Contains(s: string, sub: string) {
    exists i :: 0 <= i <= |s| && OccursAt(s, sub, i)
  }

  /** A string built around `sub` contains it. */
  lemma ContainsMiddle(a: string, sub: string, b: string)
    ensures Contains(a + sub + b, sub)
  {
    assert (a + sub + b)[|a|..|a| + |sub|] == sub;
    assert OccursAt(a + sub + b, sub, |a|);
  }

  /** A string missing some character of `sub` cannot contain `sub`. */
  lemma MissingCharNoContains(s: string, sub: string, k: int)
    requires 0 <= k < |sub|
    requires forall i :: 0 <= i < |s| ==> s[i] != sub[k]
    ensures !Contains(s, sub)
  {
    forall i | 0 <= i <= |s| && i + |sub| <= |s|
      ensures !OccursAt(s, sub, i)
    {
      assert s[i..i + |sub|][k] == s[i + k];
    }
  }

  function LowerChar(c: char): char {
    if 'A' <= c <= 'Z' then (c as int + 32) as char else c
  }

  function UpperChar(c: char): char {
    if 'a' <= c <= 'z' then (c as int - 32) as char else c
  }

  /** `toLowerCase()` restricted to ASCII letters. */
  function ToLower(s: string): (r: string)
    ensures |r| == |s|
    ensures forall i :: 0 <= i < |s| ==> r[i] == LowerChar(s[i])
  {
    if s == [] then [] else [LowerChar(s[0])] + ToLower(s[1..])
  }

  /** `toUpperCase()` restricted to ASCII letters. */
  function ToUpper(s: string): (r: string)
    ensures |r| == |s|
    ensures forall i :: 0 <= i < |s| ==> r[i] == UpperChar(s[i])
  {
    if s == [] then [] else [UpperChar(s[0])] + ToUpper(s[1..])
  }

  lemma ToUpperIdempotent(s: string)
    ensures ToUpper(ToUpper(s)) == ToUpper(s)
  {
  }

  predicate IsWhitespace(c: char) {
    c == ' ' || c == '\t' || c == '\n' || c == '\r' || c == '\U{000B}' || c == '\U{000C}' || c == '\U{00A0}'
  }

  /** `!s.trim()`: the string is empty once surrounding whitespace is removed. */
  predicate IsBlank(s: string) {
    forall i :: 0 <= i < |s| ==> IsWhitespace(s[i])
  }

  predicate IsDigit(c: char) {
    '0' <= c <= '9'
  }

  function DigitChar(d: int): (c: char)
    requires 0 <= d < 10
    ensures IsDigit(c)
  {
    ('0' as int + d) as char
  }

  /** Decimal rendering of a natural number, as a template literal prints it. */
  function Decimal(n: nat): (r: string)
    ensures |r| > 0
    ensures forall i :: 0 <= i < |r| ==> IsDigit(r[i])
    decreases n
  {
    if n < 10 then [DigitChar(n)] else Decimal(n / 10) + [DigitChar(n % 10)]
  }

  /** Reads back a string of decimal digits. */
  function ParseDecimal(s: string): nat
    requires forall i :: 0 <= i < |s| ==> IsDigit(s[i])
  {
    if s == [] then 0
    else
      assert IsDigit(s[|s| - 1]);
      ParseDecimal(s[..|s| - 1]) * 10 + (s[|s| - 1] as int - '0' as int)
  }

  /** `Decimal` loses no information: parsing its output gives the number back. */
  lemma {:induction false} DecimalRoundTrip(n: nat)
    ensures ParseDecimal(Decimal(n)) == n
    decreases n
  {
    if n >= 10 {
      var r := Decimal(n);
      assert r[..|r| - 1] == Decimal(n / 10);
      DecimalRoundTrip(n / 10);
    }
  }

  lemma DecimalInjective(m: nat, n: nat)
    requires Decimal(m) == Decimal(n)
    ensures m == n
  {
    DecimalRoundTrip(m);
    DecimalRoundTrip(n);
  }

  /** A bulk loader's map: rows are visited in order, a later row with the same
      key overwrites an earlier one, and rows whose key is missing are skipped. */
  function LastWins<R, V>(rows: seq<R>, key: R -> Option<string>, val: R -> V): (r: map<string, V>)
    ensures forall k :: k in r ==> exists i :: 0 <= i < |rows| && key(rows[i]) == Some(k) && r[k] == val(rows[i])
    decreases |rows|
  {
    if rows == [] then map[]
    else
      var prefix := LastWins(rows[..|rows| - 1], key, val);
      var last := rows[|rows| - 1];
      match key(last)
      case Some(k) => prefix[k := val(last)]
      case None => prefix
  }

  /** The loader's keys are exactly the keys some row carries. */
  lemma {:induction false} LastWinsKeys<R, V>(rows: seq<R>, key: R -> Option<string>, val: R -> V, k: string)
    ensures k in LastWins(rows, key, val) <==> exists i :: 0 <= i < |rows| && key(rows[i]) == Some(k)
    decreases |rows|
  {
    if exists i :: 0 <= i < |rows| && key(rows[i]) == Some(k) {
      var i :| 0 <= i < |rows| && key(rows[i]) == Some(k);
      if i < |rows| - 1 && key(rows[|rows| - 1]) != Some(k) {
        var front := rows[..|rows| - 1];
        assert front[i] == rows[i];
        LastWinsKeys(front, key, val, k);
      }
    }
  }

  /** The value stored under a key is the one of the last row carrying it. */
  lemma {:induction false} LastWinsValue<R, V>(rows: seq<R>, key: R -> Option<string>, val: R -> V, i: int)
    requires 0 <= i < |rows| && key(rows[i]).Some? && LastWithKey(rows, key, i)
    ensures key(rows[i]).value in LastWins(rows, key, val)
    ensures LastWins(rows, key, val)[key(rows[i]).value] == val(rows[i])
    decreases |rows|
  {
    var front := rows[..|rows| - 1];
    if i < |rows| - 1 {
      assert key(rows[|rows| - 1]) != key(rows[i]);
      assert front[i] == rows[i];
      assert forall j :: i < j < |front| ==> front[j] == rows[j];
      LastWinsValue(front, key, val, i);
    }
  }

  /** Row `i` is the last one carrying its key. */
  predicate LastWithKey<R>(rows: seq<R>, key: R -> Option<string>, i: int)
    requires 0 <= i < |rows|
  {
    forall j :: i < j < |rows| ==> key(rows[j]) != key(rows[i])
  }

  /** `s.filter(keep)`: the elements `keep` accepts, in their original order. */
  function Filter<T>(s: seq<T>, keep: T -> bool): (r: seq<T>)
    ensures |r| <= |s|
    ensures forall i :: 0 <= i < |r| ==> r[i] in s && keep(r[i])
    ensures forall i :: 0 <= i < |s| && keep(s[i]) ==> s[i] in r
  {
    if s == [] then [] else (if keep(s[0]) then [s[0]] else []) + Filter(s[1..], keep)
  }

  /** Filtering goes element by element: it distributes over concatenation
      and keeps a single element exactly when `keep` accepts it. The two laws
      fix the result completely, so order and repetitions both survive. */
  lemma {:induction false} FilterConcat<T>(a: seq<T>, b: seq<T>, keep: T -> bool)
    ensures Filter(a + b, keep) == Filter(a, keep) + Filter(b, keep)
    decreases |a|
  {
    if a == [] {
      assert a + b == b;
    } else {
      assert (a + b)[1..] == a[1..] + b;
      FilterConcat(a[1..], b, keep);
    }
  }

  lemma FilterSingle<T>(x: T, keep: T -> bool)
    ensures Filter([x], keep) == if keep(x) then [x] else []
  {
    assert [x][1..] == [];
  }

  /** Filtering keeps a projection injective: when no two elements share a
      key, no two kept elements do. */
  lemma {:induction false} FilterKeepsDistinct<T, K>(s: seq<T>, keep: T -> bool, key: T -> K)
    requires forall i, j :: 0 <= i < j < |s| ==> key(s[i]) != key(s[j])
    ensures forall i, j :: 0 <= i < j < |Filter(s, keep)| ==> key(Filter(s, keep)[i]) != key(Filter(s, keep)[j])
    decreases |s|
  {
    if s != [] {
      var t := s[1..];
      assert forall i, j :: 0 <= i < j < |t| ==> key(t[i]) != key(t[j]) by {
        forall i, j | 0 <= i < j < |t|
          ensures key(t[i]) != key(t[j])
        {
          assert t[i] == s[i + 1] && t[j] == s[j + 1];
        }
      }
      FilterKeepsDistinct(t, keep, key);
      var tail := Filter(t, keep);
      forall k | 0 <= k < |tail|
        ensures key(tail[k]) != key(s[0])
      {
        var b :| 0 <= b < |t| && t[b] == tail[k];
        assert t[b] == s[b + 1];
      }
    }
  }

  /** When nothing is rejected the filter returns its input. */
  lemma {:induction false} FilterKeepsAll<T>(s: seq<T>, keep: T -> bool)
    requires forall i :: 0 <= i < |s| ==> keep(s[i])
    ensures Filter(s, keep) == s
    decreases |s|
  {
    if s != [] {
      FilterKeepsAll(s[1..], keep);
    }
  }
}
