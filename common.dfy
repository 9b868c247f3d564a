/** Shared value types and the JavaScript string behaviour the application relies on:
    `trim`, `startsWith`, `includes`, `split('@')[0]`, `slice`, `padStart(2, '0')`
    and the decimal rendering of a number. */
module Common {

  /** A value that may be null or undefined. */
  datatype Option<+T> = None | Some(value: T)

  /** A value, or the message of the error that was thrown instead. */
  datatype Result<+T> = Ok(value: T) | Err(message: string)

  /** The result of a single-row or list query against the database: the query
      failed, or it returned its data (which may be null). */
  datatype QueryResult<+T> = QueryError(message: string) | QueryData(data: Option<T>)

  /** JavaScript truthiness of an optional string: present and non-empty. */
  predicate Truthy(s: Option<string>) {
    s.Some? && s.value != ""
  }

  /** `s || d` for an optional string. */
  function OrElse(s: Option<string>, d: string): (r: string)
    ensures Truthy(s) ==> r == s.value
    ensures !Truthy(s) ==> r == d
  {
    if s.Some? && s.value != "" then s.value else d
  }

  /** `n || d` for an optional number: null, undefined and 0 are falsy. */
  function NumOr(n: Option<int>, d: int): (r: int)
    ensures n.Some? && n.value != 0 ==> r == n.value
    ensures n.None? || n.value == 0 ==> r == d
  {
    if n.Some? && n.value != 0 then n.value else d
  }

  /** `parseFloat(x) || d`: `None` stands for NaN, which is falsy like 0. */
  function RealOr(x: Option<real>, d: real): (r: real)
    ensures x.Some? && x.value != 0.0 ==> r == x.value
    ensures x.None? || x.value == 0.0 ==> r == d
  {
    if x.Some? && x.value != 0.0 then x.value else d
  }

  /** The characters JavaScript's `String.prototype.trim` removes: the
      WhiteSpace and LineTerminator code points of ECMA-262. */
  predicate IsWhitespace(c: char) {
    c == ' ' || c == '\t' || c == '\n' || c == '\r' || c == '\U{000B}' || c == '\U{000C}'
    || c == '\U{00A0}' || c == '\U{1680}' || ('\U{2000}' <= c <= '\U{200A}')
    || c == '\U{2028}' || c == '\U{2029}' || c == '\U{202F}' || c == '\U{205F}'
    || c == '\U{3000}' || c == '\U{FEFF}'
  }

  predicate AllWhitespace(s: string) {
    forall i :: 0 <= i < |s| ==> IsWhitespace(s[i])
  }

  lemma WhitespaceCons(c: char, t: string)
    requires IsWhitespace(c) && AllWhitespace(t)
    ensures AllWhitespace([c] + t)
  {
    assert forall i :: 1 <= i < |t| + 1 ==> ([c] + t)[i] == t[i - 1];
  }

  lemma WhitespaceSnoc(t: string, c: char)
    requires IsWhitespace(c) && AllWhitespace(t)
    ensures AllWhitespace(t + [c])
  {
    assert forall i :: 0 <= i < |t| ==> (t + [c])[i] == t[i];
  }

  /** `s.trimStart()`: drops the leading whitespace. */
  function TrimStart(s: string): (r: string)
    ensures |r| <= |s| && r == s[|s| - |r|..]
    ensures AllWhitespace(s[..|s| - |r|])
    ensures r == [] || !IsWhitespace(r[0])
  {
    if s != [] && IsWhitespace(s[0]) then
      var r := TrimStart(s[1..]);
      assert s[..|s| - |r|] == [s[0]] + s[1..][..|s| - 1 - |r|];
      WhitespaceCons(s[0], s[1..][..|s| - 1 - |r|]);
      r
    else s
  }

  /** `s.trimEnd()`: drops the trailing whitespace. */
  function TrimEnd(s: string): (r: string)
    ensures |r| <= |s| && r == s[..|r|]
    ensures AllWhitespace(s[|r|..])
    ensures r == [] || !IsWhitespace(r[|r| - 1])
  {
    if s != [] && IsWhitespace(s[|s| - 1]) then
      var r := TrimEnd(s[..|s| - 1]);
      assert s[|r|..] == s[..|s| - 1][|r|..] + [s[|s| - 1]];
      WhitespaceSnoc(s[..|s| - 1][|r|..], s[|s| - 1]);
      assert s[..|s| - 1][..|r|] == s[..|r|];
      r
    else s
  }

  /** `s.trim()`. */
  function Trim(s: string): (r: string)
    ensures |r| <= |s|
    ensures r == [] || (!IsWhitespace(r[0]) && !IsWhitespace(r[|r| - 1]))
  {
    TrimEnd(TrimStart(s))
  }

  /** What `trim` keeps is a slice of the input with only whitespace around it;
      with the ends `Trim` ensures are not whitespace, that slice is exactly the
      input without its leading and trailing whitespace. */
  lemma TrimRemovesOuterWhitespace(s: string)
    ensures exists a, b :: 0 <= a <= b <= |s| && Trim(s) == s[a..b] && AllWhitespace(s[..a]) && AllWhitespace(s[b..])
  {
    var t := TrimStart(s);
    var r := TrimEnd(t);
    var a := |s| - |t|;
    var b := a + |r|;
    assert r == s[a..b];
    assert s[b..] == t[|r|..];
    assert 0 <= a <= b <= |s| && Trim(s) == s[a..b] && AllWhitespace(s[..a]) && AllWhitespace(s[b..]);
  }

  /** A trimmed string is empty exactly when the string is all whitespace,
      which is the condition behind every `!x.trim()` in the forms. */
  lemma TrimEmptyIffAllWhitespace(s: string)
    ensures Trim(s) == "" <==> AllWhitespace(s)
  {
  }

  /** `s.startsWith(p)`. */
  predicate StartsWith(s: string, p: string) {
    |p| <= |s| && s[..|p|] == p
  }

  /** `s.includes(p)`. */
  predicate Contains(s: string, p: string) {
    exists i {:trigger s[i..]} :: 0 <= i <= |s| - |p| && s[i..][..|p|] == p
  }

  /** `s.split(d)[0]`: the text before the first occurrence of `d`, or all of `s`. */
  function BeforeFirst(s: string, d: char): (r: string)
    ensures StartsWith(s, r)
    ensures d !in r
    ensures |r| < |s| ==> s[|r|] == d
  {
    if s == [] then []
    else if s[0] == d then []
    else [s[0]] + BeforeFirst(s[1..], d)
  }

  /** `s.slice(0, n)`. */
  function Prefix(s: string, n: nat): (r: string)
    ensures |r| == if n <= |s| then n else |s|
    ensures StartsWith(s, r)
  {
    if n <= |s| then s[..n] else s
  }

  function DigitChar(d: nat): (c: char)
    requires d < 10
    ensures '0' <= c <= '9'
  {
    ['0', '1', '2', '3', '4', '5', '6', '7', '8', '9'][d]
  }

  function DigitValue(c: char): (d: nat)
    requires '0' <= c <= '9'
    ensures d < 10
  {
    (c as int - '0' as int) as nat
  }

  lemma DigitRoundTrip(d: nat)
    requires d < 10
    ensures DigitValue(DigitChar(d)) == d
  {
  }

  predicate AllDigits(s: string) {
    forall i :: 0 <= i < |s| ==> '0' <= s[i] <= '9'
  }

  /** `n.toString()` for a non-negative integer. */
  function DecimalString(n: nat): (r: string)
    ensures |r| >= 1 && AllDigits(r)
    ensures n < 10 <==> |r| == 1
  {
    if n < 10 then [DigitChar(n)] else DecimalString(n / 10) + [DigitChar(n % 10)]
  }

  /** The value of a string of decimal digits; the reference against which
      the renderings of numbers are checked. */
  function DecimalValue(s: string): nat
    requires AllDigits(s)
  {
    if s == [] then 0 else DecimalValue(s[..|s| - 1]) * 10 + DigitValue(s[|s| - 1])
  }

  lemma {:induction false} DecimalRoundTrip(n: nat)
    ensures DecimalValue(DecimalString(n)) == n
  {
    var r := DecimalString(n);
    if n < 10 {
      DigitRoundTrip(n);
      assert r[..0] == [];
    } else {
      DecimalRoundTrip(n / 10);
      DigitRoundTrip(n % 10);
      assert r[..|r| - 1] == DecimalString(n / 10);
    }
  }

  /** A leading zero does not change the value of a digit string. */
  lemma {:induction false} DecimalLeadingZero(s: string)
    requires AllDigits(s)
    ensures AllDigits("0" + s) && DecimalValue("0" + s) == DecimalValue(s)
  {
    var z := "0" + s;
    if s == [] {
      assert z[..0] == [];
    } else {
      assert z[..|z| - 1] == "0" + s[..|s| - 1];
      DecimalLeadingZero(s[..|s| - 1]);
    }
  }

  /** `s.padStart(2, '0')`. */
  function PadStart2(s: string): (r: string)
    ensures |r| == if |s| < 2 then 2 else |s|
    ensures r[|r| - |s|..] == s
    ensures forall i :: 0 <= i < |r| - |s| ==> r[i] == '0'
  {
    if |s| == 0 then "00" else if |s| == 1 then "0" + s else s
  }

  /** `s.filter(keep)`: the elements that satisfy `keep`, in their original order. */
  function Filter<T>(s: seq<T>, keep: T -> bool): (r: seq<T>)
    ensures |r| <= |s|
    ensures forall i :: 0 <= i < |r| ==> r[i] in s && keep(r[i])
    ensures forall i :: 0 <= i < |s| && keep(s[i]) ==> s[i] in r
  {
    if s == [] then []
    else Filter(s[..|s| - 1], keep) + (if keep(s[|s| - 1]) then [s[|s| - 1]] else [])
  }

  /** Filtering distributes over concatenation, so the kept elements keep their order. */
  lemma {:induction false} FilterAppend<T>(a: seq<T>, b: seq<T>, keep: T -> bool)
    ensures Filter(a + b, keep) == Filter(a, keep) + Filter(b, keep)
  {
    if b != [] {
      assert (a + b)[..|a + b| - 1] == a + b[..|b| - 1];
      FilterAppend(a, b[..|b| - 1], keep);
    } else {
      assert a + b == a;
    }
  }

  /** When every element is kept, filtering changes nothing. */
  lemma {:induction false} FilterKeepsAll<T>(s: seq<T>, keep: T -> bool)
    requires forall i :: 0 <= i < |s| ==> keep(s[i])
    ensures Filter(s, keep) == s
  {
    if s != [] {
      FilterKeepsAll(s[..|s| - 1], keep);
    }
  }

  /** The elements removed and the elements kept together make up the sequence. */
  lemma {:induction false} FilterSplitsLength<T>(s: seq<T>, keep: T -> bool, drop: T -> bool)
    requires forall i :: 0 <= i < |s| ==> drop(s[i]) == !keep(s[i])
    ensures |Filter(s, keep)| + |Filter(s, drop)| == |s|
  {
    if s != [] {
      FilterSplitsLength(s[..|s| - 1], keep, drop);
    }
  }

  /** Exactly one element, at index `i`, satisfies `keep`. */
  predicate OnlyAt<T>(s: seq<T>, keep: T -> bool, i: int) {
    0 <= i < |s| && keep(s[i]) && forall j :: 0 <= j < |s| && j != i ==> !keep(s[j])
  }

  /** Exactly one element of the sequence satisfies `keep`. */
  predicate ExactlyOne<T>(s: seq<T>, keep: T -> bool) {
    exists i :: 0 <= i < |s| && OnlyAt(s, keep, i)
  }

  /** The filter keeps a single element exactly when one element satisfies `keep`. */
  lemma {:induction false} FilterSingleton<T>(s: seq<T>, keep: T -> bool)
    ensures |Filter(s, keep)| == 1 <==> ExactlyOne(s, keep)
  {
    if s != [] {
      var front, x := s[..|s| - 1], s[|s| - 1];
      assert s == front + [x];
      assert forall j :: 0 <= j < |front| ==> s[j] == front[j];
      FilterSingleton(front, keep);
      if keep(x) {
        if |Filter(front, keep)| == 0 {
          assert forall j :: 0 <= j < |front| ==> !keep(front[j]);
          assert OnlyAt(s, keep, |s| - 1);
        } else {
          var w := Filter(front, keep)[0];
          var k :| 0 <= k < |front| && front[k] == w;
          assert keep(s[k]) && keep(s[|s| - 1]) && k != |s| - 1;
          forall i | 0 <= i < |s| ensures !OnlyAt(s, keep, i) {
            if i == k {
              assert keep(s[|s| - 1]);
            } else {
              assert keep(s[k]);
            }
          }
        }
      } else {
        if ExactlyOne(front, keep) {
          var i :| 0 <= i < |front| && OnlyAt(front, keep, i);
          forall j | 0 <= j < |s| && j != i ensures !keep(s[j]) {
            if j < |front| {
              assert !keep(front[j]);
            }
          }
          assert OnlyAt(s, keep, i);
        }
        if ExactlyOne(s, keep) {
          var i :| 0 <= i < |s| && OnlyAt(s, keep, i);
          assert i != |s| - 1 by {
            assert keep(s[i]) && !keep(s[|s| - 1]);
          }
          forall j | 0 <= j < |front| && j != i ensures !keep(front[j]) {
            assert !keep(s[j]);
          }
          assert OnlyAt(front, keep, i);
        }
      }
    }
  }

  /** The rows of a list query; a failed query or a null result gives none, as
      `data?.forEach(...)` and `data?.map(...) || []` do. */
  function ListData<T>(q: QueryResult<seq<T>>): (r: seq<T>)
    ensures q.QueryData? && q.data.Some? ==> r == q.data.value
    ensures q.QueryError? || q.data.None? ==> r == []
  {
    if q.QueryData? && q.data.Some? then q.data.value else []
  }

  /** `o ?? d`. */
  function GetOr<T>(o: Option<T>, d: T): (r: T)
    ensures o.Some? ==> r == o.value
    ensures o.None? ==> r == d
  {
    if o.Some? then o.value else d
  }

  /** `(old: T[] = []) => ...`: the cached list, `[]` when nothing is cached. */
  function Cached<T>(cache: Option<seq<T>>): seq<T> {
    GetOr(cache, [])
  }

  /** `(old: number = 0) => Math.max(0, old - 1)`: the optimistic count after a
      delete, one less and never below 0. */
  function ClampedDecrement(cache: Option<int>): (r: int)
    ensures r >= 0
    ensures GetOr(cache, 0) > 0 ==> r == GetOr(cache, 0) - 1
    ensures GetOr(cache, 0) <= 0 ==> r == 0
  {
    var n := GetOr(cache, 0);
    if n - 1 > 0 then n - 1 else 0
  }
}
