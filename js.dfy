/** The small part of JavaScript's value semantics the application relies on:
    optional values, `undefined`/`null`, and the string built-ins it calls
    (`startsWith`, `substring`, `split`, `toString` of integers, `toLowerCase`
    on ASCII, relational comparison of strings). */
module Js {

  datatype Option<+T> = None | Some(value: T)

  /** `o ?? d` */
  function Or<T>(o: Option<T>, d: T): T {
    if o.Some? then o.value else d
  }

  /** A field that may be missing (`undefined`), explicitly `null`, or set. */
  datatype Nullable<+T> = Undefined | Null | Val(value: T)

  /** `s.startsWith(p)` */
  predicate StartsWith(s: string, p: string) {
    p <= s
  }

  /** `s.substring(0, n)`: the end index is clamped to the length. */
  function Prefix(s: string, n: nat): (r: string)
    ensures |r| == if n <= |s| then n else |s|
    ensures r <= s
  {
    if n <= |s| then s[..n] else s
  }

  /** Truthiness of an optional string: present and not empty. */
  predicate Truthy(s: Option<string>) {
    s.Some? && s.value != ""
  }

  // ---------------------------------------------------------------------------
  // Array built-ins: `filter`, `findIndex`

  function Filter<T>(s: seq<T>, p: T -> bool): (r: seq<T>)
    ensures |r| <= |s|
    ensures forall k :: 0 <= k < |r| ==> p(r[k])
  {
    if s == [] then [] else (if p(s[0]) then [s[0]] else []) + Filter(s[1..], p)
  }

  /** `s.findIndex(p)`: the first index whose element satisfies `p`, or -1. */
  function FindIndex<T>(s: seq<T>, p: T -> bool): (r: int)
    ensures -1 <= r < |s|
    ensures r >= 0 ==> p(s[r])
    ensures forall k :: 0 <= k < |s| && (r == -1 || k < r) ==> !p(s[k])
  {
    if s == [] then -1
    else if p(s[0]) then 0
    else var r := FindIndex(s[1..], p); if r == -1 then -1 else r + 1
  }

  /** `s.find(p)`: the first element satisfying `p`, `undefined` when none does. */
  function Find<T>(s: seq<T>, p: T -> bool): (r: Option<T>)
    ensures r.None? <==> forall k :: 0 <= k < |s| ==> !p(s[k])
    ensures r.Some? ==> r.value in s && p(r.value)
  {
    var i := FindIndex(s, p);
    if i >= 0 then Some(s[i]) else None
  }

  lemma {:induction false} FilterAppend<T>(a: seq<T>, b: seq<T>, p: T -> bool)
    ensures Filter(a + b, p) == Filter(a, p) + Filter(b, p)
  {
    if a == [] {
      assert a + b == b;
    } else {
      var head := if p(a[0]) then [a[0]] else [];
      FilterAppend(a[1..], b, p);
      calc {
        Filter(a + b, p);
        head + Filter((a + b)[1..], p);
        { assert (a + b)[1..] == a[1..] + b; }
        head + Filter(a[1..] + b, p);
        head + (Filter(a[1..], p) + Filter(b, p));
        (head + Filter(a[1..], p)) + Filter(b, p);
        Filter(a, p) + Filter(b, p);
      }
    }
  }

  lemma {:induction false} FilterMembers<T>(s: seq<T>, p: T -> bool)
    ensures forall x :: x in Filter(s, p) <==> x in s && p(x)
  {
    if s != [] {
      FilterMembers(s[1..], p);
      assert forall x :: x in s <==> x == s[0] || x in s[1..];
    }
  }

  /** Filtering around an element that passes: the ones before it, then it, then the ones after it. */
  lemma {:induction false} FilterAround<T>(s: seq<T>, p: T -> bool, i: int)
    requires 0 <= i < |s| && p(s[i])
    ensures Filter(s, p) == Filter(s[..i], p) + [s[i]] + Filter(s[i + 1..], p)
  {
    var tail := [s[i]] + s[i + 1..];
    assert s == s[..i] + tail;
    FilterAppend(s[..i], tail, p);
    assert tail[1..] == s[i + 1..];
    assert Filter(tail, p) == [s[i]] + Filter(s[i + 1..], p);
  }

  lemma {:induction false} FilterNone<T>(s: seq<T>, p: T -> bool)
    requires forall k :: 0 <= k < |s| ==> !p(s[k])
    ensures Filter(s, p) == []
  {
    if s != [] {
      FilterNone(s[1..], p);
    }
  }

  /** `find(p)` returns the first element `filter(p)` keeps. */
  lemma {:induction false} FindIndexFirstKept<T>(s: seq<T>, p: T -> bool)
    ensures FindIndex(s, p) >= 0 <==> Filter(s, p) != []
    ensures FindIndex(s, p) >= 0 ==> Filter(s, p)[0] == s[FindIndex(s, p)]
  {
    if s != [] && !p(s[0]) {
      FindIndexFirstKept(s[1..], p);
    }
  }

  /** Filtering twice by predicates where the second implies the first is filtering once. */
  lemma {:induction false} FilterFilter<T>(s: seq<T>, p: T -> bool, q: T -> bool)
    requires forall x :: q(x) ==> p(x)
    ensures Filter(Filter(s, p), q) == Filter(s, q)
  {
    if s != [] {
      FilterFilter(s[1..], p, q);
      var kept := Filter(s[1..], p);
      if p(s[0]) {
        var x := [s[0]] + kept;
        assert Filter(s, p) == x;
        assert x[0] == s[0] && x[1..] == kept;
        assert Filter(x, q) == (if q(s[0]) then [s[0]] else []) + Filter(kept, q);
      } else {
        assert Filter(s, p) == kept;
      }
    }
  }

  /** `filter(p)` and `filter(not p)` split the elements between them. */
  lemma {:induction false} FilterSplitsMultiset<T>(s: seq<T>, p: T -> bool, q: T -> bool)
    requires forall x :: q(x) <==> !p(x)
    ensures multiset(Filter(s, p)) + multiset(Filter(s, q)) == multiset(s)
  {
    if s != [] {
      FilterSplitsMultiset(s[1..], p, q);
      var a, b := Filter(s[1..], p), Filter(s[1..], q);
      assert s == [s[0]] + s[1..];
      assert multiset(s) == multiset{s[0]} + multiset(s[1..]);
      if p(s[0]) {
        assert Filter(s, p) == [s[0]] + a;
        assert Filter(s, q) == b;
        assert multiset(Filter(s, p)) == multiset{s[0]} + multiset(a);
      } else {
        assert Filter(s, p) == a;
        assert Filter(s, q) == [s[0]] + b;
        assert multiset(Filter(s, q)) == multiset{s[0]} + multiset(b);
      }
    }
  }

  /** The number of elements satisfying `p`. */
  function Count<T>(s: seq<T>, p: T -> bool): (n: nat)
    ensures n <= |s|
  {
    if s == [] then 0 else (if p(s[0]) then 1 else 0) + Count(s[1..], p)
  }

  /** `filter(p)` keeps every element except those satisfying the complement `q`. */
  lemma {:induction false} FilterLength<T>(s: seq<T>, p: T -> bool, q: T -> bool)
    requires forall x :: q(x) <==> !p(x)
    ensures |Filter(s, p)| == |s| - Count(s, q)
  {
    if s != [] {
      FilterLength(s[1..], p, q);
    }
  }

  // ---------------------------------------------------------------------------
  // `s.split(c)` for a one-character separator, and its inverse `parts.join(c)`

  function Split(s: string, c: char): (parts: seq<string>)
    ensures |parts| >= 1
    decreases |s|
  {
    if s == [] then [""]
    else if s[0] == c then [""] + Split(s[1..], c)
    else
      var rest := Split(s[1..], c);
      [[s[0]] + rest[0]] + rest[1..]
  }

  function Join(parts: seq<string>, c: char): string
    requires |parts| >= 1
  {
    if |parts| == 1 then parts[0] else parts[0] + [c] + Join(parts[1..], c)
  }

  /** The `i`-th piece of a split, `undefined` past the end (array destructuring). */
  function Nth(parts: seq<string>, i: nat): Option<string> {
    if i < |parts| then Some(parts[i]) else None
  }

  lemma {:induction false} SplitPiecesAvoidSeparator(s: string, c: char)
    ensures forall k :: 0 <= k < |Split(s, c)| ==> c !in Split(s, c)[k]
    decreases |s|
  {
    if s != [] {
      SplitPiecesAvoidSeparator(s[1..], c);
    }
  }

  /** Joining the pieces of a split gives the string back. */
  lemma {:induction false} JoinSplit(s: string, c: char)
    ensures Join(Split(s, c), c) == s
    decreases |s|
  {
    if s != [] {
      JoinSplit(s[1..], c);
      var rest := Split(s[1..], c);
      if s[0] == c {
        assert Split(s, c)[1..] == rest;
      } else {
        var parts := Split(s, c);
        assert parts[1..] == rest[1..];
        if |rest| == 1 {
          assert parts == [[s[0]] + rest[0]];
        } else {
          assert Join(parts, c) == [s[0]] + rest[0] + [c] + Join(rest[1..], c);
        }
      }
    }
  }

  /** Splitting a join of separator-free pieces gives the pieces back. */
  lemma {:induction false} SplitJoin(parts: seq<string>, c: char)
    requires |parts| >= 1
    requires forall k :: 0 <= k < |parts| ==> c !in parts[k]
    ensures Split(Join(parts, c), c) == parts
    decreases |parts|, |parts[0]|
  {
    if parts[0] == [] {
      if |parts| > 1 {
        SplitJoin(parts[1..], c);
        assert Join(parts, c) == [c] + Join(parts[1..], c);
      }
    } else {
      var tail := [parts[0][1..]] + parts[1..];
      assert forall k :: 0 <= k < |tail| ==> c !in tail[k] by {
        forall k | 0 <= k < |tail| ensures c !in tail[k] {
          if k == 0 {
            assert forall x :: x in parts[0][1..] ==> x in parts[0];
          } else {
            assert tail[k] == parts[k];
          }
        }
      }
      SplitJoin(tail, c);
      JoinFirstChar(parts, c);
      SplitFirstChar(parts[0][0], Join(tail, c), c);
      assert tail[0] == parts[0][1..] && tail[1..] == parts[1..];
      assert [parts[0][0]] + parts[0][1..] == parts[0];
    }
  }

  lemma JoinFirstChar(parts: seq<string>, c: char)
    requires |parts| >= 1 && parts[0] != []
    ensures Join(parts, c) == [parts[0][0]] + Join([parts[0][1..]] + parts[1..], c)
  {
    var tail := [parts[0][1..]] + parts[1..];
    if |parts| > 1 {
      assert tail[1..] == parts[1..];
      assert Join(tail, c) == parts[0][1..] + [c] + Join(parts[1..], c);
    }
  }

  lemma SplitFirstChar(x: char, s: string, c: char)
    requires x != c
    ensures Split([x] + s, c) == [[x] + Split(s, c)[0]] + Split(s, c)[1..]
  {
    assert ([x] + s)[1..] == s;
  }

  // ---------------------------------------------------------------------------
  // Integers as decimal strings: `n.toString()` and the canonical-numeral test
  // that decides whether a property key is an array index.

  predicate IsDigit(ch: char) {
    '0' <= ch <= '9'
  }

  function DigitChar(d: nat): (ch: char)
    requires d < 10
    ensures IsDigit(ch)
  {
    ['0', '1', '2', '3', '4', '5', '6', '7', '8', '9'][d]
  }

  function DigitValue(ch: char): nat
    requires IsDigit(ch)
  {
    ch as int - '0' as int
  }

  function NatToString(n: nat): (s: string)
    decreases n
  {
    if n < 10 then [DigitChar(n)] else NatToString(n / 10) + [DigitChar(n % 10)]
  }

  /** `n.toString()` for an integer-valued number. */
  function IntToString(n: int): string {
    if n < 0 then "-" + NatToString(-n) else NatToString(n)
  }

  predicate AllDigits(s: string) {
    forall k :: 0 <= k < |s| ==> IsDigit(s[k])
  }

  /** A numeral without superfluous leading zeros: what `toString` produces. */
  predicate IsCanonicalNumeral(s: string) {
    |s| > 0 && AllDigits(s) && (s[0] == '0' ==> |s| == 1)
  }

  function DecimalValue(s: string): nat
    requires AllDigits(s)
  {
    if s == [] then 0 else 10 * DecimalValue(s[..|s| - 1]) + DigitValue(s[|s| - 1])
  }

  /** `toString` of a natural number is a canonical numeral that reads back as the number. */
  lemma {:induction false} NatToStringRoundTrip(n: nat)
    ensures IsCanonicalNumeral(NatToString(n))
    ensures DecimalValue(NatToString(n)) == n
    decreases n
  {
    var s := NatToString(n);
    if n < 10 {
      assert s == [DigitChar(n)];
      assert DigitValue(DigitChar(n)) == n;
      assert s[..0] == [];
    } else {
      NatToStringRoundTrip(n / 10);
      var p := NatToString(n / 10);
      assert s == p + [DigitChar(n % 10)];
      assert s[..|s| - 1] == p;
      assert DigitValue(DigitChar(n % 10)) == n % 10;
      assert p[0] != '0' by {
        if p[0] == '0' {
          assert false;
        }
      }
      assert s[0] == p[0];
    }
  }

  /** Different integers have different `toString`s. */
  lemma {:induction false} IntToStringInjective(a: int, b: int)
    requires IntToString(a) == IntToString(b)
    ensures a == b
  {
    SignShowsInFirstChar(a);
    SignShowsInFirstChar(b);
    if a < 0 {
      NatToStringInjective(-a, -b);
    } else {
      NatToStringInjective(a, b);
    }
  }

  lemma NatToStringInjective(a: nat, b: nat)
    requires NatToString(a) == NatToString(b)
    ensures a == b
  {
    NatToStringRoundTrip(a);
    NatToStringRoundTrip(b);
  }

  lemma SignShowsInFirstChar(n: int)
    ensures |IntToString(n)| > 0
    ensures IntToString(n)[0] == '-' <==> n < 0
    ensures n < 0 ==> IntToString(n)[1..] == NatToString(-n)
    ensures n >= 0 ==> IntToString(n) == NatToString(n)
  {
    if n >= 0 {
      NatToStringRoundTrip(n);
      assert IsDigit(NatToString(n)[0]);
    }
  }

  /** A canonical numeral is the `toString` of its value. */
  lemma {:induction false} CanonicalIsToString(a: string)
    requires IsCanonicalNumeral(a)
    ensures NatToString(DecimalValue(a)) == a
    decreases |a|
  {
    var front := a[..|a| - 1];
    var last := a[|a| - 1];
    assert AllDigits(front);
    if |a| == 1 {
      assert front == [];
      assert DecimalValue(a) == DigitValue(last);
      assert DigitChar(DigitValue(last)) == last;
    } else {
      assert front[0] == a[0];
      assert IsCanonicalNumeral(front);
      CanonicalIsToString(front);
      NonZeroLeading(a);
      assert DecimalValue(a) == 10 * DecimalValue(front) + DigitValue(last);
      assert DecimalValue(a) / 10 == DecimalValue(front);
      assert DecimalValue(a) % 10 == DigitValue(last);
      assert DigitChar(DigitValue(last)) == last;
      assert a == front + [last];
    }
  }

  lemma {:induction false} NonZeroLeading(a: string)
    requires IsCanonicalNumeral(a) && |a| > 1
    ensures DecimalValue(a) >= 10
    decreases |a|
  {
    var front := a[..|a| - 1];
    assert AllDigits(front);
    assert front[0] == a[0] != '0';
    if |front| == 1 {
      assert front[..0] == [];
      assert DecimalValue(front) == DigitValue(front[0]) >= 1;
    } else {
      NonZeroLeading(front);
    }
  }

  // ---------------------------------------------------------------------------
  // `parseInt` and numbers used as property keys

  /** A JavaScript number as far as the application produces them from keys. */
  datatype Number = NaN | Int(i: int)

  /** The longest run of decimal digits at the start of `s`. */
  function DigitRun(s: string): (r: string)
    ensures r <= s && AllDigits(r)
    ensures |r| < |s| ==> !IsDigit(s[|r|])
  {
    if s == [] || !IsDigit(s[0]) then [] else [s[0]] + DigitRun(s[1..])
  }

  /** `parseInt(s)` for a string without leading white space: an optional
      sign, then the longest run of digits; `NaN` when there is none. */
  function ParseInt(s: string): Number {
    var negative := s != [] && s[0] == '-';
    var body := if s != [] && (s[0] == '-' || s[0] == '+') then s[1..] else s;
    var d := DigitRun(body);
    var v: int := DecimalValue(d);
    if d == [] then NaN else Int(if negative then -v else v)
  }

  /** The property key a number is converted to (`String(n)`). */
  function NumberKey(n: Number): string {
    match n
    case NaN => "NaN"
    case Int(i) => IntToString(i)
  }

  /** A key that `toString` of a natural number produced reads back as itself. */
  lemma ParseIntCanonical(k: string)
    requires IsCanonicalNumeral(k)
    ensures ParseInt(k) == Int(DecimalValue(k))
    ensures NumberKey(ParseInt(k)) == k
  {
    DigitRunAll(k);
    CanonicalIsToString(k);
  }

  lemma {:induction false} DigitRunAll(s: string)
    requires AllDigits(s)
    ensures DigitRun(s) == s
  {
    if s != [] {
      assert AllDigits(s[1..]);
      DigitRunAll(s[1..]);
    }
  }

  /** A key that starts with neither a sign nor a digit parses to `NaN`. */
  lemma ParseIntNaN(k: string)
    requires k != [] && !IsDigit(k[0]) && k[0] != '-' && k[0] != '+'
    ensures ParseInt(k) == NaN
  {
  }

  // ---------------------------------------------------------------------------
  // Relational comparison of strings (`a < b`, `a >= b`): lexicographic on
  // characters, a proper prefix being smaller.

  predicate StrLe(a: string, b: string)
    decreases |a|
  {
    if a == [] then true
    else if b == [] then false
    else if a[0] != b[0] then a[0] < b[0]
    else StrLe(a[1..], b[1..])
  }

  predicate StrLt(a: string, b: string) {
    !StrLe(b, a)
  }

  lemma {:induction false} StrLeTotal(a: string, b: string)
    ensures StrLe(a, b) || StrLe(b, a)
    decreases |a|
  {
    if a != [] && b != [] && a[0] == b[0] {
      StrLeTotal(a[1..], b[1..]);
    }
  }

  lemma {:induction false} StrLeTransitive(a: string, b: string, c: string)
    requires StrLe(a, b) && StrLe(b, c)
    ensures StrLe(a, c)
    decreases |a|
  {
    if a != [] && b != [] && c != [] && a[0] == b[0] == c[0] {
      StrLeTransitive(a[1..], b[1..], c[1..]);
    }
  }

  lemma {:induction false} StrLeAntisymmetric(a: string, b: string)
    requires StrLe(a, b) && StrLe(b, a)
    ensures a == b
    decreases |a|
  {
    if a != [] && b != [] {
      StrLeAntisymmetric(a[1..], b[1..]);
      assert a == [a[0]] + a[1..] && b == [b[0]] + b[1..];
    }
  }

  /** `s.toLowerCase()` restricted to ASCII letters. */
  function LowerAscii(s: string): (r: string)
    ensures |r| == |s|
  {
    seq(|s|, k requires 0 <= k < |s| => if 'A' <= s[k] <= 'Z' then (s[k] as int + 32) as char else s[k])
  }
}
