/** Helpers shared by the modules of this model: an optional value, the
    truthiness rules of Python and JavaScript for optional strings, string
    trimming as each runtime does it, substring search, decimal printing and
    the newest-first sort that several components apply to their lists. */
module Common {

  datatype Option<+T> = None | Some(value: T) {
    function GetOr(default: T): T {
      match this
      case Some(v) => v
      case None => default
    }
  }

  /** An optional string is truthy in Python and JavaScript when it is present and non-empty. */
  predicate Truthy(o: Option<string>) {
    o.Some? && o.value != ""
  }

  /** `a || b` (JavaScript) and `a or b` (Python) on an optional string. */
  function OrElse(a: Option<string>, b: string): (r: string)
    ensures Truthy(a) ==> r == a.value
    ensures !Truthy(a) ==> r == b
  {
    if Truthy(a) then a.value else b
  }

  // ---------------------------------------------------------------------
  // Whitespace and trimming

  datatype Runtime = Python | JavaScript

  /** The characters both runtimes treat as whitespace. */
  const SharedSpaces: set<char> := {
    ' ', '\t', '\n', '\r', '\U{000B}', '\U{000C}', '\U{00A0}', '\U{1680}',
    '\U{2000}', '\U{2001}', '\U{2002}', '\U{2003}', '\U{2004}', '\U{2005}',
    '\U{2006}', '\U{2007}', '\U{2008}', '\U{2009}', '\U{200A}',
    '\U{2028}', '\U{2029}', '\U{202F}', '\U{205F}', '\U{3000}'}

  /** Python's `str.isspace` set and the set `String.prototype.trim` removes in JavaScript. */
  function Spaces(rt: Runtime): set<char> {
    match rt
    case Python => SharedSpaces + {'\U{001C}', '\U{001D}', '\U{001E}', '\U{001F}', '\U{0085}'}
    case JavaScript => SharedSpaces + {'\U{FEFF}'}
  }

  predicate IsWhitespace(rt: Runtime, c: char) {
    c in Spaces(rt)
  }

  function TrimStart(rt: Runtime, s: string): string {
    if s != [] && IsWhitespace(rt, s[0]) then TrimStart(rt, s[1..]) else s
  }

  /** `TrimStart` keeps a suffix of its input. */
  lemma {:induction false} TrimStartSuffix(rt: Runtime, s: string)
    ensures |TrimStart(rt, s)| <= |s| && TrimStart(rt, s) == s[|s| - |TrimStart(rt, s)|..]
  {
    if s != [] && IsWhitespace(rt, s[0]) {
      TrimStartSuffix(rt, s[1..]);
    }
  }

  /** What `TrimStart` removes is whitespace, and what it keeps does not start with whitespace. */
  lemma {:induction false} TrimStartSpec(rt: Runtime, s: string)
    ensures var r := TrimStart(rt, s);
      |r| <= |s| && (r == [] || !IsWhitespace(rt, r[0])) && forall i :: 0 <= i < |s| - |r| ==> IsWhitespace(rt, s[i])
  {
    TrimStartSuffix(rt, s);
    if s != [] && IsWhitespace(rt, s[0]) {
      var t := s[1..];
      TrimStartSpec(rt, t);
      var r := TrimStart(rt, t);
      assert TrimStart(rt, s) == r;
      forall i | 0 < i < |s| - |r|
        ensures IsWhitespace(rt, s[i])
      {
        assert s[i] == t[i - 1];
      }
    }
  }

  function TrimEnd(rt: Runtime, s: string): string {
    if s != [] && IsWhitespace(rt, s[|s| - 1]) then TrimEnd(rt, s[..|s| - 1]) else s
  }

  /** `TrimEnd` keeps a prefix of its input. */
  lemma {:induction false} TrimEndPrefix(rt: Runtime, s: string)
    ensures |TrimEnd(rt, s)| <= |s| && TrimEnd(rt, s) == s[..|TrimEnd(rt, s)|]
  {
    if s != [] && IsWhitespace(rt, s[|s| - 1]) {
      TrimEndPrefix(rt, s[..|s| - 1]);
    }
  }

  /** What `TrimEnd` removes is whitespace, and what it keeps does not end with whitespace. */
  lemma {:induction false} TrimEndSpec(rt: Runtime, s: string)
    ensures var r := TrimEnd(rt, s);
      |r| <= |s| && (r == [] || !IsWhitespace(rt, r[|r| - 1])) && forall i :: |r| <= i < |s| ==> IsWhitespace(rt, s[i])
  {
    if s != [] && IsWhitespace(rt, s[|s| - 1]) {
      var t := s[..|s| - 1];
      TrimEndSpec(rt, t);
      var r := TrimEnd(rt, t);
      assert TrimEnd(rt, s) == r;
      forall i | |r| <= i < |s| - 1
        ensures IsWhitespace(rt, s[i])
      {
        assert s[i] == t[i];
      }
    }
  }

  /** `str.strip()` in Python, `String.prototype.trim()` in JavaScript. */
  function Trim(rt: Runtime, s: string): string {
    TrimEnd(rt, TrimStart(rt, s))
  }

  lemma TrimStartOfTrimmedEnd(rt: Runtime, s: string)
    requires s == [] || !IsWhitespace(rt, s[0])
    ensures TrimEnd(rt, s) == [] || !IsWhitespace(rt, TrimEnd(rt, s)[0])
  {
  }

  /** A trimmed string has no whitespace at either end, so trimming it again changes nothing. */
  lemma TrimIdempotent(rt: Runtime, s: string)
    ensures Trim(rt, Trim(rt, s)) == Trim(rt, s)
  {
    var t := Trim(rt, s);
    TrimStartSpec(rt, s);
    TrimEndSpec(rt, TrimStart(rt, s));
    TrimStartOfTrimmedEnd(rt, TrimStart(rt, s));
    assert t == [] || !IsWhitespace(rt, t[0]);
    assert TrimStart(rt, t) == t;
    assert t == [] || !IsWhitespace(rt, t[|t| - 1]);
    assert TrimEnd(rt, t) == t;
  }

  /** A string whose first character is not whitespace and is non-empty survives trimming non-empty. */
  lemma TrimKeepsNonBlank(rt: Runtime, s: string)
    requires s != [] && !IsWhitespace(rt, s[0])
    ensures Trim(rt, s) != []
  {
    assert TrimStart(rt, s) == s;
    TrimEndSpec(rt, s);
  }

  /** Trimming yields the empty string exactly when every character is whitespace. */
  lemma TrimEmptyIffBlank(rt: Runtime, s: string)
    ensures Trim(rt, s) == [] <==> forall i :: 0 <= i < |s| ==> IsWhitespace(rt, s[i])
  {
    var a := TrimStart(rt, s);
    TrimStartSpec(rt, s);
    if a != [] {
      TrimStartSuffix(rt, s);
      TrimKeepsNonBlank(rt, a);
      assert s[|s| - |a|] == a[0];
    } else {
      TrimEndSpec(rt, a);
    }
  }

  // ---------------------------------------------------------------------
  // Case and substrings

  /** Lower-cases the ASCII letters A-Z and leaves every other character alone. */
  function LowerChar(c: char): char {
    if 'A' <= c <= 'Z' then (c as int + 32) as char else c
  }

  function Lower(s: string): (r: string)
    ensures |r| == |s|
    ensures forall i :: 0 <= i < |s| ==> r[i] == LowerChar(s[i])
  {
    if s == [] then [] else [LowerChar(s[0])] + Lower(s[1..])
  }

  predicate StartsWith(s: string, prefix: string) {
    |prefix| <= |s| && s[..|prefix|] == prefix
  }

  /** `sub` occurs in `s` starting at index i. */
  predicate OccursAt(s: string, sub: string, i: int) {
    0 <= i && i + |sub| <= |s| && s[i..i + |sub|] == sub
  }

  /** `s.includes(sub)` in JavaScript, `sub in s` in Python. */
  function Contains(s: string, sub: string): (r: bool)
    ensures r <==> exists i :: OccursAt(s, sub, i)
    decreases |s|
  {
    if |sub| > |s| then false
    else if s[..|sub|] == sub then assert OccursAt(s, sub, 0); true
    else
      var r := Contains(s[1..], sub);
      assert r ==> exists i :: OccursAt(s, sub, i) by {
        if r {
          var j :| OccursAt(s[1..], sub, j);
          assert OccursAt(s, sub, j + 1);
        }
      }
      assert (exists i :: OccursAt(s, sub, i)) ==> r by {
        if i :| OccursAt(s, sub, i) {
          assert i != 0;
          assert OccursAt(s[1..], sub, i - 1);
        }
      }
      r
  }

  /** A text whose last part starts with `sub` contains `sub`. */
  lemma ContainsWhereTailStarts(s: string, tail: string, sub: string)
    requires |tail| <= |s| && s[|s| - |tail|..] == tail && StartsWith(tail, sub)
    ensures Contains(s, sub)
  {
    var i := |s| - |tail|;
    assert s[i..i + |sub|] == tail[..|sub|];
    assert OccursAt(s, sub, i);
  }

  // ---------------------------------------------------------------------
  // Joining

  /** `sep.join(parts)` in Python, `parts.join(sep)` in JavaScript. */
  function Join(parts: seq<string>, sep: string): string {
    if |parts| == 0 then ""
    else if |parts| == 1 then parts[0]
    else parts[0] + sep + Join(parts[1..], sep)
  }

  /** A joined string contains a character only if some part or the separator does. */
  lemma {:induction false} JoinAvoids(parts: seq<string>, sep: string, c: char)
    requires forall i :: 0 <= i < |parts| ==> c !in parts[i]
    requires |parts| > 1 ==> c !in sep
    ensures c !in Join(parts, sep)
  {
    if |parts| > 1 {
      JoinAvoids(parts[1..], sep, c);
    }
  }

  /** A join whose first part is non-empty is non-empty. */
  lemma JoinNonEmpty(parts: seq<string>, sep: string)
    requires |parts| > 0 && parts[0] != ""
    ensures Join(parts, sep) != ""
  {
  }

  /** The joined length is the sum of the parts plus one separator between neighbours. */
  function TotalLength(parts: seq<string>): nat {
    if parts == [] then 0 else |parts[0]| + TotalLength(parts[1..])
  }

  lemma {:induction false} JoinLength(parts: seq<string>, sep: string)
    requires |parts| > 0
    ensures |Join(parts, sep)| == TotalLength(parts) + (|parts| - 1) * |sep|
  {
    if |parts| > 1 {
      JoinLength(parts[1..], sep);
    }
  }

  // ---------------------------------------------------------------------
  // Decimal numbers

  function DigitChar(d: nat): (c: char)
    requires d < 10
    ensures '0' <= c <= '9'
  {
    "0123456789"[d]
  }

  function DigitValue(c: char): nat
    requires '0' <= c <= '9'
  {
    c as int - '0' as int
  }

  /** `String(n)` for a non-negative integer: its decimal digits, no leading zero. */
  function NatToString(n: nat): (r: string)
    ensures |r| > 0
    ensures forall i :: 0 <= i < |r| ==> '0' <= r[i] <= '9'
    ensures |r| > 1 ==> r[0] != '0'
    ensures n < 10 <==> |r| == 1
  {
    if n < 10 then [DigitChar(n)] else NatToString(n / 10) + [DigitChar(n % 10)]
  }

  /** `String(i)` for any integer: a minus sign before the digits when negative. */
  function IntToString(i: int): (r: string)
    ensures |r| > 0
    ensures i < 0 <==> r[0] == '-'
  {
    if i < 0 then "-" + NatToString(-i) else NatToString(i)
  }

  /** Different integers print differently. */
  lemma IntToStringInjective(a: int, b: int)
    requires IntToString(a) == IntToString(b)
    ensures a == b
  {
    if a < 0 && b < 0 {
      var m, n := NatToString(-a), NatToString(-b);
      assert ("-" + m)[1..] == m;
      assert ("-" + n)[1..] == n;
      NatToStringInjective(-a, -b);
    } else if a >= 0 && b >= 0 {
      NatToStringInjective(a, b);
    }
  }

  lemma NatToStringInjective(a: nat, b: nat)
    requires NatToString(a) == NatToString(b)
    ensures a == b
  {
    NatToStringRoundTrip(a);
    NatToStringRoundTrip(b);
  }

  /** The value of a string of decimal digits. */
  function DigitsValue(s: string): nat
    requires forall i :: 0 <= i < |s| ==> '0' <= s[i] <= '9'
  {
    if s == [] then 0 else 10 * DigitsValue(s[..|s| - 1]) + DigitValue(s[|s| - 1])
  }

  /** Reading back the printed digits gives the number. */
  lemma {:induction false} NatToStringRoundTrip(n: nat)
    ensures DigitsValue(NatToString(n)) == n
  {
    if n >= 10 {
      NatToStringRoundTrip(n / 10);
      var s := NatToString(n);
      assert s[..|s| - 1] == NatToString(n / 10);
    }
  }

  /** A leading '0' does not change the value of a digit string. */
  lemma {:induction false} LeadingZeroValue(s: string)
    requires forall i :: 0 <= i < |s| ==> '0' <= s[i] <= '9'
    ensures DigitsValue("0" + s) == DigitsValue(s)
  {
    if s != [] {
      var t := "0" + s;
      assert t[..|t| - 1] == "0" + s[..|s| - 1];
      LeadingZeroValue(s[..|s| - 1]);
    }
  }

  /** `String(n).padStart(2, '0')`. */
  function PadTwo(n: nat): (r: string)
    ensures |r| >= 2
    ensures forall i :: 0 <= i < |r| ==> '0' <= r[i] <= '9'
    ensures n < 100 ==> |r| == 2
  {
    var s := NatToString(n);
    if |s| >= 2 then s else "0" + s
  }

  /** Padding never changes the value the digits stand for. */
  lemma PadTwoRoundTrip(n: nat)
    ensures DigitsValue(PadTwo(n)) == n
  {
    NatToStringRoundTrip(n);
    if |NatToString(n)| < 2 {
      LeadingZeroValue(NatToString(n));
    }
  }

  // ---------------------------------------------------------------------
  // Sequences

  /** `s.slice(0, n)` in JavaScript, `s[:n]` in Python, for n >= 0. */
  function Take<T>(s: seq<T>, n: nat): (r: seq<T>)
    ensures |r| == if n < |s| then n else |s|
    ensures r == s[..|r|]
  {
    if n < |s| then s[..n] else s
  }

  /** `s.map(f)`: f applied to each element, in order. */
  function Map<A, B>(s: seq<A>, f: A -> B): (r: seq<B>)
    ensures |r| == |s|
  {
    seq(|s|, i requires 0 <= i < |s| => f(s[i]))
  }

  /** The key order of a JavaScript `Map`: each key once, in insertion order, and exactly the keys of `m`. */
  ghost predicate KeysInOrder<K(!new), V>(keys: seq<K>, m: map<K, V>) {
    (forall a, b :: 0 <= a < b < |keys| ==> keys[a] != keys[b]) &&
    (forall k :: k in m <==> k in keys)
  }

  /** `Array.from(m.values())`: the values in key insertion order. */
  function ValuesInOrder<K(!new), V>(keys: seq<K>, m: map<K, V>): (r: seq<V>)
    requires KeysInOrder(keys, m)
    ensures |r| == |keys|
    ensures forall i :: 0 <= i < |keys| ==> r[i] == m[keys[i]]
  {
    seq(|keys|, i requires 0 <= i < |keys| => m[keys[i]])
  }

  /** The empty sequence is a unit of concatenation. */
  lemma AppendEmpty<T>(a: seq<T>)
    ensures [] + a == a && a + [] == a
  {
  }

  lemma AppendEmptyMiddle<T>(a: seq<T>, e: seq<T>, b: seq<T>)
    requires e == []
    ensures a + e + b == a + b
  {
  }

  /** Regrouping a concatenation of three parts. */
  lemma AppendAssoc<T>(a: seq<T>, b: seq<T>, c: seq<T>)
    ensures a + b + c == a + (b + c)
  {
  }

  /** Regrouping a concatenation of four parts. */
  lemma AppendRegroup<T>(a: seq<T>, b: seq<T>, c: seq<T>, d: seq<T>)
    ensures a + b + c + d == a + (b + c + d)
  {
  }

  /** Every element of s satisfies p. */
  predicate All<T>(s: seq<T>, p: T -> bool) {
    forall i :: 0 <= i < |s| ==> p(s[i])
  }

  lemma AllAppend<T>(a: seq<T>, b: seq<T>, p: T -> bool)
    requires All(a, p) && All(b, p)
    ensures All(a + b, p)
  {
    forall i | 0 <= i < |a + b|
      ensures p((a + b)[i])
    {
      if i >= |a| {
        assert (a + b)[i] == b[i - |a|];
      }
    }
  }

  /** The lists f(x) for the elements x of s, concatenated in order (nested `for` loops that append). */
  function FlatMap<A, B>(s: seq<A>, f: A -> seq<B>): seq<B> {
    if s == [] then [] else FlatMap(s[..|s| - 1], f) + f(s[|s| - 1])
  }

  /** One more step of the outer loop. */
  lemma FlatMapStep<A, B>(s: seq<A>, i: nat, f: A -> seq<B>)
    requires i < |s|
    ensures FlatMap(s[..i + 1], f) == FlatMap(s[..i], f) + f(s[i])
  {
    assert s[..i + 1][..i] == s[..i];
  }

  /** Concatenating the inputs concatenates the outputs. */
  lemma {:induction false} FlatMapAppend<A, B>(a: seq<A>, b: seq<A>, f: A -> seq<B>)
    ensures FlatMap(a + b, f) == FlatMap(a, f) + FlatMap(b, f)
  {
    if b == [] {
      assert a + b == a;
    } else {
      var n := |b| - 1;
      assert (a + b)[..|a + b| - 1] == a + b[..n];
      assert (a + b)[|a + b| - 1] == b[n];
      FlatMapAppend(a, b[..n], f);
    }
  }

  /** The output of the i-th element sits between the outputs of the elements before and after it. */
  lemma FlatMapSplit<A, B>(s: seq<A>, i: nat, f: A -> seq<B>)
    requires i < |s|
    ensures FlatMap(s, f) == FlatMap(s[..i], f) + f(s[i]) + FlatMap(s[i + 1..], f)
  {
    var front, one, back := s[..i], [s[i]], s[i + 1..];
    assert s == front + s[i..];
    assert s[i..] == one + back;
    FlatMapAppend(front, one + back, f);
    FlatMapAppend(one, back, f);
    assert one[..0] == [];
    assert FlatMap(one, f) == [] + f(s[i]);
    AppendEmpty(f(s[i]));
    AppendAssoc(FlatMap(front, f), f(s[i]), FlatMap(back, f));
  }

  /** A property every piece has, the whole has. */
  lemma {:induction false} FlatMapAll<A, B>(s: seq<A>, f: A -> seq<B>, p: B -> bool)
    requires forall i :: 0 <= i < |s| ==> All(f(s[i]), p)
    ensures All(FlatMap(s, f), p)
  {
    if s != [] {
      FlatMapAll(s[..|s| - 1], f, p);
      AllAppend(FlatMap(s[..|s| - 1], f), f(s[|s| - 1]), p);
    }
  }

  /** `s.filter(p)`: the elements satisfying p, in order. */
  function Filter<T>(s: seq<T>, p: T -> bool): (r: seq<T>)
    ensures |r| <= |s|
    ensures forall x :: x in r ==> x in s && p(x)
    ensures forall x :: x in s && p(x) ==> x in r
  {
    if s == [] then []
    else (if p(s[0]) then [s[0]] else []) + Filter(s[1..], p)
  }

  /** `s.filter(p).length`. */
  function Count<T>(s: seq<T>, p: T -> bool): (n: nat)
    ensures n == |Filter(s, p)|
    ensures n <= |s|
  {
    if s == [] then 0 else (if p(s[0]) then 1 else 0) + Count(s[1..], p)
  }

  lemma {:induction false} CountAppend<T>(a: seq<T>, b: seq<T>, p: T -> bool)
    ensures Count(a + b, p) == Count(a, p) + Count(b, p)
  {
    if a == [] {
      assert a + b == b;
    } else {
      assert (a + b)[0] == a[0];
      assert (a + b)[1..] == a[1..] + b;
      CountAppend(a[1..], b, p);
    }
  }

  lemma {:induction false} FilterMultiset<T>(s: seq<T>, p: T -> bool)
    ensures multiset(Filter(s, p)) <= multiset(s)
  {
    if s != [] {
      FilterMultiset(s[1..], p);
      assert s == [s[0]] + s[1..];
    }
  }

  /** Filtering keeps a list whose every element passes. */
  lemma {:induction false} FilterKeepsAll<T>(s: seq<T>, p: T -> bool)
    requires forall i :: 0 <= i < |s| ==> p(s[i])
    ensures Filter(s, p) == s
  {
    if s != [] {
      FilterKeepsAll(s[1..], p);
    }
  }

  /** Filtering a list whose keys are distinct leaves the keys distinct. */
  lemma {:induction false} FilterKeepsDistinct<T, K>(s: seq<T>, p: T -> bool, key: T -> K)
    requires forall i, j :: 0 <= i < j < |s| ==> key(s[i]) != key(s[j])
    ensures forall i, j :: 0 <= i < j < |Filter(s, p)| ==> key(Filter(s, p)[i]) != key(Filter(s, p)[j])
  {
    if s != [] {
      var tail := s[1..];
      FilterKeepsDistinct(tail, p, key);
      var rest := Filter(tail, p);
      var f := Filter(s, p);
      if p(s[0]) {
        assert f == [s[0]] + rest;
        forall x | x in rest
          ensures key(x) != key(s[0])
        {
          var k :| 0 <= k < |tail| && tail[k] == x;
          assert s[k + 1] == x;
        }
        forall i, j | 0 <= i < j < |f|
          ensures key(f[i]) != key(f[j])
        {
          assert f[j] == rest[j - 1] && rest[j - 1] in rest;
          if i > 0 {
            assert f[i] == rest[i - 1];
          }
        }
      } else {
        assert f == rest;
      }
    }
  }

  /** Newest-first order on a key, as `(a, b) => key(b) - key(a)` sorts. */
  ghost predicate SortedDesc<T>(s: seq<T>, key: T -> int) {
    forall i, j :: 0 <= i < j < |s| ==> key(s[i]) >= key(s[j])
  }

  /** Places x before the first element whose key is not larger than its own. */
  function InsertDesc<T>(x: T, s: seq<T>, key: T -> int): (r: seq<T>)
    ensures multiset(r) == multiset(s) + multiset{x}
    ensures |r| == |s| + 1
  {
    if s == [] || key(s[0]) <= key(x) then [x] + s
    else
      assert s == [s[0]] + s[1..];
      [s[0]] + InsertDesc(x, s[1..], key)
  }

  /** Inserting into a newest-first list keeps it newest-first. */
  lemma {:induction false} InsertDescSorted<T>(x: T, s: seq<T>, key: T -> int)
    requires SortedDesc(s, key)
    ensures SortedDesc(InsertDesc(x, s, key), key)
  {
    if !(s == [] || key(s[0]) <= key(x)) {
      var rest := InsertDesc(x, s[1..], key);
      InsertDescSorted(x, s[1..], key);
      forall k | 0 <= k < |rest|
        ensures key(s[0]) >= key(rest[k])
      {
        assert rest[k] in multiset(rest);
        if rest[k] != x {
          assert rest[k] in s[1..];
          var j :| 0 <= j < |s[1..]| && s[1..][j] == rest[k];
          assert s[1..][j] == s[j + 1];
        }
      }
      assert InsertDesc(x, s, key) == [s[0]] + rest;
    }
  }

  /** `s.sort((a, b) => key(b) - key(a))`: a stable insertion sort, newest first. */
  function SortDesc<T>(s: seq<T>, key: T -> int): (r: seq<T>)
    ensures multiset(r) == multiset(s)
    ensures |r| == |s|
  {
    if s == [] then []
    else
      assert s == [s[0]] + s[1..];
      InsertDesc(s[0], SortDesc(s[1..], key), key)
  }

  /** The sort's result is newest-first. */
  lemma {:induction false} SortDescSorted<T>(s: seq<T>, key: T -> int)
    ensures SortedDesc(SortDesc(s, key), key)
  {
    if s != [] {
      SortDescSorted(s[1..], key);
      InsertDescSorted(s[0], SortDesc(s[1..], key), key);
    }
  }

  /** A prefix of a sorted list is sorted. */
  lemma TakeSortedDesc<T>(s: seq<T>, n: nat, key: T -> int)
    requires SortedDesc(s, key)
    ensures SortedDesc(Take(s, n), key)
  {
  }

  /** Sorting newest first and keeping n gives a sorted list of elements of the input. */
  lemma TakeNewestSpec<T>(s: seq<T>, n: nat, key: T -> int)
    ensures SortedDesc(Take(SortDesc(s, key), n), key)
    ensures forall x :: x in Take(SortDesc(s, key), n) ==> x in s
  {
    var sorted := SortDesc(s, key);
    SortDescSorted(s, key);
    TakeSortedDesc(sorted, n, key);
    forall x | x in Take(sorted, n)
      ensures x in s
    {
      assert x in sorted;
      assert x in multiset(sorted);
    }
  }

  /** Sorting newest first and keeping n drops nothing newer than what it keeps. */
  lemma TakeNewestDropsOlder<T>(s: seq<T>, n: nat, key: T -> int, dropped: T, kept: T)
    requires dropped in s && dropped !in Take(SortDesc(s, key), n)
    requires kept in Take(SortDesc(s, key), n)
    ensures key(kept) >= key(dropped)
  {
    var sorted := SortDesc(s, key);
    var r := Take(sorted, n);
    SortDescSorted(s, key);
    assert dropped in multiset(s);
    assert dropped in multiset(sorted);
    var j :| 0 <= j < |sorted| && sorted[j] == dropped;
    var i :| 0 <= i < |r| && r[i] == kept;
    assert sorted[i] == kept;
    assert j >= |r|;
  }

  /** Every element of a prefix is an element of the list. */
  lemma TakeSubset<T>(s: seq<T>, n: nat)
    ensures multiset(Take(s, n)) <= multiset(s)
  {
    assert s == Take(s, n) + s[|Take(s, n)|..];
  }

  /** A permutation of a list whose keys are distinct has the same elements and distinct keys. */
  lemma PermutationKeepsDistinct<T, K>(s: seq<T>, r: seq<T>, key: T -> K)
    requires multiset(r) == multiset(s)
    requires forall i, j :: 0 <= i < j < |s| ==> key(s[i]) != key(s[j])
    ensures forall x :: x in r <==> x in s
    ensures forall i, j :: 0 <= i < j < |r| ==> key(r[i]) != key(r[j])
  {
    assert forall x :: x in r <==> x in multiset(r);
    assert forall x :: x in s <==> x in multiset(s);
    forall i, j | 0 <= i < j < |r|
      ensures key(r[i]) != key(r[j])
    {
      if key(r[i]) == key(r[j]) {
        assert r[i] in multiset(r) && r[j] in multiset(r);
        assert r[i] in s && r[j] in s;
        var a :| 0 <= a < |s| && s[a] == r[i];
        var b :| 0 <= b < |s| && s[b] == r[j];
        if a == b {
          TwiceCounted(r, i, j);
          OnceCounted(s, a, key);
          assert false;
        }
      }
    }
  }

  lemma TwiceCounted<T>(r: seq<T>, i: nat, j: nat)
    requires i < j < |r| && r[i] == r[j]
    ensures multiset(r)[r[i]] >= 2
  {
    assert r == r[..i] + [r[i]] + r[i + 1..j] + [r[j]] + r[j + 1..];
  }

  lemma OnceCounted<T, K>(s: seq<T>, a: nat, key: T -> K)
    requires a < |s|
    requires forall i, j :: 0 <= i < j < |s| ==> key(s[i]) != key(s[j])
    ensures multiset(s)[s[a]] == 1
  {
    assert s == s[..a] + [s[a]] + s[a + 1..];
    assert s[a] !in s[..a];
    assert s[a] !in s[a + 1..];
  }
}
