/**
 * The java.lang.String and commons-lang StringUtils operations the provider
 * relies on, written out over `seq<char>`. Case conversion covers ASCII only.
 */
module Strings {
  import opened Wrappers

  type String = seq<char>

  predicate StartsWith(s: String, p: String) {
    |p| <= |s| && s[..|p|] == p
  }

  predicate EndsWith(s: String, p: String) {
    |p| <= |s| && s[|s| - |p|..] == p
  }

  /** `p` occurs in `s` starting at position `i`. */
  predicate OccursAt(s: String, p: String, i: int) {
    0 <= i && i + |p| <= |s| && s[i..i + |p|] == p
  }

  /** String.indexOf: the first position where `p` occurs in `s`, or -1. */
  function IndexOf(s: String, p: String): (r: int)
    ensures r == -1 || OccursAt(s, p, r)
    ensures r == -1 ==> forall i :: !OccursAt(s, p, i)
    ensures r != -1 ==> forall i :: 0 <= i < r ==> !OccursAt(s, p, i)
    decreases |s|
  {
    if StartsWith(s, p) then 0
    else if |s| == 0 then -1
    else
      var r := IndexOf(s[1..], p);
      assert forall i :: OccursAt(s, p, i + 1) ==> OccursAt(s[1..], p, i) by {
        forall i | OccursAt(s, p, i + 1) ensures OccursAt(s[1..], p, i) {
          assert s[1..][i..i + |p|] == s[i + 1..i + 1 + |p|];
        }
      }
      assert forall i :: OccursAt(s[1..], p, i) ==> OccursAt(s, p, i + 1) by {
        forall i | OccursAt(s[1..], p, i) ensures OccursAt(s, p, i + 1) {
          assert s[1..][i..i + |p|] == s[i + 1..i + 1 + |p|];
        }
      }
      assert !OccursAt(s, p, 0);
      assert forall i :: OccursAt(s, p, i) ==> i == 0 || OccursAt(s[1..], p, i - 1);
      if r == -1 then -1 else r + 1
  }

  /** `s.indexOf(p) != -1`, as the source writes "contains". */
  predicate Contains(s: String, p: String) {
    IndexOf(s, p) != -1
  }

  lemma ContainsIff(s: String, p: String)
    ensures Contains(s, p) <==> exists i :: OccursAt(s, p, i)
  {
  }

  lemma OccursSelf(s: String)
    ensures OccursAt(s, s, 0)
  {
    assert s[0..|s|] == s;
  }

  lemma OccursAppend(a: String, b: String, p: String, i: int)
    requires OccursAt(a, p, i)
    ensures OccursAt(a + b, p, i)
  {
    assert (a + b)[i..i + |p|] == a[i..i + |p|];
  }

  lemma OccursPrepend(a: String, b: String, p: String, i: int)
    requires OccursAt(b, p, i)
    ensures OccursAt(a + b, p, |a| + i)
  {
    assert (a + b)[|a| + i..|a| + i + |p|] == b[i..i + |p|];
  }

  lemma OccursInside(a: String, b: String, c: String, p: String, i: int)
    requires OccursAt(b, p, i)
    ensures OccursAt(a + b + c, p, |a| + i)
  {
    OccursPrepend(a, b, p, i);
    OccursAppend(a + b, c, p, |a| + i);
  }

  /** An occurrence in `b` is one in any string that has `b` in the middle. */
  lemma ContainsNested(s: String, outer: String, a: String, b: String, c: String, closing: String, p: String, i: int)
    requires s == outer + (a + b + c) + closing
    requires OccursAt(b, p, i)
    ensures Contains(s, p)
  {
    OccursInside(a, b, c, p, i);
    OccursInside(outer, a + b + c, closing, p, |a| + i);
    OccursContains(s, p, |outer| + |a| + i);
  }

  lemma OccursContains(s: String, p: String, i: int)
    requires OccursAt(s, p, i)
    ensures Contains(s, p)
  {
  }

  /** Java's `+` on a possibly null String: a null operand prints as "null". */
  function Str(o: Option<String>): String {
    match o
    case Some(s) => s
    case None => "null"
  }

  /** Character.isWhitespace. */
  predicate IsWhitespace(c: char) {
    c == ' ' || c == '\t' || c == '\n' || c == '\U{000B}' || c == '\U{000C}' || c == '\r'
    || ('\U{001C}' <= c <= '\U{001F}')
    || c == '\U{1680}' || ('\U{2000}' <= c <= '\U{2006}') || ('\U{2008}' <= c <= '\U{200A}')
    || c == '\U{2028}' || c == '\U{2029}' || c == '\U{205F}' || c == '\U{3000}'
  }

  /** StringUtils.isBlank: null, empty, or whitespace only. */
  predicate IsBlank(o: Option<String>) {
    match o
    case None => true
    case Some(s) => forall i :: 0 <= i < |s| ==> IsWhitespace(s[i])
  }

  /** StringUtils.startsWith: null-safe, two nulls are equal. */
  predicate NullSafeStartsWith(o: Option<String>, prefix: Option<String>) {
    match (o, prefix)
    case (None, None) => true
    case (Some(s), Some(p)) => StartsWith(s, p)
    case _ => false
  }

  /** StringUtils.substringAfter for a non-null separator: the text after the
      first occurrence of `sep`, "" when there is none, `s` itself when empty. */
  function SubstringAfter(s: String, sep: String): (r: String)
    ensures |s| == 0 ==> r == s
    ensures |s| > 0 && (forall i :: !OccursAt(s, sep, i)) ==> r == []
    ensures forall i :: |s| > 0 && OccursAt(s, sep, i) && (forall j :: 0 <= j < i ==> !OccursAt(s, sep, j))
              ==> r == s[i + |sep|..]
  {
    if |s| == 0 then s
    else
      var pos := IndexOf(s, sep);
      if pos == -1 then [] else s[pos + |sep|..]
  }

  /** String.lastIndexOf: the last position where `p` occurs in `s`, or -1. */
  function LastIndexOf(s: String, p: String): (r: int)
    ensures r == -1 || OccursAt(s, p, r)
    decreases |s|
  {
    if |s| < |p| then -1
    else if OccursAt(s, p, |s| - |p|) then |s| - |p|
    else
      var r := LastIndexOf(s[..|s| - 1], p);
      assert r != -1 ==> s[..|s| - 1][r..r + |p|] == s[r..r + |p|];
      r
  }

  /** StringUtils.substringBeforeLast. */
  function SubstringBeforeLast(s: String, sep: String): String {
    if |s| == 0 || |sep| == 0 then s
    else
      var pos := LastIndexOf(s, sep);
      if pos == -1 then s else s[..pos]
  }

  /** Before the last occurrence of a suffix is everything but the suffix. */
  lemma BeforeLastOfSuffix(s: String, sep: String)
    requires |sep| > 0 && EndsWith(s, sep)
    ensures SubstringBeforeLast(s, sep) == s[..|s| - |sep|]
  {
    assert OccursAt(s, sep, |s| - |sep|);
  }

  /** The first `d` of `a + [d] + x` is the one after `a` when `a` holds none:
      such a string splits back into `a` and `x` in one way only. */
  lemma SeparatedUnique(a: String, x: String, b: String, y: String, d: char)
    requires d !in a && d !in b
    requires a + [d] + x == b + [d] + y
    ensures a == b && x == y
  {
    var s := a + [d] + x;
    FirstSeparator(a, x, d);
    FirstSeparator(b, y, d);
    assert s[..|a|] == a;
    assert s[|a| + 1..] == x;
  }

  lemma FirstSeparator(a: String, x: String, d: char)
    requires d !in a
    ensures IndexOf(a + [d] + x, [d]) == |a|
  {
    var s := a + [d] + x;
    assert s[|a|..|a| + 1] == [d];
    forall i | 0 <= i < |a|
      ensures !OccursAt(s, [d], i)
    {
      assert s[i] == a[i];
      assert s[i..i + 1][0] == s[i];
    }
    assert OccursAt(s, [d], |a|);
  }

  /** Integer.toString writes digits and a minus sign, nothing else. */
  lemma IntToStringChars(n: int, c: char)
    requires c != '-' && !('0' <= c <= '9')
    ensures c !in IntToString(n)
  {
    var m: nat := if n < 0 then -n else n;
    DigitsOfNat(m);
    var t := NatToString(m);
    assert forall i :: 0 <= i < |t| ==> t[i] != c;
  }

  /** StringUtils.removeEnd. */
  function RemoveEnd(s: String, remove: String): (r: String)
    ensures EndsWith(s, remove) ==> s == r + remove
    ensures !EndsWith(s, remove) ==> r == s
  {
    if |s| == 0 || |remove| == 0 then s
    else if EndsWith(s, remove) then s[..|s| - |remove|]
    else s
  }

  function LowerChar(c: char): char {
    if 'A' <= c <= 'Z' then (c as int + 32) as char else c
  }

  /** String.toLowerCase, on ASCII letters. */
  function Lower(s: String): (r: String)
    ensures |r| == |s|
    ensures forall i :: 0 <= i < |s| ==> r[i] == LowerChar(s[i])
  {
    seq(|s|, i requires 0 <= i < |s| => LowerChar(s[i]))
  }

  /** String.equalsIgnoreCase, on ASCII letters. */
  predicate EqualsIgnoreCase(a: String, b: String) {
    Lower(a) == Lower(b)
  }

  /** StringUtils.replace of every occurrence of the single character `c` by `r`. */
  function ReplaceChar(s: String, c: char, r: String): (t: String)
    ensures c !in r ==> c !in t
  {
    if |s| == 0 then []
    else (if s[0] == c then r else [s[0]]) + ReplaceChar(s[1..], c, r)
  }

  lemma ReplaceCharAppend(a: String, b: String, c: char, r: String)
    ensures ReplaceChar(a + b, c, r) == ReplaceChar(a, c, r) + ReplaceChar(b, c, r)
  {
    if |a| > 0 {
      assert (a + b)[1..] == a[1..] + b;
      ReplaceCharAppend(a[1..], b, c, r);
    } else {
      assert a + b == b;
    }
  }

  /** String.trim: drops leading and trailing characters up to U+0020. */
  function Trim(s: String): (r: String)
    ensures |r| <= |s|
    ensures (forall i :: 0 <= i < |s| ==> s[i] > ' ') ==> r == s
    decreases |s|
  {
    if |s| > 0 && s[0] <= ' ' then Trim(s[1..])
    else if |s| > 0 && s[|s| - 1] <= ' ' then Trim(s[..|s| - 1])
    else s
  }

  /** Concatenation of `vs` with `d` between consecutive elements. */
  function Join(vs: seq<String>, d: char): String {
    if |vs| == 0 then []
    else if |vs| == 1 then vs[0]
    else vs[0] + [d] + Join(vs[1..], d)
  }

  /** Splitting at every `d`, keeping empty pieces (String.split(d, -1)). */
  function Split(s: String, d: char): (r: seq<String>)
    ensures |r| >= 1
    decreases |s|
  {
    if |s| == 0 then [[]]
    else
      var rest := Split(s[1..], d);
      if s[0] == d then [[]] + rest else [[s[0]] + rest[0]] + rest[1..]
  }

  lemma {:induction false} SplitPrefix(v: String, w: String, d: char)
    requires d !in v
    ensures Split(v + w, d) == [v + Split(w, d)[0]] + Split(w, d)[1..]
    decreases |v|
  {
    if |v| == 0 {
      assert v + w == w;
      assert v + Split(w, d)[0] == Split(w, d)[0];
      assert Split(w, d) == [Split(w, d)[0]] + Split(w, d)[1..];
    } else {
      assert (v + w)[1..] == v[1..] + w;
      SplitPrefix(v[1..], w, d);
      assert [v[0]] + (v[1..] + Split(w, d)[0]) == v + Split(w, d)[0];
    }
  }

  /** Splitting a join gives back the pieces, when no piece holds the separator. */
  lemma {:induction false} SplitJoin(vs: seq<String>, d: char)
    requires |vs| > 0
    requires forall i :: 0 <= i < |vs| ==> d !in vs[i]
    ensures Split(Join(vs, d), d) == vs
    decreases |vs|
  {
    if |vs| == 1 {
      SplitPrefix(vs[0], [], d);
      assert vs[0] + [] == vs[0];
    } else {
      var rest := Join(vs[1..], d);
      SplitJoin(vs[1..], d);
      assert Join(vs, d) == vs[0] + ([d] + rest);
      SplitPrefix(vs[0], [d] + rest, d);
      assert ([d] + rest)[1..] == rest;
      assert vs[0] + [] == vs[0];
      assert [vs[0]] + vs[1..] == vs;
    }
  }

  predicate IsTokenDelimiter(c: char) {
    c == ',' || c == ' '
  }

  /** new StringTokenizer(s, ", "): the maximal runs of non-delimiters, where
      `cur` is the run read so far. */
  function TokensFrom(s: String, cur: String): seq<String>
    decreases |s|
  {
    if |s| == 0 then (if cur == [] then [] else [cur])
    else if IsTokenDelimiter(s[0]) then (if cur == [] then [] else [cur]) + TokensFrom(s[1..], [])
    else TokensFrom(s[1..], cur + [s[0]])
  }

  function Tokens(s: String): seq<String> {
    TokensFrom(s, [])
  }

  predicate IsPlainToken(t: String) {
    |t| > 0 && forall i :: 0 <= i < |t| ==> !IsTokenDelimiter(t[i])
  }

  lemma {:induction false} TokensFromRun(t: String, rest: String, cur: String)
    requires forall i :: 0 <= i < |t| ==> !IsTokenDelimiter(t[i])
    ensures TokensFrom(t + rest, cur) == TokensFrom(rest, cur + t)
    decreases |t|
  {
    if |t| == 0 {
      assert t + rest == rest;
      assert cur + t == cur;
    } else {
      assert (t + rest)[1..] == t[1..] + rest;
      assert (t + rest)[0] == t[0];
      TokensFromRun(t[1..], rest, cur + [t[0]]);
      assert cur + [t[0]] + t[1..] == cur + t;
    }
  }

  /** Tokenising a comma-separated list of plain tokens gives back the list. */
  lemma {:induction false} TokensOfJoin(ts: seq<String>)
    requires forall i :: 0 <= i < |ts| ==> IsPlainToken(ts[i])
    ensures Tokens(Join(ts, ',')) == ts
    decreases |ts|
  {
    if |ts| == 0 {
    } else if |ts| == 1 {
      TokensFromRun(ts[0], [], []);
      assert ts[0] + [] == ts[0];
      assert [] + ts[0] == ts[0];
    } else {
      var rest := Join(ts[1..], ',');
      assert Join(ts, ',') == ts[0] + ([','] + rest);
      TokensFromRun(ts[0], [','] + rest, []);
      assert [] + ts[0] == ts[0];
      assert ([','] + rest)[1..] == rest;
      TokensOfJoin(ts[1..]);
      assert [ts[0]] + ts[1..] == ts;
    }
  }

  /** Decimal digits of a natural number. */
  function NatToString(n: nat): String
    decreases n, 0
  {
    if n < 10 then ["0123456789"[n]]
    else IntToString(n / 10) + ["0123456789"[n % 10]]
  }

  /** Integer.toString. */
  function IntToString(n: int): String
    decreases if n < 0 then -n else n, 1
  {
    if n < 0 then "-" + NatToString(-n) else NatToString(n)
  }

  /** `xs` lists every element of `s` exactly once. */
  ghost predicate IsEnumeration(xs: seq<String>, s: set<String>) {
    (forall i, j :: 0 <= i < j < |xs| ==> xs[i] != xs[j]) &&
    (forall x :: x in xs <==> x in s)
  }

  /** An enumeration is as long as the set it enumerates. */
  lemma {:induction false} EnumerationSize(xs: seq<String>, s: set<String>)
    requires IsEnumeration(xs, s)
    ensures |xs| == |s|
    decreases |xs|
  {
    if |xs| == 0 {
      assert s == {} by {
        forall y | y in s
          ensures y in xs
        {
        }
      }
    } else {
      var n := |xs|;
      var x, front := xs[n - 1], xs[..n - 1];
      assert x in xs;
      forall y
        ensures y in front <==> y in s - {x}
      {
        if y in front {
          var i :| 0 <= i < n - 1 && front[i] == y;
          assert xs[i] == y;
        }
        if y in s - {x} {
          assert y in xs;
          var i :| 0 <= i < n && xs[i] == y;
          assert i != n - 1;
          assert front[i] == y;
        }
      }
      EnumerationSize(front, s - {x});
    }
  }

  /** Visiting one more element extends an enumeration. */
  lemma EnumerationSnoc(xs: seq<String>, s: set<String>, x: String)
    requires IsEnumeration(xs, s) && x !in s
    ensures IsEnumeration(xs + [x], s + {x})
  {
    forall y
      ensures y in xs + [x] <==> y in xs || y == x
    {
    }
  }

  /** The iteration order of a HashMap's key set, which Java leaves
      unspecified: any order at all. */
  method Enumerate(s: set<String>) returns (xs: seq<String>)
    ensures IsEnumeration(xs, s)
  {
    xs := [];
    var rest := s;
    while rest != {}
      invariant rest <= s
      invariant forall x :: x in xs <==> x in s - rest
      invariant forall i, j :: 0 <= i < j < |xs| ==> xs[i] != xs[j]
      decreases |rest|
    {
      var x :| x in rest;
      assert x !in xs;
      xs := xs + [x];
      rest := rest - {x};
    }
  }

  function DigitValue(c: char): nat
    requires '0' <= c <= '9'
  {
    c as int - '0' as int
  }

  predicate AllDigits(s: String) {
    forall i :: 0 <= i < |s| ==> '0' <= s[i] <= '9'
  }

  /** The value of a string of decimal digits, read left to right. */
  function DigitsValue(s: String): nat
    requires AllDigits(s)
  {
    if |s| == 0 then 0 else DigitsValue(s[..|s| - 1]) * 10 + DigitValue(s[|s| - 1])
  }

  const MinInt32: int := -0x8000_0000
  const MaxInt32: int := 0x7FFF_FFFF

  /** Integer.parseInt on a possibly null string, with ASCII digits: an optional
      sign, at least one digit, and a value that fits in 32 bits; None stands
      for the NumberFormatException. */
  function ParseInt(o: Option<String>): (r: Option<int>)
    ensures r.Some? ==> MinInt32 <= r.value <= MaxInt32
  {
    match o
    case None => None
    case Some(s) =>
      var neg := |s| > 0 && s[0] == '-';
      var digits := if |s| > 0 && (s[0] == '-' || s[0] == '+') then s[1..] else s;
      if |digits| == 0 || !AllDigits(digits) then None
      else
        var value: int := DigitsValue(digits);
        var v := if neg then -value else value;
        if MinInt32 <= v <= MaxInt32 then Some(v) else None
  }

  lemma {:induction false} DigitsOfNat(n: nat)
    ensures |NatToString(n)| > 0 && AllDigits(NatToString(n)) && DigitsValue(NatToString(n)) == n
    decreases n
  {
    DigitChar(n % 10);
    if n >= 10 {
      DigitsOfNat(n / 10);
      DigitsSnoc(NatToString(n / 10), "0123456789"[n % 10]);
    }
  }

  lemma DigitChar(d: nat)
    requires d < 10
    ensures '0' <= "0123456789"[d] <= '9' && DigitValue("0123456789"[d]) == d
  {
  }

  lemma DigitsSnoc(front: String, c: char)
    requires AllDigits(front) && '0' <= c <= '9'
    ensures AllDigits(front + [c]) && DigitsValue(front + [c]) == DigitsValue(front) * 10 + DigitValue(c)
  {
    assert (front + [c])[..|front|] == front;
  }


  /** Integer.toString and Integer.parseInt are inverse on 32-bit values. */
  lemma ParseIntToString(n: int)
    requires MinInt32 <= n <= MaxInt32
    ensures ParseInt(Some(IntToString(n))) == Some(n)
  {
    var m: nat := if n < 0 then -n else n;
    var d := NatToString(m);
    DigitsOfNat(m);
    assert '0' <= d[0] <= '9';
    if n < 0 {
      var s := "-" + d;
      assert s == IntToString(n);
      assert s[0] == '-' && s[1..] == d;
    } else {
      assert d == IntToString(n);
    }
  }
}
