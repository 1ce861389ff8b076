/** The parts of Python's `str` and `int` behaviour the bot relies on.
    Strings are sequences of Unicode code points, as Python's `str` is. */
module PyText {

  datatype Option<T> = None | Some(value: T)

  function Min(a: int, b: int): int { if a <= b then a else b }

  // ---------------------------------------------------------------------------
  // Substrings

  /** The `n` characters of `s` starting at `a`. */
  function Window(s: string, a: nat, n: nat): string
    requires a + n <= |s|
  {
    s[a..a + n]
  }

  /** `t` occurs in `s` as a contiguous piece (Python's `t in s`). */
  ghost predicate IsSubstring(t: string, s: string) {
    exists a: nat :: a + |t| <= |s| && Window(s, a, |t|) == t
  }

  lemma SubstringOfConcat(p: string, t: string, q: string)
    ensures IsSubstring(t, p + t + q)
  {
    assert Window(p + t + q, |p|, |t|) == t;
  }

  lemma SubstringOfPrefix(t: string, q1: string, q2: string)
    ensures IsSubstring(t, t + q1 + q2)
  {
    assert Window(t + q1 + q2, 0, |t|) == t;
  }

  lemma SubstringOfSuffix(p: string, t: string)
    ensures IsSubstring(t, p + t)
  {
    assert Window(p + t, |p|, |t|) == t;
  }

  lemma SubstringOfFour(a: string, b: string, c: string, d: string)
    ensures IsSubstring(a, a + b + c + d)
    ensures IsSubstring(b, a + b + c + d) && IsSubstring(c, a + b + c + d)
  {
    assert Window(a + b + c + d, 0, |a|) == a;
    assert Window(a + b + c + d, |a|, |b|) == b;
    assert Window(a + b + c + d, |a| + |b|, |c|) == c;
  }

  lemma SubstringOfFive(a: string, b: string, c: string, d: string, e: string)
    ensures IsSubstring(a, a + b + c + d + e)
    ensures IsSubstring(b, a + b + c + d + e) && IsSubstring(d, a + b + c + d + e)
  {
    assert Window(a + b + c + d + e, 0, |a|) == a;
    assert Window(a + b + c + d + e, |a|, |b|) == b;
    assert Window(a + b + c + d + e, |a| + |b| + |c|, |d|) == d;
  }

  lemma {:induction false} SubstringTransitive(t: string, u: string, s: string)
    requires IsSubstring(t, u) && IsSubstring(u, s)
    ensures IsSubstring(t, s)
  {
    var a: nat :| a + |t| <= |u| && Window(u, a, |t|) == t;
    var b: nat :| b + |u| <= |s| && Window(s, b, |u|) == u;
    assert Window(s, b + a, |t|) == t by {
      forall i | 0 <= i < |t| ensures s[b + a + i] == t[i] {
        assert u[a + i] == t[i];
        assert s[b + (a + i)] == u[a + i];
      }
    }
  }

  // ---------------------------------------------------------------------------
  // strip()

  /** Python's `str.isspace()`: the characters `strip()` and `int()` drop. */
  predicate IsSpace(c: char) {
    c == ' ' || '\t' <= c <= '\r' || '\U{1c}' <= c <= '\U{1f}' || c == '\U{85}' || c == '\U{a0}'
    || c == '\U{1680}' || '\U{2000}' <= c <= '\U{200a}' || c == '\U{2028}' || c == '\U{2029}'
    || c == '\U{202f}' || c == '\U{205f}' || c == '\U{3000}'
  }

  /** The characters one call of `strip` removes: whitespace for `strip()`, one given character
      for `strip(c)`. */
  datatype CharSet = Whitespace | Just(c: char)

  predicate InSet(c: char, k: CharSet) {
    match k
    case Whitespace => IsSpace(c)
    case Just(d) => c == d
  }

  /** Python's `s.strip()` (k = Whitespace) and `s.strip(c)` (k = Just(c)): `s` without its
      leading and its trailing run of characters from `k`. Taking one character off either end
      at a time removes the same two runs as Python's left-then-right scan. */
  function Strip(s: string, k: CharSet): (r: string)
    ensures |r| <= |s|
    ensures r != [] ==> !InSet(r[0], k) && !InSet(r[|r| - 1], k)
    decreases |s|
  {
    if s == [] then s
    else if InSet(s[0], k) then Strip(s[1..], k)
    else if InSet(s[|s| - 1], k) then Strip(s[..|s| - 1], k)
    else s
  }

  /** What `strip` leaves is a piece of the original. */
  lemma {:induction false} StripIsSubstring(s: string, k: CharSet)
    ensures IsSubstring(Strip(s, k), s)
    decreases |s|
  {
    var r := Strip(s, k);
    if s == [] {
      assert Window(s, 0, 0) == r;
    } else if InSet(s[0], k) {
      StripIsSubstring(s[1..], k);
      assert [s[0]] + s[1..] == s;
      SubstringOfSuffix([s[0]], s[1..]);
      SubstringTransitive(r, s[1..], s);
    } else if InSet(s[|s| - 1], k) {
      var init := s[..|s| - 1];
      StripIsSubstring(init, k);
      assert init + [s[|s| - 1]] + [] == s;
      SubstringOfPrefix(init, [s[|s| - 1]], []);
      SubstringTransitive(r, init, s);
    } else {
      assert Window(s, 0, |s|) == r;
    }
  }

  /** `Strip(s, k)` is the piece `s[a..b]`, and only characters of `k` lie outside it. */
  ghost predicate StrippedAt(s: string, k: CharSet, a: int, b: int) {
    && 0 <= a <= b <= |s| && Strip(s, k) == s[a..b]
    && (forall i :: 0 <= i < a ==> InSet(s[i], k))
    && (forall i :: b <= i < |s| ==> InSet(s[i], k))
  }

  /** `strip` removes a leading and a trailing run of characters of `k` and nothing else: what
      it keeps is one piece of the original with only characters of `k` before and after it.
      With the contract of `Strip` (the piece neither starts nor ends with one of them) the runs
      are the longest ones. */
  lemma {:induction false} StripRuns(s: string, k: CharSet)
    ensures exists a, b :: StrippedAt(s, k, a, b)
    decreases |s|
  {
    if s == [] {
      assert StrippedAt(s, k, 0, 0);
    } else if InSet(s[0], k) {
      StripRuns(s[1..], k);
      var a, b :| StrippedAt(s[1..], k, a, b);
      StrippedFront(s, k, a, b);
    } else if InSet(s[|s| - 1], k) {
      StripRuns(s[..|s| - 1], k);
      var a, b :| StrippedAt(s[..|s| - 1], k, a, b);
      StrippedBack(s, k, a, b);
    } else {
      assert StrippedAt(s, k, 0, |s|);
    }
  }

  lemma StrippedFront(s: string, k: CharSet, a: int, b: int)
    requires s != [] && InSet(s[0], k) && StrippedAt(s[1..], k, a, b)
    ensures StrippedAt(s, k, a + 1, b + 1)
  {
    assert s[1..][a..b] == s[a + 1..b + 1];
    forall i | 0 <= i < a + 1 ensures InSet(s[i], k) {
      if i > 0 {
        assert s[1..][i - 1] == s[i];
      }
    }
    forall i | b + 1 <= i < |s| ensures InSet(s[i], k) {
      assert s[1..][i - 1] == s[i];
    }
  }

  lemma StrippedBack(s: string, k: CharSet, a: int, b: int)
    requires s != [] && !InSet(s[0], k) && InSet(s[|s| - 1], k) && StrippedAt(s[..|s| - 1], k, a, b)
    ensures StrippedAt(s, k, a, b)
  {
    assert s[..|s| - 1][a..b] == s[a..b];
    forall i | b <= i < |s| ensures InSet(s[i], k) {
      if i < |s| - 1 {
        assert s[..|s| - 1][i] == s[i];
      }
    }
  }

  /** A string that neither starts nor ends with a character of `k` is left as it is. */
  lemma StripUnchanged(s: string, k: CharSet)
    requires s != [] ==> !InSet(s[0], k) && !InSet(s[|s| - 1], k)
    ensures Strip(s, k) == s
  {
  }

  /** Stripping twice is stripping once. */
  lemma StripIdempotent(s: string, k: CharSet)
    ensures Strip(Strip(s, k), k) == Strip(s, k)
  {
    StripUnchanged(Strip(s, k), k);
  }

  /** A string made only of characters of `k` strips to nothing. */
  lemma {:induction false} StripAll(s: string, k: CharSet)
    requires forall i :: 0 <= i < |s| ==> InSet(s[i], k)
    ensures Strip(s, k) == []
    decreases |s|
  {
    if s != [] {
      assert InSet(s[0], k);
      StripAll(s[1..], k);
    }
  }

  // ---------------------------------------------------------------------------
  // Slicing and split()

  /** Python's `s[:n]`. */
  function Prefix(s: string, n: nat): (r: string)
    ensures |r| == Min(n, |s|) && r == s[..|r|]
  {
    if |s| <= n then s else s[..n]
  }

  /** The source's two-step cut `t = s[:keep + 3]; if len(t) > keep: t = t[:keep] + "..."`. */
  function Truncate(s: string, keep: nat): (r: string)
    ensures |r| <= keep + 3
    ensures |s| <= keep ==> r == s
    ensures |s| > keep ==> r == s[..keep] + "..."
  {
    var head := Prefix(s, keep + 3);
    if |head| > keep then head[..keep] + "..." else head
  }

  /** The two-step cut carried out on variables, as the source does it, is `Truncate`. */
  lemma TruncateOf(s: string, keep: nat, head: string, r: string)
    requires head == Prefix(s, keep + 3)
    requires r == if |head| > keep then head[..keep] + "..." else head
    ensures r == Truncate(s, keep)
  {
  }

  /** Python's `s.split(c)[0]`: everything before the first `c`, or all of `s`. */
  function BeforeFirst(s: string, c: char): (r: string)
    ensures |r| <= |s| && r == s[..|r|] && c !in r
    ensures |r| < |s| ==> s[|r|] == c
    ensures c !in s ==> r == s
  {
    if s == [] || s[0] == c then [] else [s[0]] + BeforeFirst(s[1..], c)
  }

  /** The field before the first separator of a joined text. */
  lemma BeforeFirstOfJoin(a: string, c: char, b: string)
    requires c !in a
    ensures BeforeFirst(a + [c] + b, c) == a
  {
    var s := a + [c] + b;
    assert s[|a|] == c;
    assert forall i :: 0 <= i < |a| ==> s[i] == a[i];
  }

  /** Everything after the first `c` of `s`. */
  function AfterFirst(s: string, c: char): (r: string)
    requires c in s
    ensures s == BeforeFirst(s, c) + [c] + r
  {
    s[|BeforeFirst(s, c)| + 1..]
  }

  /** Python's `s.split(c)[1]`, defined when `c in s`: the piece between the first and the second
      `c`, or up to the end. */
  function SecondField(s: string, c: char): (r: string)
    requires c in s
    ensures var rest := AfterFirst(s, c);
      c !in r && |r| <= |rest| && r == rest[..|r|] && (|r| < |rest| ==> rest[|r|] == c)
  {
    BeforeFirst(AfterFirst(s, c), c)
  }

  /** Joins the strings with nothing between them (repeated `+=`). */
  function Concat(ss: seq<string>): string {
    if ss == [] then "" else Concat(ss[..|ss| - 1]) + ss[|ss| - 1]
  }

  /** One more `+=`. */
  lemma ConcatSnoc(ss: seq<string>, s: string)
    ensures Concat(ss + [s]) == Concat(ss) + s
  {
    assert (ss + [s])[..|ss|] == ss;
  }

  /** Joining one more element of a list onto the join of the elements before it. */
  lemma ConcatPrefixStep(ss: seq<string>, i: nat)
    requires i < |ss|
    ensures Concat(ss[..i + 1]) == Concat(ss[..i]) + ss[i]
  {
    assert ss[..i + 1] == ss[..i] + [ss[i]];
    ConcatSnoc(ss[..i], ss[i]);
  }

  /** Appending to a text that already ends with `before`. */
  lemma AppendAfter(text: string, before: string, piece: string, after: string)
    requires after == before + piece
    ensures text + after == text + before + piece
  {
  }

  /** Regrouping a text of five pieces. */
  lemma Regroup(a: string, b: string, c: string, d: string, e: string)
    ensures a + b + c + d + e == a + (b + c + (d + e))
  {
  }

  lemma {:induction false} ConcatAppend(a: seq<string>, b: seq<string>)
    ensures Concat(a + b) == Concat(a) + Concat(b)
    decreases |b|
  {
    if b == [] {
      assert a + b == a;
    } else {
      var front, last := b[..|b| - 1], b[|b| - 1];
      assert a + b == (a + front) + [last];
      ConcatSnoc(a + front, last);
      assert b == front + [last];
      ConcatSnoc(front, last);
      ConcatAppend(a, front);
    }
  }

  // ---------------------------------------------------------------------------
  // str(int), format(n, '02d') and strftime fields

  predicate IsDigit(c: char) { '0' <= c <= '9' }

  function DigitChar(d: nat): (c: char)
    requires d < 10
    ensures IsDigit(c) && c as int - '0' as int == d
  {
    (d + '0' as int) as char
  }

  /** Decimal digits of `n`, most significant first, without leading zeros. */
  function NatToString(n: nat): (s: string)
    ensures 1 <= |s| && forall i :: 0 <= i < |s| ==> IsDigit(s[i])
    ensures n < 10 <==> |s| == 1
    decreases n
  {
    if n < 10 then [DigitChar(n)] else NatToString(n / 10) + [DigitChar(n % 10)]
  }

  /** Python's `str(i)`. */
  function IntToString(i: int): (s: string)
    ensures s != [] && IsDigit(s[|s| - 1])
    ensures s[0] == '-' <==> i < 0
  {
    if i < 0 then "-" + NatToString(-i) else NatToString(i)
  }

  /** `str(i)` holds digits and a leading sign only: any other character is absent. */
  lemma IntToStringChars(i: int, c: char)
    requires c != '-' && !IsDigit(c)
    ensures c !in IntToString(i)
  {
    if i < 0 {
      assert IntToString(i) == "-" + NatToString(-i);
    }
  }

  /** Python's `f"{n:02d}"`: zero-padded to two characters; a sign counts toward the width. */
  function Pad2(n: int): (s: string)
    ensures 0 <= n < 100 ==> |s| == 2 && IsDigit(s[0]) && IsDigit(s[1])
  {
    if 0 <= n < 10 then "0" + NatToString(n) else IntToString(n)
  }

  /** A four-digit number prints as exactly four digits (strftime's `%Y` for years 1000..9999). */
  lemma {:induction false} FourDigits(n: nat)
    requires 1000 <= n <= 9999
    ensures |NatToString(n)| == 4
  {
    var tens, hundreds, thousands := n / 10, n / 100, n / 1000;
    assert 100 <= tens < 1000 && tens / 10 == hundreds;
    assert 10 <= hundreds < 100 && hundreds / 10 == thousands;
    assert |NatToString(thousands)| == 1;
    assert |NatToString(hundreds)| == 2;
    assert |NatToString(tens)| == 3;
  }

  // ---------------------------------------------------------------------------
  // int(str)

  /** The digit part `int()` accepts: ASCII digits, with single underscores between digits. */
  predicate DigitRun(s: string)
    decreases |s|
  {
    && s != [] && IsDigit(s[0])
    && (|s| == 1 || DigitRun(s[1..]) || (s[1] == '_' && DigitRun(s[2..])))
  }

  lemma {:induction false} AllDigitsRun(s: string)
    requires s != [] && forall i :: 0 <= i < |s| ==> IsDigit(s[i])
    ensures DigitRun(s)
    decreases |s|
  {
    if |s| > 1 { AllDigitsRun(s[1..]); }
  }

  /** The value of a run of digits, underscores ignored. */
  function DigitsValue(s: string): nat {
    if s == [] then 0
    else if IsDigit(s[|s| - 1]) then DigitsValue(s[..|s| - 1]) * 10 + (s[|s| - 1] as int - '0' as int)
    else DigitsValue(s[..|s| - 1])
  }

  /** Python's `int(s)` on a string: `None` where it raises ValueError. */
  function ParseInt(s: string): Option<int> {
    ParseSigned(Strip(s, Whitespace))
  }

  /** What `int()` reads once the whitespace is gone: an optional sign, then a digit run. */
  function ParseSigned(t: string): Option<int> {
    var signed := t != [] && (t[0] == '-' || t[0] == '+');
    var body := if signed then t[1..] else t;
    if !DigitRun(body) then None
    else Some(if signed && t[0] == '-' then -(DigitsValue(body) as int) else DigitsValue(body))
  }

  lemma {:induction false} DigitsOfNat(n: nat)
    ensures DigitRun(NatToString(n)) && DigitsValue(NatToString(n)) == n
    decreases n
  {
    AllDigitsRun(NatToString(n));
    if n >= 10 {
      DigitsOfNat(n / 10);
      var s := NatToString(n);
      assert s[..|s| - 1] == NatToString(n / 10);
    }
  }

  lemma ParseIntOfNatToString(n: nat)
    ensures ParseInt(NatToString(n)) == Some(n)
  {
    var s := NatToString(n);
    assert !IsSpace(s[0]) && !IsSpace(s[|s| - 1]);
    StripUnchanged(s, Whitespace);
    DigitsOfNat(n);
    assert !(s[0] == '-' || s[0] == '+');
  }

  /** `int()` of a string that is already stripped. */
  lemma ParseIntStripped(s: string)
    requires s != [] && !IsSpace(s[0]) && !IsSpace(s[|s| - 1])
    ensures s[0] == '-' && DigitRun(s[1..]) ==> ParseInt(s) == Some(-(DigitsValue(s[1..]) as int))
    ensures IsDigit(s[0]) && DigitRun(s) ==> ParseInt(s) == Some(DigitsValue(s) as int)
  {
    StripUnchanged(s, Whitespace);
  }

  /** `int(str(i)) == i`. */
  lemma ParseIntOfIntToString(i: int)
    ensures ParseInt(IntToString(i)) == Some(i)
  {
    if i < 0 {
      ParseIntOfNegative(-i);
    } else {
      ParseIntOfNatToString(i);
    }
  }

  lemma ParseIntOfNegative(n: nat)
    ensures ParseInt("-" + NatToString(n)) == Some(-(n as int))
  {
    var d := NatToString(n);
    DigitsOfNat(n);
    assert IsDigit(d[|d| - 1]);
    ParseIntOfNegativeDigits(d, n);
  }

  lemma ParseIntOfNegativeDigits(d: string, v: nat)
    requires DigitRun(d) && IsDigit(d[|d| - 1]) && DigitsValue(d) == v
    ensures ParseInt("-" + d) == Some(-(v as int))
  {
    var s := "-" + d;
    assert s[0] == '-' && s[1..] == d && s[|s| - 1] == d[|d| - 1];
    StripUnchanged(s, Whitespace);
  }

  /** `int(f"{n:02d}") == n` for every non-negative `n`. */
  lemma ParseIntOfPad2(n: nat)
    ensures ParseInt(Pad2(n)) == Some(n)
  {
    if n < 10 {
      var s := Pad2(n);
      assert s == ['0', DigitChar(n)];
      assert s[..1] == ['0'] && s[1..] == [DigitChar(n)];
      assert DigitRun(s);
      assert DigitsValue(s) == DigitsValue(['0']) * 10 + n;
      ParseIntStripped(s);
    } else {
      ParseIntOfIntToString(n);
    }
  }

  // ---------------------------------------------------------------------------
  // String order and sorted()

  /** Python's `a < b` on strings: code point by code point, a proper prefix first. */
  predicate Below(a: string, b: string)
    decreases |a|
  {
    if a == [] then b != []
    else if b == [] then false
    else a[0] < b[0] || (a[0] == b[0] && Below(a[1..], b[1..]))
  }

  predicate AtMost(a: string, b: string) { a == b || Below(a, b) }

  lemma {:induction false} BelowIrreflexive(a: string)
    ensures !Below(a, a)
    decreases |a|
  {
    if a != [] { BelowIrreflexive(a[1..]); }
  }

  lemma {:induction false} BelowTransitive(a: string, b: string, c: string)
    requires Below(a, b) && Below(b, c)
    ensures Below(a, c)
    decreases |a|
  {
    if a != [] && a[0] == b[0] && b[0] == c[0] {
      BelowTransitive(a[1..], b[1..], c[1..]);
    }
  }

  lemma {:induction false} BelowTotal(a: string, b: string)
    ensures a == b || Below(a, b) || Below(b, a)
    decreases |a|
  {
    if a != [] && b != [] && a[0] == b[0] {
      BelowTotal(a[1..], b[1..]);
      if a[1..] == b[1..] {
        assert a == [a[0]] + a[1..] && b == [b[0]] + b[1..];
      }
    }
  }

  lemma BelowAsymmetric(a: string, b: string)
    requires Below(a, b)
    ensures !Below(b, a) && a != b
  {
    BelowIrreflexive(a);
    if Below(b, a) { BelowTransitive(a, b, a); }
  }

  ghost predicate Ascending(s: seq<string>) {
    forall i, j :: 0 <= i < j < |s| ==> AtMost(s[i], s[j])
  }

  /** An element at most every element of an ascending list can go in front of it. */
  lemma ConsAscending(h: string, s: seq<string>)
    requires Ascending(s) && forall e :: e in multiset(s) ==> AtMost(h, e)
    ensures Ascending([h] + s)
  {
    var r := [h] + s;
    forall i, j | 0 <= i < j < |r| ensures AtMost(r[i], r[j]) {
      if i == 0 {
        assert r[j] == s[j - 1] && s[j - 1] in multiset(s);
      } else {
        assert r[i] == s[i - 1] && r[j] == s[j - 1];
      }
    }
  }

  /** An element at most the head of an ascending list is at most all of it. */
  lemma AtMostHead(x: string, s: seq<string>)
    requires Ascending(s) && s != [] && AtMost(x, s[0])
    ensures forall e :: e in multiset(s) ==> AtMost(x, e)
  {
    forall e | e in multiset(s) ensures AtMost(x, e) {
      AscendingHeadLeast(s, e);
      if x != s[0] && s[0] != e { BelowTransitive(x, s[0], e); }
    }
  }

  /** `x` put into the ascending list `s` before the first element not below it. */
  function Insert(x: string, s: seq<string>): (r: seq<string>)
    requires Ascending(s)
    ensures multiset(r) == multiset(s) + multiset{x}
    ensures Ascending(r)
    decreases |s|
  {
    if s == [] then [x]
    else if AtMost(x, s[0]) then
      AtMostHead(x, s);
      ConsAscending(x, s);
      [x] + s
    else
      var rest := Insert(x, s[1..]);
      assert s == [s[0]] + s[1..];
      BelowTotal(x, s[0]);
      AtMostHead(s[0], s);
      assert multiset(rest) == multiset(s[1..]) + multiset{x};
      assert forall e :: e in multiset(rest) ==> e in multiset(s) || e == x;
      ConsAscending(s[0], rest);
      [s[0]] + rest
  }

  /** Python's `sorted(s)` for a list of strings. */
  function Sort(s: seq<string>): (r: seq<string>)
    ensures multiset(r) == multiset(s)
    ensures Ascending(r)
  {
    if s == [] then []
    else
      assert s == [s[0]] + s[1..];
      Insert(s[0], Sort(s[1..]))
  }

  lemma AscendingHeadLeast(a: seq<string>, e: string)
    requires Ascending(a) && e in a
    ensures AtMost(a[0], e)
  {
    var i :| 0 <= i < |a| && a[i] == e;
    if i > 0 { assert AtMost(a[0], a[i]); }
  }

  /** Only one ascending arrangement of a multiset of strings exists, so `Sort` is Python's
      `sorted` however the sorting is done. */
  lemma {:induction false} AscendingUnique(a: seq<string>, b: seq<string>)
    requires Ascending(a) && Ascending(b) && multiset(a) == multiset(b)
    ensures a == b
    decreases |a|
  {
    assert |a| == |multiset(a)| == |b|;
    if a != [] {
      assert a[0] == b[0] by {
        assert b[0] in multiset(a) && a[0] in multiset(b);
        AscendingHeadLeast(a, b[0]);
        AscendingHeadLeast(b, a[0]);
        if a[0] != b[0] { BelowAsymmetric(a[0], b[0]); }
      }
      assert multiset(a[1..]) == multiset(b[1..]) by {
        assert a == [a[0]] + a[1..] && b == [b[0]] + b[1..];
        assert multiset(a[1..]) == multiset(a) - multiset{a[0]};
        assert multiset(b[1..]) == multiset(b) - multiset{b[0]};
      }
      assert Ascending(a[1..]) && Ascending(b[1..]) by {
        forall i, j | 0 <= i < j < |a| - 1 ensures AtMost(a[1..][i], a[1..][j]) {
          assert AtMost(a[i + 1], a[j + 1]);
        }
        forall i, j | 0 <= i < j < |b| - 1 ensures AtMost(b[1..][i], b[1..][j]) {
          assert AtMost(b[i + 1], b[j + 1]);
        }
      }
      AscendingUnique(a[1..], b[1..]);
      assert a == [a[0]] + a[1..] && b == [b[0]] + b[1..];
    }
  }

  /** No string occurs twice. */
  ghost predicate Distinct(s: seq<string>) {
    forall i, j :: 0 <= i < j < |s| ==> s[i] != s[j]
  }

  lemma {:induction false} DistinctCard(s: seq<string>)
    requires Distinct(s)
    ensures |set x | x in s| == |s|
    decreases |s|
  {
    if s != [] {
      var init := s[..|s| - 1];
      DistinctCard(init);
      assert (set x | x in s) == (set x | x in init) + {s[|s| - 1]};
      assert s[|s| - 1] !in init;
    }
  }
}
