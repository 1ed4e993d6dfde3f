/** The string operations the actions rely on: lower-casing, substring search (`w in s`),
    `sep.join(parts)`, slicing a prefix (`xs[:n]`) and rendering integers. */
module Strings {

  predicate IsUpperAscii(c: char) {
    'A' <= c <= 'Z'
  }

  /** Lower-cases one character; only the ASCII letters A-Z are folded. */
  function LowerChar(c: char): (d: char)
    ensures !IsUpperAscii(d)
    ensures IsUpperAscii(c) ==> d as int == c as int + 32
    ensures !IsUpperAscii(c) ==> d == c
  {
    if IsUpperAscii(c) then (c as int + 32) as char else c
  }

  /** `s.lower()`, restricted to ASCII case folding. */
  function Lower(s: string): (r: string)
    ensures |r| == |s|
    ensures forall i :: 0 <= i < |r| ==> !IsUpperAscii(r[i])
    ensures forall i :: 0 <= i < |r| ==> LowerChar(r[i]) == LowerChar(s[i])
  {
    seq(|s|, i requires 0 <= i < |s| => LowerChar(s[i]))
  }

  /** Lower-casing twice is lower-casing once. */
  lemma LowerIdempotent(s: string)
    ensures Lower(Lower(s)) == Lower(s)
  {
  }

  predicate StartsWith(s: string, w: string) {
    |w| <= |s| && s[..|w|] == w
  }

  /** The specification of Python's `w in s`: `w` occurs at some offset of `s`. */
  ghost predicate Occurs(w: string, s: string) {
    exists i :: 0 <= i <= |s| && StartsWith(s[i..], w)
  }

  /** Dropping a first character that does not start an occurrence keeps exactly the occurrences. */
  lemma OccursTail(s: string, w: string)
    requires |s| > 0 && !StartsWith(s, w)
    ensures Occurs(w, s) <==> Occurs(w, s[1..])
  {
    if Occurs(w, s) {
      var i :| 0 <= i <= |s| && StartsWith(s[i..], w);
      assert i != 0 by { assert s[0..] == s; }
      assert s[1..][i - 1..] == s[i..];
    }
    if Occurs(w, s[1..]) {
      var j :| 0 <= j <= |s[1..]| && StartsWith(s[1..][j..], w);
      assert s[1..][j..] == s[j + 1..];
    }
  }

  /** A word holding a character the text lacks does not occur in it. */
  lemma MissingCharNoOccurrence(w: string, s: string, c: char)
    requires c in w && c !in s
    ensures !Occurs(w, s)
  {
  }

  /** Substring search, `w in s`, by scanning the offsets of `s` left to right. */
  function Contains(s: string, w: string): (b: bool)
    ensures b <==> Occurs(w, s)
    decreases |s|
  {
    if StartsWith(s, w) then
      assert StartsWith(s[0..], w) by { assert s[0..] == s; }
      true
    else if |s| == 0 then
      assert !Occurs(w, s) by { assert s[0..] == s; }
      false
    else
      OccursTail(s, w);
      Contains(s[1..], w)
  }

  /** Python's `sep.join(parts)`. */
  function Join(parts: seq<string>, sep: string): (r: string)
    ensures |parts| == 0 ==> r == ""
    ensures |parts| == 1 ==> r == parts[0]
    ensures |parts| > 0 ==> |parts[0]| <= |r| && r[..|parts[0]|] == parts[0]
    ensures |parts| > 0 ==> |parts[|parts| - 1]| <= |r| && r[|r| - |parts[|parts| - 1]|..] == parts[|parts| - 1]
  {
    if |parts| == 0 then ""
    else if |parts| == 1 then parts[0]
    else parts[0] + sep + Join(parts[1..], sep)
  }

  /** Appending a part to a non-empty join adds one separator and the part: with the zero- and
      one-part cases of `Join` this fixes every join, middle parts included, in order. */
  lemma {:induction false} JoinSnoc(parts: seq<string>, x: string, sep: string)
    requires |parts| > 0
    ensures Join(parts + [x], sep) == Join(parts, sep) + sep + x
    decreases |parts|
  {
    if |parts| == 1 {
      assert (parts + [x])[1..] == [x];
    } else {
      assert (parts + [x])[1..] == parts[1..] + [x];
      JoinSnoc(parts[1..], x, sep);
    }
  }

  /** Number of occurrences of the character `c` in `s`. */
  function Count(s: string, c: char): nat {
    if |s| == 0 then 0 else (if s[0] == c then 1 else 0) + Count(s[1..], c)
  }

  lemma {:induction false} CountAbsent(s: string, c: char)
    requires c !in s
    ensures Count(s, c) == 0
    decreases |s|
  {
    if |s| > 0 {
      CountAbsent(s[1..], c);
    }
  }

  lemma {:induction false} CountConcat(a: string, b: string, c: char)
    ensures Count(a + b, c) == Count(a, c) + Count(b, c)
    decreases |a|
  {
    if |a| == 0 {
      assert a + b == b;
    } else {
      assert (a + b)[1..] == a[1..] + b;
      CountConcat(a[1..], b, c);
    }
  }

  /** Joining `n` parts that never contain `c` yields exactly the `n - 1` separators' copies of `c`:
      with `sep == "\n"` this is the number of lines a joined listing occupies. */
  lemma {:induction false} CountJoin(parts: seq<string>, sep: string, c: char)
    requires |parts| > 0
    requires forall i :: 0 <= i < |parts| ==> Count(parts[i], c) == 0
    ensures Count(Join(parts, sep), c) == (|parts| - 1) * Count(sep, c)
    decreases |parts|
  {
    if |parts| > 1 {
      CountJoin(parts[1..], sep, c);
      CountConcat(parts[0], sep, c);
      CountConcat(parts[0] + sep, Join(parts[1..], sep), c);
    }
  }

  /** A titled listing, `title + "\n" + "\n".join(lines)`, has one newline per listed line when
      neither the title nor any line contains one. */
  lemma CountListing(title: string, lines: seq<string>)
    requires |lines| > 0
    requires '\n' !in title
    requires forall i :: 0 <= i < |lines| ==> '\n' !in lines[i]
    ensures Count(title + "\n" + Join(lines, "\n"), '\n') == |lines|
  {
    forall i | 0 <= i < |lines|
      ensures Count(lines[i], '\n') == 0
    {
      CountAbsent(lines[i], '\n');
    }
    var body := Join(lines, "\n");
    assert Count("\n", '\n') == 1 by { assert "\n"[1..] == ""; }
    CountJoin(lines, "\n", '\n');
    assert Count(body, '\n') == |lines| - 1;
    CountAbsent(title, '\n');
    CountConcat(title, "\n", '\n');
    CountConcat(title + "\n", body, '\n');
  }

  /** Python's slice `xs[:n]`. */
  function Take<T>(xs: seq<T>, n: nat): (r: seq<T>)
    ensures |r| == if |xs| <= n then |xs| else n
    ensures forall i :: 0 <= i < |r| ==> r[i] == xs[i]
  {
    if |xs| <= n then xs else xs[..n]
  }

  predicate IsDigit(c: char) {
    '0' <= c <= '9'
  }

  function DigitChar(d: nat): (c: char)
    requires d < 10
    ensures IsDigit(c)
  {
    ('0' as int + d) as char
  }

  /** The number a string of decimal digits spells, most significant digit first. */
  ghost function DigitsValue(s: string): int
    decreases |s|
  {
    if |s| == 0 then 0 else 10 * DigitsValue(s[..|s| - 1]) + (s[|s| - 1] as int - '0' as int)
  }

  /** A canonical decimal numeral: non-empty, digits only, and no leading zero unless it is "0". */
  ghost predicate Numeral(s: string) {
    |s| > 0 && (forall i :: 0 <= i < |s| ==> IsDigit(s[i])) && (s[0] == '0' ==> |s| == 1)
  }

  /** `s` is how Python's `str(i)` writes the integer `i`. */
  ghost predicate DecimalOf(s: string, i: int) {
    if i < 0 then |s| > 1 && s[0] == '-' && Numeral(s[1..]) && DigitsValue(s[1..]) == -i
    else Numeral(s) && DigitsValue(s) == i
  }

  /** Decimal rendering of a natural number, as `str(n)`. */
  function NatToString(n: nat): (r: string)
    ensures |r| > 0
    ensures forall i :: 0 <= i < |r| ==> IsDigit(r[i])
    decreases n
  {
    if n < 10 then [DigitChar(n)] else NatToString(n / 10) + [DigitChar(n % 10)]
  }

  /** The rendering spells `n`, with no leading zero. */
  lemma {:induction false} NatToStringValue(n: nat)
    ensures Numeral(NatToString(n)) && DigitsValue(NatToString(n)) == n
    decreases n
  {
    var r := NatToString(n);
    if n >= 10 {
      var t := NatToString(n / 10);
      NatToStringValue(n / 10);
      assert r[..|r| - 1] == t;
      assert r[0] == t[0];
    }
  }

  /** Decimal rendering of an integer, as `str(i)`. */
  function IntToString(i: int): (r: string)
    ensures DecimalOf(r, i)
    ensures '\n' !in r
  {
    if i < 0 then
      NatToStringValue(-i);
      assert ("-" + NatToString(-i))[1..] == NatToString(-i);
      "-" + NatToString(-i)
    else
      NatToStringValue(i);
      NatToString(i)
  }
}
