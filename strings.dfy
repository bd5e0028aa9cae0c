/** The parts of Python's `str` that the service relies on, over `seq<char>`:
    `strip`/`lstrip`, `upper`/`lower` (ASCII letters only), `startswith`,
    `endswith`, the `in` operator on strings, `str.join` and `str(int)`. */
module Strings {

  /** `c.isspace()`: the characters that Python's argument-less `strip()` removes. */
  predicate IsSpace(c: char) {
    || c == ' ' || c == '\t' || c == '\n' || c == '\r'
    || c == '\U{0B}' || c == '\U{0C}'
    || ('\U{1C}' <= c <= '\U{1F}')
    || c == '\U{85}' || c == '\U{A0}' || c == '\U{1680}'
    || ('\U{2000}' <= c <= '\U{200A}')
    || c == '\U{2028}' || c == '\U{2029}' || c == '\U{202F}'
    || c == '\U{205F}' || c == '\U{3000}'
  }

  predicate AllSpace(s: string) {
    forall i :: 0 <= i < |s| ==> IsSpace(s[i])
  }

  /** Neither end of `s` is whitespace: `s == s.strip()`. */
  predicate IsStripped(s: string) {
    s == [] || (!IsSpace(s[0]) && !IsSpace(s[|s| - 1]))
  }

  /** `s.lstrip()`: the longest suffix of `s` that does not start with whitespace. */
  function LStrip(s: string): (r: string)
    ensures |r| <= |s| && r == s[|s| - |r|..]
    ensures AllSpace(s[..|s| - |r|])
    ensures r != [] ==> !IsSpace(r[0])
  {
    if s != [] && IsSpace(s[0]) then LStrip(s[1..]) else s
  }

  /** `s.rstrip()`: the longest prefix of `s` that does not end with whitespace. */
  function RStrip(s: string): (r: string)
    ensures |r| <= |s| && r == s[..|r|]
    ensures AllSpace(s[|r|..])
    ensures r != [] ==> !IsSpace(r[|r| - 1])
  {
    if s != [] && IsSpace(s[|s| - 1]) then RStrip(s[..|s| - 1]) else s
  }

  /** `s.strip()`. */
  function Strip(s: string): (r: string)
    ensures IsStripped(r)
    ensures |r| <= |s|
  {
    RStrip(LStrip(s))
  }

  lemma {:induction false} LStripPadded(w: string, m: string)
    requires AllSpace(w)
    requires m == [] || !IsSpace(m[0])
    ensures LStrip(w + m) == m
    decreases |w|
  {
    if w != [] {
      assert (w + m)[1..] == w[1..] + m;
      LStripPadded(w[1..], m);
    }
  }

  lemma {:induction false} RStripPadded(m: string, w: string)
    requires AllSpace(w)
    requires m == [] || !IsSpace(m[|m| - 1])
    ensures RStrip(m + w) == m
    decreases |w|
  {
    if w != [] {
      assert (m + w)[..|m + w| - 1] == m + w[..|w| - 1];
      RStripPadded(m, w[..|w| - 1]);
    }
  }

  /** Whitespace around an already stripped text is exactly what `strip()` removes. */
  lemma StripPadded(w1: string, m: string, w2: string)
    requires AllSpace(w1) && AllSpace(w2) && IsStripped(m)
    ensures Strip(w1 + m + w2) == m
  {
    assert w1 + m + w2 == w1 + (m + w2);
    if m == [] {
      assert w1 + m + w2 == (w1 + w2) + [];
      LStripPadded(w1 + w2, []);
    } else {
      LStripPadded(w1, m + w2);
      RStripPadded(m, w2);
    }
  }

  /** `s.strip().strip() == s.strip()`. */
  lemma LStripNoLeadingSpace(s: string)
    requires s != [] && !IsSpace(s[0])
    ensures LStrip(s) == s
  {
    LStripPadded([], s);
    assert [] + s == s;
  }

  lemma StripIdempotent(s: string)
    ensures Strip(Strip(s)) == Strip(s)
  {
    var m := Strip(s);
    assert [] + m + [] == m;
    StripPadded([], m, []);
  }

  /** Lower-casing forgets any earlier upper-casing. */
  lemma LowerOfUpper(s: string)
    ensures Lower(Upper(s)) == Lower(s)
  {
    assert forall i :: 0 <= i < |s| ==> LowerChar(UpperChar(s[i])) == LowerChar(s[i]);
  }

  /** `c.upper()` for ASCII letters; every other character is left as it is. */
  function UpperChar(c: char): char {
    if 'a' <= c <= 'z' then (c as int - 32) as char else c
  }

  /** `c.lower()` for ASCII letters; every other character is left as it is. */
  function LowerChar(c: char): char {
    if 'A' <= c <= 'Z' then (c as int + 32) as char else c
  }

  function Upper(s: string): (r: string)
    ensures |r| == |s|
  {
    seq(|s|, i requires 0 <= i < |s| => UpperChar(s[i]))
  }

  function Lower(s: string): (r: string)
    ensures |r| == |s|
  {
    seq(|s|, i requires 0 <= i < |s| => LowerChar(s[i]))
  }

  lemma UpperIdempotent(s: string)
    ensures Upper(Upper(s)) == Upper(s)
  {
  }

  /** Upper-casing never turns a space into a letter nor a letter into a space,
      so it commutes with `lstrip()`. */
  lemma {:induction false} UpperLStrip(s: string)
    ensures Upper(LStrip(s)) == LStrip(Upper(s))
    decreases |s|
  {
    if s != [] {
      assert UpperChar(s[0]) == Upper(s)[0];
      assert IsSpace(s[0]) <==> IsSpace(Upper(s)[0]);
      if IsSpace(s[0]) {
        assert Upper(s)[1..] == Upper(s[1..]);
        UpperLStrip(s[1..]);
      }
    }
  }

  /** `s.startswith(p)`. */
  predicate StartsWith(s: string, p: string) {
    |p| <= |s| && s[..|p|] == p
  }

  /** `s.endswith(p)`. */
  predicate EndsWith(s: string, p: string) {
    |p| <= |s| && s[|s| - |p|..] == p
  }

  /** `p` occurs in `s` starting at index `i`. */
  predicate OccursAt(s: string, p: string, i: int) {
    0 <= i && i + |p| <= |s| && s[i..i + |p|] == p
  }

  /** `p in s`. */
  predicate Contains(s: string, p: string) {
    exists i | 0 <= i <= |s| - |p| :: OccursAt(s, p, i)
  }

  /** `p` occurs at `j` in `s` exactly when it occurs at `|pre| + j` in `pre + s`. */
  lemma OccursShifted(pre: string, s: string, p: string, j: int)
    requires 0 <= j
    ensures OccursAt(pre + s, p, |pre| + j) <==> OccursAt(s, p, j)
  {
    if j + |p| <= |s| {
      assert (pre + s)[|pre| + j..|pre| + j + |p|] == s[j..j + |p|];
    }
  }

  predicate SpaceFree(w: string) {
    forall i :: 0 <= i < |w| ==> w[i] != ' '
  }

  /** `sep.join(parts)`. */
  function Join(sep: string, parts: seq<string>): string {
    if parts == [] then ""
    else if |parts| == 1 then parts[0]
    else parts[0] + sep + Join(sep, parts[1..])
  }

  /** `s.split(' ')`: the pieces between single spaces, empty ones included. */
  function SplitOnSpace(s: string): (words: seq<string>)
    ensures words != []
    ensures forall j :: 0 <= j < |words| ==> SpaceFree(words[j])
    ensures Join(" ", words) == s
  {
    if s == [] then [""]
    else
      var rest := SplitOnSpace(s[1..]);
      if s[0] == ' ' then
        assert Join(" ", [""] + rest) == "" + " " + Join(" ", rest);
        [""] + rest
      else
        var first := [s[0]] + rest[0];
        assert Join(" ", [first] + rest[1..]) == [s[0]] + Join(" ", rest);
        [first] + rest[1..]
  }

  function DigitChar(d: nat): (c: char)
    requires d < 10
    ensures '0' <= c <= '9'
  {
    ('0' as int + d) as char
  }

  /** `str(n)` for a non-negative integer: its decimal digits. */
  function NatToString(n: nat): (r: string)
    ensures r != []
    ensures forall i :: 0 <= i < |r| ==> '0' <= r[i] <= '9'
  {
    if n < 10 then [DigitChar(n)] else NatToString(n / 10) + [DigitChar(n % 10)]
  }

  /** `int(s)` for a string of decimal digits. */
  function ParseDecimal(s: string): nat
    requires forall i :: 0 <= i < |s| ==> '0' <= s[i] <= '9'
  {
    if s == [] then 0 else ParseDecimal(s[..|s| - 1]) * 10 + (s[|s| - 1] as int - '0' as int)
  }

  /** The digits `str()` writes read back as the number. */
  lemma {:induction false} NatToStringRoundTrip(n: nat)
    ensures ParseDecimal(NatToString(n)) == n
  {
    if n >= 10 {
      var r := NatToString(n);
      assert r[..|r| - 1] == NatToString(n / 10);
      NatToStringRoundTrip(n / 10);
    }
  }

  /** `str(i)` for any integer. */
  function IntToString(i: int): string {
    if i < 0 then "-" + NatToString(-i) else NatToString(i)
  }
}
