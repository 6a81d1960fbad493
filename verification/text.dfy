/** Character classes and the string operations the site's string code is built
    from: ASCII lower-casing, `replace` with a global regular expression over one
    character class, `trim`, `join`, JavaScript's UTF-16 `length`, and decimal
    rendering of a number. */
module Text {

  /** The characters JavaScript's `\s` matches; `String.prototype.trim` strips the same set. */
  predicate IsSpace(c: char) {
    c == ' ' || c == '\t' || c == '\n' || c == '\U{B}' || c == '\U{C}' || c == '\r'
    || c == '\U{A0}' || c == '\U{1680}' || ('\U{2000}' <= c <= '\U{200A}')
    || c == '\U{2028}' || c == '\U{2029}' || c == '\U{202F}' || c == '\U{205F}'
    || c == '\U{3000}' || c == '\U{FEFF}'
  }

  predicate IsNotSpace(c: char) { !IsSpace(c) }

  /** The class `[a-z0-9]`. */
  predicate IsLowerAlnum(c: char) { ('a' <= c <= 'z') || ('0' <= c <= '9') }

  predicate IsNotLowerAlnum(c: char) { !IsLowerAlnum(c) }

  /** The class `[a-zA-Z0-9]`. */
  predicate IsAsciiAlnum(c: char) { IsLowerAlnum(c) || ('A' <= c <= 'Z') }

  predicate IsHyphen(c: char) { c == '-' }

  predicate IsUpper(c: char) { 'A' <= c <= 'Z' }

  /** `toLowerCase` on one character, restricted to ASCII. */
  function LowerChar(c: char): (d: char)
    ensures !IsUpper(d)
    ensures d == c <==> !IsUpper(c)
    ensures IsLowerAlnum(d) <==> IsLowerAlnum(c) || IsUpper(c)
  {
    if IsUpper(c) then (c as int + 32) as char else c
  }

  /** `toLowerCase`, restricted to ASCII. */
  function Lower(s: string): string {
    seq(|s|, i requires 0 <= i < |s| => LowerChar(s[i]))
  }

  lemma LowerFixed(s: string)
    requires forall i :: 0 <= i < |s| ==> !IsUpper(s[i])
    ensures Lower(s) == s
  {
  }

  /** The characters of s that satisfy keep, in their original order. */
  function Filter(s: string, keep: char -> bool): (r: string)
    ensures |r| <= |s|
    ensures forall c :: c in r ==> c in s && keep(c)
    ensures forall c :: c in s && keep(c) ==> c in r
  {
    if s == [] then [] else (if keep(s[0]) then [s[0]] else []) + Filter(s[1..], keep)
  }

  lemma {:induction false} FilterFixed(s: string, keep: char -> bool)
    requires forall i :: 0 <= i < |s| ==> keep(s[i])
    ensures Filter(s, keep) == s
  {
    if s != [] {
      FilterFixed(s[1..], keep);
    }
  }

  /** Deleting the whitespace first and then everything outside `[a-zA-Z0-9]`
      keeps exactly the ASCII letters and digits, in order. */
  lemma {:induction false} StripSpaceThenKeepAlnum(s: string)
    ensures Filter(Filter(s, IsNotSpace), IsAsciiAlnum) == Filter(s, IsAsciiAlnum)
  {
    if s != [] {
      StripSpaceThenKeepAlnum(s[1..]);
      if IsNotSpace(s[0]) {
        assert Filter(s, IsNotSpace) == [s[0]] + Filter(s[1..], IsNotSpace);
        assert Filter(Filter(s, IsNotSpace), IsAsciiAlnum)
            == (if IsAsciiAlnum(s[0]) then [s[0]] else []) + Filter(Filter(s[1..], IsNotSpace), IsAsciiAlnum);
      } else {
        assert Filter(s, IsNotSpace) == Filter(s[1..], IsNotSpace);
      }
    }
  }

  /** No two neighbouring characters of s both satisfy p. */
  predicate NoAdjacent(s: string, p: char -> bool) {
    forall i :: 0 <= i < |s| - 1 ==> !(p(s[i]) && p(s[i + 1]))
  }

  /** `s.replace(/P+/g, r)` for the character class p: every maximal run of
      p-characters becomes the single character r; `inRun` says that the
      character just before s already belonged to a run. */
  function ReplaceRunsFrom(s: string, p: char -> bool, r: char, inRun: bool): (t: string)
    ensures forall c :: c in t ==> c == r || (c in s && !p(c))
    ensures inRun ==> t == [] || !p(t[0])
    ensures p(r) ==> NoAdjacent(t, p)
  {
    if s == [] then []
    else if p(s[0]) then
      if inRun then ReplaceRunsFrom(s[1..], p, r, true)
      else [r] + ReplaceRunsFrom(s[1..], p, r, true)
    else [s[0]] + ReplaceRunsFrom(s[1..], p, r, false)
  }

  function ReplaceRuns(s: string, p: char -> bool, r: char): string {
    ReplaceRunsFrom(s, p, r, false)
  }

  /** A text whose p-characters are isolated and all equal to r is left as it is. */
  lemma {:induction false} ReplaceRunsFixed(s: string, p: char -> bool, r: char, inRun: bool)
    requires NoAdjacent(s, p)
    requires forall i :: 0 <= i < |s| && p(s[i]) ==> s[i] == r
    requires inRun ==> s == [] || !p(s[0])
    ensures ReplaceRunsFrom(s, p, r, inRun) == s
  {
    if s != [] {
      ReplaceRunsFixed(s[1..], p, r, p(s[0]));
    }
  }

  predicate IsBlank(s: string) {
    forall i :: 0 <= i < |s| ==> IsSpace(s[i])
  }

  function TrimStart(s: string): (t: string)
    ensures |t| <= |s| && t == s[|s| - |t|..]
    ensures t == [] <==> IsBlank(s)
    ensures t != [] ==> !IsSpace(t[0])
  {
    if s != [] && IsSpace(s[0]) then TrimStart(s[1..]) else s
  }

  function TrimEnd(s: string): (t: string)
    ensures |t| <= |s| && t == s[..|t|]
    ensures t == [] <==> IsBlank(s)
    ensures t != [] ==> !IsSpace(t[|t| - 1])
  {
    if s != [] && IsSpace(s[|s| - 1]) then TrimEnd(s[..|s| - 1]) else s
  }

  /** `String.prototype.trim`: the result is empty exactly when s is all whitespace,
      and a text without whitespace is returned unchanged. */
  function Trim(s: string): (t: string)
    ensures t == [] <==> IsBlank(s)
    ensures (forall i :: 0 <= i < |s| ==> !IsSpace(s[i])) ==> t == s
    ensures t != [] ==> !IsSpace(t[0]) && !IsSpace(t[|t| - 1])
  {
    TrimEnd(TrimStart(s))
  }

  /** `Array.prototype.join(sep)` on a list of strings. */
  function Join(parts: seq<string>, sep: string): string {
    if |parts| == 0 then ""
    else if |parts| == 1 then parts[0]
    else parts[0] + sep + Join(parts[1..], sep)
  }

  /** Where part i starts inside `Join(parts, sep)`. */
  function Offset(parts: seq<string>, sep: string, i: nat): nat
    requires i <= |parts|
  {
    if i == 0 then 0 else |parts[0]| + |sep| + Offset(parts[1..], sep, i - 1)
  }

  /** Part i of a joined list sits at its offset, and the separator follows it
      unless it is the last part. */
  lemma {:induction false} JoinAt(parts: seq<string>, sep: string, i: nat)
    requires i < |parts|
    ensures Offset(parts, sep, i) + |parts[i]| <= |Join(parts, sep)|
    ensures Join(parts, sep)[Offset(parts, sep, i)..Offset(parts, sep, i) + |parts[i]|] == parts[i]
    ensures i + 1 < |parts| ==>
      Offset(parts, sep, i) + |parts[i]| + |sep| <= |Join(parts, sep)| &&
      Join(parts, sep)[Offset(parts, sep, i) + |parts[i]|..Offset(parts, sep, i) + |parts[i]| + |sep|] == sep
    ensures i + 1 == |parts| ==> Offset(parts, sep, i) + |parts[i]| == |Join(parts, sep)|
  {
    if |parts| > 1 {
      var rest := Join(parts[1..], sep);
      assert Join(parts, sep) == parts[0] + sep + rest;
      if i > 0 {
        JoinAt(parts[1..], sep, i - 1);
        var k := |parts[0]| + |sep|;
        assert Offset(parts, sep, i) == k + Offset(parts[1..], sep, i - 1);
        assert parts[1..][i - 1] == parts[i];
      }
    }
  }

  /** JavaScript's `length`: the number of UTF-16 code units. */
  function Utf16Length(s: string): (n: nat)
    ensures |s| <= n <= 2 * |s|
    ensures (forall i :: 0 <= i < |s| ==> s[i] as int <= 0xFFFF) ==> n == |s|
  {
    if s == [] then 0 else (if s[0] as int > 0xFFFF then 2 else 1) + Utf16Length(s[1..])
  }

  function DigitChar(d: nat): (c: char)
    requires d < 10
  {
    ('0' as int + d) as char
  }

  /** The decimal rendering of n, as a template literal `${n}` prints it. */
  function Decimal(n: nat): (s: string)
    ensures s != []
    ensures forall i :: 0 <= i < |s| ==> '0' <= s[i] <= '9'
  {
    if n < 10 then [DigitChar(n)] else Decimal(n / 10) + [DigitChar(n % 10)]
  }

  /** The value of a string of decimal digits. */
  function DecimalValue(s: string): nat
    requires forall i :: 0 <= i < |s| ==> '0' <= s[i] <= '9'
  {
    if s == [] then 0 else 10 * DecimalValue(s[..|s| - 1]) + (s[|s| - 1] as int - '0' as int)
  }

  /** Reading back a rendered number gives the number. */
  lemma {:induction false} DecimalRoundTrip(n: nat)
    ensures DecimalValue(Decimal(n)) == n
  {
    if n >= 10 {
      DecimalRoundTrip(n / 10);
      var s := Decimal(n);
      assert s[..|s| - 1] == Decimal(n / 10);
    }
  }
}
