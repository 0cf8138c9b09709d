/**
 * The JavaScript string operations the application relies on: trim(), the
 * regular-expression classes \s and \d, toLowerCase(), includes(), replace()
 * with a string pattern, split(' ') and number-to-decimal conversion.
 */
module Text {
  import opened Wrappers
  import Seqs

  /** The characters ECMAScript counts as white space or line terminators:
      what `trim()` strips and what `\s` matches. */
  predicate IsSpace(c: char) {
    c == ' ' || c == '\t' || c == '\n' || c == '\U{B}' || c == '\U{C}' || c == '\r'
    || c == '\U{A0}' || c == '\U{1680}' || ('\U{2000}' <= c <= '\U{200A}')
    || c == '\U{2028}' || c == '\U{2029}' || c == '\U{202F}' || c == '\U{205F}'
    || c == '\U{3000}' || c == '\U{FEFF}'
  }

  /** The regular-expression class `\d`. */
  predicate IsDigit(c: char) {
    '0' <= c <= '9'
  }

  predicate IsUpper(c: char) {
    'A' <= c <= 'Z'
  }

  function LowerChar(c: char): (d: char)
    ensures !IsUpper(d)
    ensures !IsUpper(c) ==> d == c
  {
    if IsUpper(c) then (c as int + 32) as char else c
  }

  /** `s.toLowerCase()` on the ASCII letters. */
  function Lower(s: string): (r: string)
    ensures |r| == |s|
    ensures forall i :: 0 <= i < |s| ==> r[i] == LowerChar(s[i])
  {
    seq(|s|, i requires 0 <= i < |s| => LowerChar(s[i]))
  }

  /** Lower-casing commutes with slicing. */
  lemma LowerSlice(s: string, i: nat, j: nat)
    requires i <= j <= |s|
    ensures Lower(s)[i..j] == Lower(s[i..j])
  {
  }

  lemma LowerIdempotent(s: string)
    ensures Lower(Lower(s)) == Lower(s)
  {
  }

  /** The first position at or after k that does not hold white space. */
  function SkipSpaces(s: string, k: nat): (n: nat)
    requires k <= |s|
    ensures k <= n <= |s|
    ensures forall i :: k <= i < n ==> IsSpace(s[i])
    ensures n < |s| ==> !IsSpace(s[n])
    decreases |s| - k
  {
    if k < |s| && IsSpace(s[k]) then SkipSpaces(s, k + 1) else k
  }

  /** The end of s[lo..hi] once its trailing white space is dropped. */
  function SkipSpacesBack(s: string, lo: nat, hi: nat): (n: nat)
    requires lo <= hi <= |s|
    ensures lo <= n <= hi
    ensures forall i :: n <= i < hi ==> IsSpace(s[i])
    ensures n > lo ==> !IsSpace(s[n - 1])
    decreases hi
  {
    if hi > lo && IsSpace(s[hi - 1]) then SkipSpacesBack(s, lo, hi - 1) else hi
  }

  /** r is s with the white space before position lo and after lo + |r| removed. */
  ghost predicate TrimmedAt(s: string, r: string, lo: int) {
    0 <= lo <= |s| - |r| && r == s[lo..lo + |r|]
    && (forall i :: 0 <= i < lo ==> IsSpace(s[i]))
    && (forall i :: lo + |r| <= i < |s| ==> IsSpace(s[i]))
  }

  /** `s.trim()`: s without its leading and trailing white space. */
  function Trim(s: string): (r: string)
    ensures r == [] || (!IsSpace(r[0]) && !IsSpace(r[|r| - 1]))
    ensures exists lo :: TrimmedAt(s, r, lo)
  {
    var lo := SkipSpaces(s, 0);
    var hi := SkipSpacesBack(s, lo, |s|);
    assert TrimmedAt(s, s[lo..hi], lo);
    s[lo..hi]
  }

  /** A string with no white space at either end is its own trim. */
  lemma {:induction false} TrimNoOp(s: string)
    requires s == [] || (!IsSpace(s[0]) && !IsSpace(s[|s| - 1]))
    ensures Trim(s) == s
  {
  }

  /** `s.replace(/\s/g, '')` */
  function RemoveSpaces(s: string): (r: string)
    ensures forall c :: c in r ==> !IsSpace(c)
    ensures forall c :: c in s && !IsSpace(c) ==> c in r
  {
    Seqs.Filter(s, NotSpace)
  }

  predicate NotSpace(c: char) {
    !IsSpace(c)
  }

  /** Removing white space distributes over concatenation. */
  lemma RemoveSpacesAppend(a: string, b: string)
    ensures RemoveSpaces(a + b) == RemoveSpaces(a) + RemoveSpaces(b)
  {
    Seqs.FilterAppend(a, b, NotSpace);
  }

  /** Text without white space is left as it is. */
  lemma RemoveSpacesKeeps(s: string)
    requires forall i :: 0 <= i < |s| ==> !IsSpace(s[i])
    ensures RemoveSpaces(s) == s
  {
    Seqs.FilterAll(s, NotSpace);
  }

  /** A space-free prefix survives white-space removal as it is. */
  lemma RemoveSpacesPrefix(x: string, s: string)
    requires forall i :: 0 <= i < |x| ==> !IsSpace(x[i])
    ensures RemoveSpaces(x + s) == x + RemoveSpaces(s)
  {
    RemoveSpacesKeeps(x);
    RemoveSpacesAppend(x, s);
  }

  /** A leading space is dropped. */
  lemma RemoveSpacesSpace(s: string)
    ensures RemoveSpaces(" " + s) == RemoveSpaces(s)
  {
    RemoveSpacesDrops(" ");
    RemoveSpacesAppend(" ", s);
  }

  /** Text made only of white space disappears. */
  lemma {:induction false} RemoveSpacesDrops(s: string)
    requires forall i :: 0 <= i < |s| ==> IsSpace(s[i])
    ensures RemoveSpaces(s) == ""
    decreases |s|
  {
    if s != [] {
      RemoveSpacesDrops(s[1..]);
    }
  }

  /** `s.startsWith(t)` */
  predicate StartsWith(s: string, t: string) {
    |t| <= |s| && s[..|t|] == t
  }

  /** t occurs in s starting at position i. */
  predicate OccursAt(s: string, t: string, i: int) {
    0 <= i && i + |t| <= |s| && s[i..i + |t|] == t
  }

  /** `s.includes(t)`: t occurs in s as a contiguous piece. */
  predicate Contains(s: string, t: string) {
    exists i | 0 <= i <= |s| - |t| :: OccursAt(s, t, i)
  }

  /** A one-character string occurs exactly where that character does. */
  lemma ContainsChar(s: string, c: char)
    ensures Contains(s, [c]) <==> c in s
  {
    if c in s {
      var i :| 0 <= i < |s| && s[i] == c;
      assert s[i..i + 1] == [c];
      assert OccursAt(s, [c], i);
    }
    if Contains(s, [c]) {
      var i :| 0 <= i <= |s| - 1 && OccursAt(s, [c], i);
      assert s[i] == s[i..i + 1][0];
    }
  }

  /** A string with a character s lacks does not occur in s. */
  lemma MissingCharNotContained(s: string, t: string, c: char)
    requires c in t && c !in s
    ensures !Contains(s, t)
  {
    forall i | 0 <= i <= |s| - |t| ensures !OccursAt(s, t, i) {
      var j :| 0 <= j < |t| && t[j] == c;
      assert s[i + j] == s[i..i + |t|][j];
    }
  }

  function IndexFrom(s: string, t: string, k: nat): (r: Option<nat>)
    requires k <= |s|
    ensures r.Some? ==> k <= r.value && OccursAt(s, t, r.value)
    ensures r.Some? ==> forall j :: k <= j < r.value ==> !OccursAt(s, t, j)
    ensures r.None? ==> forall j :: k <= j ==> !OccursAt(s, t, j)
    decreases |s| - k
  {
    if k + |t| > |s| then None
    else if s[k..k + |t|] == t then Some(k)
    else IndexFrom(s, t, k + 1)
  }

  /** `s.indexOf(t)`: the first position at which t occurs in s. */
  function IndexOf(s: string, t: string): (r: Option<nat>)
    ensures r.None? <==> !Contains(s, t)
    ensures r.Some? ==> OccursAt(s, t, r.value)
    ensures r.Some? ==> forall j :: 0 <= j < r.value ==> !OccursAt(s, t, j)
  {
    IndexFrom(s, t, 0)
  }

  /** `s.replace(pat, rep)` with a string pattern: only the first occurrence is replaced. */
  function ReplaceFirst(s: string, pat: string, rep: string): (r: string)
    ensures !Contains(s, pat) ==> r == s
    ensures Contains(s, pat) ==> exists i ::
      && OccursAt(s, pat, i) && (forall j :: 0 <= j < i ==> !OccursAt(s, pat, j))
      && r == s[..i] + rep + s[i + |pat|..]
  {
    match IndexOf(s, pat)
    case None => s
    case Some(i) => s[..i] + rep + s[i + |pat|..]
  }

  /** The first position of the character c in s. */
  function IndexOfChar(s: string, c: char): (r: Option<nat>)
    ensures r.None? <==> c !in s
    ensures r.Some? ==> r.value < |s| && s[r.value] == c && c !in s[..r.value]
    decreases |s|
  {
    if s == [] then None
    else if s[0] == c then Some(0)
    else match IndexOfChar(s[1..], c)
      case None => None
      case Some(i) =>
        assert s[..i + 1] == [s[0]] + s[1..][..i];
        Some(i + 1)
  }

  /** `s.split(' ')[1]`: the text between the first and the second space,
      or undefined (None) when s has no space. */
  function SecondField(s: string): (r: Option<string>)
    ensures r.None? <==> ' ' !in s
    ensures r.Some? ==> ' ' !in r.value
  {
    match IndexOfChar(s, ' ')
    case None => None
    case Some(i) =>
      var rest := s[i + 1..];
      match IndexOfChar(rest, ' ')
      case None => Some(rest)
      case Some(j) => Some(rest[..j])
  }

  /** A word without spaces placed after a space-free prefix and one space is
      what split(' ')[1] gives back, whatever follows it after another space. */
  lemma {:induction false} SecondFieldOf(a: string, t: string, tail: string)
    requires ' ' !in a && ' ' !in t
    requires tail == [] || tail[0] == ' '
    ensures SecondField(a + " " + t + tail) == Some(t)
  {
    var s := a + " " + t + tail;
    assert s[..|a|] == a;
    assert s[|a|] == ' ';
    assert IndexOfChar(s, ' ') == Some(|a|);
    var rest := s[|a| + 1..];
    assert rest == t + tail;
    assert rest[..|t|] == t;
    if tail == [] {
      assert rest == t;
    } else {
      assert rest[|t|] == ' ';
      assert IndexOfChar(rest, ' ') == Some(|t|);
    }
  }

  function DigitChar(d: nat): (c: char)
    requires d < 10
    ensures IsDigit(c)
  {
    ('0' as int + d) as char
  }

  /** `String(n)` for a non-negative integer: its decimal digits. */
  function NatToString(n: nat): (r: string)
    ensures |r| >= 1
    ensures forall i :: 0 <= i < |r| ==> IsDigit(r[i])
    ensures n >= 10 ==> r[0] != '0'
    decreases n
  {
    if n < 10 then [DigitChar(n)] else NatToString(n / 10) + [DigitChar(n % 10)]
  }

  /** The number a string of decimal digits denotes. */
  function DigitsValue(s: string): nat
    requires forall i :: 0 <= i < |s| ==> IsDigit(s[i])
    decreases |s|
  {
    if s == [] then 0
    else
      var d := s[|s| - 1];
      assert IsDigit(d);
      DigitsValue(s[..|s| - 1]) * 10 + (d as int - '0' as int)
  }

  /** Reading back the decimal form of n gives n. */
  lemma {:induction false} NatToStringRoundTrip(n: nat)
    ensures DigitsValue(NatToString(n)) == n
    decreases n
  {
    if n >= 10 {
      var r := NatToString(n);
      assert r[..|r| - 1] == NatToString(n / 10);
      NatToStringRoundTrip(n / 10);
    }
  }

  /** A JavaScript number as the model needs it: an integer value or NaN. */
  datatype Numeric = Value(v: int) | NotANumber

  predicate AllDigits(t: string) {
    forall i :: 0 <= i < |t| ==> IsDigit(t[i])
  }

  /** A decimal integer literal with an optional sign. */
  predicate IsNumeral(t: string) {
    if t != [] && (t[0] == '+' || t[0] == '-') then t[1..] != [] && AllDigits(t[1..])
    else t != [] && AllDigits(t)
  }

  function NumeralValue(t: string): int
    requires IsNumeral(t)
  {
    if t[0] == '-' then -(DigitsValue(t[1..]) as int)
    else if t[0] == '+' then DigitsValue(t[1..])
    else DigitsValue(t)
  }

  /** `Number(s)` on a string: white space around the text is ignored, text
      that is empty once trimmed is 0, a signed or unsigned run of decimal
      digits is its value, and any other text is NaN. */
  function ToNumber(s: string): (r: Numeric)
    ensures r.Value? <==> Trim(s) == "" || IsNumeral(Trim(s))
    ensures Trim(s) == "" ==> r == Value(0)
  {
    var t := Trim(s);
    if t == "" then Value(0)
    else if IsNumeral(t) then Value(NumeralValue(t))
    else NotANumber
  }

  /** Number reads back the decimal form of every integer. */
  lemma NumberOfDecimal(n: nat)
    ensures ToNumber(NatToString(n)) == Value(n)
    ensures ToNumber("-" + NatToString(n)) == Value(-(n as int))
  {
    var d := NatToString(n);
    NatToStringRoundTrip(n);
    assert IsDigit(d[0]);
    NumberIgnoresPlusAndZero(d);
    NumberOfNegated(d);
  }

  /** Number reads a minus sign before a run of digits as negation. */
  lemma NumberOfNegated(d: string)
    requires d != [] && AllDigits(d)
    ensures ToNumber("-" + d) == Value(-(DigitsValue(d) as int))
  {
    var m := "-" + d;
    assert m[1..] == d && m[|m| - 1] == d[|d| - 1];
    assert IsDigit(d[|d| - 1]);
    TrimNoOp(m);
  }

  /** A leading zero adds nothing to the value of a run of digits. */
  lemma {:induction false} LeadingZeroValue(d: string)
    requires AllDigits(d)
    ensures AllDigits("0" + d) && DigitsValue("0" + d) == DigitsValue(d)
    decreases |d|
  {
    var z := "0" + d;
    assert AllDigits(z) by {
      forall i | 0 <= i < |z| ensures IsDigit(z[i]) {
        if i > 0 { assert z[i] == d[i - 1]; }
      }
    }
    if d == [] {
      assert z[..0] == [];
    } else {
      var init := d[..|d| - 1];
      assert z[..|z| - 1] == "0" + init;
      assert z[|z| - 1] == d[|d| - 1];
      LeadingZeroValue(init);
    }
  }

  /** Number reads a run of digits as its value, and neither a leading "+"
      nor a leading zero changes what it reads. */
  lemma NumberIgnoresPlusAndZero(d: string)
    requires d != [] && AllDigits(d)
    ensures ToNumber(d) == Value(DigitsValue(d))
    ensures ToNumber("+" + d) == ToNumber(d)
    ensures ToNumber("0" + d) == ToNumber(d)
  {
    assert IsDigit(d[0]) && IsDigit(d[|d| - 1]);
    TrimNoOp(d);
    var plus := "+" + d;
    assert plus[1..] == d && plus[|plus| - 1] == d[|d| - 1];
    TrimNoOp(plus);
    LeadingZeroValue(d);
    var zero := "0" + d;
    assert zero[|zero| - 1] == d[|d| - 1];
    TrimNoOp(zero);
  }

  /** The empty field and a field of blanks are both the number 0. */
  lemma BlankIsZero(s: string)
    requires forall i :: 0 <= i < |s| ==> IsSpace(s[i])
    ensures ToNumber(s) == Value(0)
  {
    var lo :| TrimmedAt(s, Trim(s), lo);
  }
}
