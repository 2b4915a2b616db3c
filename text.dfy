/** The string operations the components rely on, written out as JavaScript
    performs them: decimal rendering of a number inside a template literal,
    `('0' + n).slice(-2)`, `split` on one character, `join`, `trim`, and the
    case maps. */
module Text {

  predicate IsDigit(c: char) {
    '0' <= c <= '9'
  }

  predicate AllDigits(s: string) {
    forall i :: 0 <= i < |s| ==> IsDigit(s[i])
  }

  /** A character of the Basic Multilingual Plane: one UTF-16 code unit. */
  predicate InBmp(c: char) {
    c <= '\U{FFFF}'
  }

  /** `s.length` in JavaScript: the number of UTF-16 code units, so a
      character above U+FFFF counts twice. */
  function Utf16Length(s: string): (n: nat)
    ensures |s| <= n <= 2 * |s|
    ensures n == |s| <==> forall i :: 0 <= i < |s| ==> InBmp(s[i])
  {
    if s == [] then 0
    else (if InBmp(s[0]) then 1 else 2) + Utf16Length(s[1..])
  }

  function Digit(d: nat): (c: char)
    requires d < 10
    ensures IsDigit(c) && c as int - '0' as int == d
  {
    ('0' as int + d) as char
  }

  function DigitValue(c: char): (d: nat)
    requires IsDigit(c)
    ensures d < 10 && Digit(d) == c
  {
    c as int - '0' as int
  }

  /** `${n}` for a non-negative integer. */
  function NatToString(n: nat): (s: string)
    ensures 1 <= |s| && AllDigits(s)
    ensures (|s| == 1) == (n < 10)
  {
    if n < 10 then [Digit(n)] else NatToString(n / 10) + [Digit(n % 10)]
  }

  /** The value of a string of decimal digits. */
  function ParseNat(s: string): nat
    requires AllDigits(s)
  {
    if s == [] then 0 else ParseNat(s[..|s| - 1]) * 10 + DigitValue(s[|s| - 1])
  }

  lemma {:induction false} ParseNatOfNatToString(n: nat)
    ensures ParseNat(NatToString(n)) == n
  {
    if n >= 10 {
      var s := NatToString(n);
      ParseNatOfNatToString(n / 10);
      assert s[..|s| - 1] == NatToString(n / 10);
    }
  }

  lemma NatToStringInjective(m: nat, n: nat)
    requires NatToString(m) == NatToString(n)
    ensures m == n
  {
    ParseNatOfNatToString(m);
    ParseNatOfNatToString(n);
  }

  /** `('0' + n).slice(-2)`: the last two characters of "0" followed by the
      decimal digits of `n`. */
  function Pad2(n: nat): (s: string)
    ensures |s| == 2 && AllDigits(s)
  {
    var d := NatToString(n);
    var t := "0" + d;
    assert AllDigits(t) by {
      forall i | 0 <= i < |t| ensures IsDigit(t[i]) {
        if i > 0 { assert t[i] == d[i - 1]; }
      }
    }
    t[|t| - 2..]
  }

  /** Below one hundred the padding keeps the value; below ten it adds exactly
      one leading zero. */
  lemma Pad2Small(n: nat)
    requires n < 10
    ensures Pad2(n) == ['0', Digit(n)]
    ensures ParseNat(Pad2(n)) == n
  {
    assert NatToString(n) == [Digit(n)];
    var p := ['0', Digit(n)];
    assert "0" + [Digit(n)] == p;
    assert p[..1] == ['0'];
    assert ParseNat(['0']) == 0 by {
      assert ['0'][..0] == [];
    }
    assert ParseNat(p) == ParseNat(['0']) * 10 + DigitValue(Digit(n));
  }

  lemma Pad2Large(n: nat)
    requires 10 <= n < 100
    ensures Pad2(n) == NatToString(n)
  {
    var d := NatToString(n);
    assert NatToString(n / 10) == [Digit(n / 10)];
    assert |d| == 2;
    assert ("0" + d)[1..] == d;
  }

  lemma Pad2Value(n: nat)
    requires n < 100
    ensures ParseNat(Pad2(n)) == n
    ensures n < 10 ==> Pad2(n) == ['0', Digit(n)]
    ensures 10 <= n ==> Pad2(n) == NatToString(n)
  {
    if n < 10 {
      Pad2Small(n);
    } else {
      Pad2Large(n);
      ParseNatOfNatToString(n);
    }
  }

  /** `s.split(sep)` for a one-character separator: the pieces between
      separators, empty pieces included, so that there is always one more piece
      than there are separators. */
  function Split(s: string, sep: char): (parts: seq<string>)
    ensures |parts| >= 1
  {
    if s == [] then [""]
    else
      var rest := Split(s[1..], sep);
      if s[0] == sep then [""] + rest else [[s[0]] + rest[0]] + rest[1..]
  }

  /** `parts.join(sep)`. */
  function Join(parts: seq<string>, sep: string): string {
    if |parts| == 0 then ""
    else if |parts| == 1 then parts[0]
    else parts[0] + sep + Join(parts[1..], sep)
  }

  /** A join of no pieces is empty; otherwise it starts with the first piece
      and ends with the last. */
  lemma {:induction false} JoinEnds(parts: seq<string>, sep: string)
    ensures |parts| == 0 ==> Join(parts, sep) == ""
    ensures |parts| > 0 ==>
              var r, first, last := Join(parts, sep), parts[0], parts[|parts| - 1];
              && |first| <= |r| && r[..|first|] == first
              && |last| <= |r| && r[|r| - |last|..] == last
  {
    if |parts| >= 2 {
      JoinEnds(parts[1..], sep);
      assert parts[1..][|parts[1..]| - 1] == parts[|parts| - 1];
    }
  }

  lemma Join3(a: string, b: string, c: string, sep: string)
    ensures Join([a, b, c], sep) == a + sep + b + sep + c
  {
    assert [a, b, c][1..] == [b, c];
    assert [b, c][1..] == [c];
    assert Join([b, c], sep) == b + sep + c;
    assert a + sep + (b + sep + c) == a + sep + b + sep + c;
  }

  /** A join is empty exactly when there is nothing to join or a single empty
      piece: with two or more pieces the separator itself is in the result. */
  lemma {:induction false} JoinEmptyIff(parts: seq<string>, sep: string)
    requires sep != ""
    ensures Join(parts, sep) == "" <==> (|parts| == 0 || (|parts| == 1 && parts[0] == ""))
  {
    if |parts| >= 2 {
      assert |Join(parts, sep)| >= |sep|;
    }
  }

  lemma {:induction false} SplitPrefix(a: string, t: string, sep: char)
    requires sep !in a
    ensures Split(a + t, sep) == [a + Split(t, sep)[0]] + Split(t, sep)[1..]
  {
    if a == [] {
      assert a + t == t && a + Split(t, sep)[0] == Split(t, sep)[0];
      assert Split(t, sep) == [Split(t, sep)[0]] + Split(t, sep)[1..];
    } else {
      assert a[0] in a && a[0] != sep;
      SplitPrefix(a[1..], t, sep);
      assert (a + t)[0] == a[0] && (a + t)[1..] == a[1..] + t;
      assert [a[0]] + (a[1..] + Split(t, sep)[0]) == a + Split(t, sep)[0];
    }
  }

  /** Splitting a join undoes it when no piece contains the separator. */
  lemma {:induction false} SplitJoin(parts: seq<string>, sep: char)
    requires |parts| >= 1
    requires forall i :: 0 <= i < |parts| ==> sep !in parts[i]
    ensures Split(Join(parts, [sep]), sep) == parts
  {
    if |parts| == 1 {
      SplitPrefix(parts[0], "", sep);
      assert parts[0] + "" == parts[0];
    } else {
      var rest := Join(parts[1..], [sep]);
      SplitJoin(parts[1..], sep);
      SplitPrefix(parts[0], [sep] + rest, sep);
      assert parts[0] + [sep] + rest == parts[0] + ([sep] + rest);
      assert Split([sep] + rest, sep) == [""] + Split(rest, sep) by {
        assert ([sep] + rest)[1..] == rest;
      }
      assert parts[0] + "" == parts[0];
      assert [parts[0]] + parts[1..] == parts;
    }
  }

  /** The characters JavaScript's `\s` and `String.prototype.trim` treat as
      white space: WhiteSpace and LineTerminator of ECMAScript. */
  predicate IsJsWhitespace(c: char) {
    c == '\t' || c == '\n' || c == '\U{B}' || c == '\U{C}' || c == '\r'
    || c == ' ' || c == '\U{A0}' || c == '\U{1680}' || ('\U{2000}' <= c <= '\U{200A}')
    || c == '\U{2028}' || c == '\U{2029}' || c == '\U{202F}' || c == '\U{205F}'
    || c == '\U{3000}' || c == '\U{FEFF}'
  }

  function TrimStart(s: string): (r: string)
    ensures |r| <= |s| && r == s[|s| - |r|..]
    ensures r == [] || !IsJsWhitespace(r[0])
    ensures forall i :: 0 <= i < |s| - |r| ==> IsJsWhitespace(s[i])
  {
    if s != [] && IsJsWhitespace(s[0]) then TrimStart(s[1..]) else s
  }

  function TrimEnd(s: string): (r: string)
    ensures |r| <= |s| && r == s[..|r|]
    ensures r == [] || !IsJsWhitespace(r[|r| - 1])
    ensures forall i :: |r| <= i < |s| ==> IsJsWhitespace(s[i])
  {
    if s != [] && IsJsWhitespace(s[|s| - 1]) then TrimEnd(s[..|s| - 1]) else s
  }

  /** `s.trim()`: a contiguous piece of `s` that neither starts nor ends with
      white space, everything cut away on either side being white space. */
  function Trim(s: string): (r: string)
    ensures exists i, j ::
              && 0 <= i <= j <= |s| && r == s[i..j]
              && (forall k :: 0 <= k < i ==> IsJsWhitespace(s[k]))
              && (forall k :: j <= k < |s| ==> IsJsWhitespace(s[k]))
    ensures r == [] || (!IsJsWhitespace(r[0]) && !IsJsWhitespace(r[|r| - 1]))
  {
    var t := TrimStart(s);
    var r := TrimEnd(t);
    var i := |s| - |t|;
    assert r == s[i..i + |r|];
    r
  }

  /** The sharp s, the one Latin-1 letter whose capital is two letters. */
  const Eszett: char := '\U{DF}'

  /** `toUpperCase` on one character other than the sharp s, for Basic Latin
      and Latin-1. */
  function UpperChar(c: char): char {
    if 'a' <= c <= 'z' || ('\U{E0}' <= c <= '\U{FE}' && c != '\U{F7}') then (c as int - 32) as char
    else if c == '\U{FF}' then '\U{178}'
    else if c == '\U{B5}' then '\U{39C}'
    else c
  }

  lemma UpperCharIdempotent(c: char)
    ensures UpperChar(UpperChar(c)) == UpperChar(c)
  {
  }

  /** `toLowerCase` on one character, for Basic Latin and Latin-1. */
  function LowerChar(c: char): char {
    if 'A' <= c <= 'Z' || ('\U{C0}' <= c <= '\U{DE}' && c != '\U{D7}') then (c as int + 32) as char
    else c
  }

  /** How often `c` occurs in `s`. */
  function Occurrences(s: string, c: char): (n: nat)
    ensures n <= |s|
    ensures n == 0 <==> c !in s
  {
    if s == [] then 0 else (if s[0] == c then 1 else 0) + Occurrences(s[1..], c)
  }

  /** `toUpperCase` on a one-character text: the sharp s becomes "SS". */
  function UpperText(c: char): string {
    if c == Eszett then "SS" else [UpperChar(c)]
  }

  /** `s.toUpperCase()`: one character longer for every sharp s; without
      one, each character is upper-cased in place. The result holds no sharp
      s and no character that upper-casing would change. */
  function ToUpper(s: string): (r: string)
    ensures |r| == |s| + Occurrences(s, Eszett)
    ensures Eszett !in s ==> forall i :: 0 <= i < |s| ==> r[i] == UpperChar(s[i])
    ensures forall i :: 0 <= i < |r| ==> r[i] != Eszett && UpperChar(r[i]) == r[i]
  {
    if s == [] then []
    else
      var r := UpperText(s[0]) + ToUpper(s[1..]);
      assert forall i :: 0 <= i < |r| ==> r[i] != Eszett && UpperChar(r[i]) == r[i] by {
        UpperCharIdempotent(s[0]);
      }
      r
  }

  /** Upper-casing works piece by piece. */
  lemma {:induction false} ToUpperAppend(a: string, b: string)
    ensures ToUpper(a + b) == ToUpper(a) + ToUpper(b)
  {
    if a != [] {
      var ab := a + b;
      assert ab[0] == a[0] && ab[1..] == a[1..] + b;
      ToUpperAppend(a[1..], b);
      calc {
        ToUpper(ab);
        UpperText(a[0]) + ToUpper(a[1..] + b);
        UpperText(a[0]) + (ToUpper(a[1..]) + ToUpper(b));
        (UpperText(a[0]) + ToUpper(a[1..])) + ToUpper(b);
        ToUpper(a) + ToUpper(b);
      }
    } else {
      assert a + b == b;
    }
  }

  /** Upper-casing twice is upper-casing once. */
  lemma ToUpperIdempotent(s: string)
    ensures ToUpper(ToUpper(s)) == ToUpper(s)
  {
    var r := ToUpper(s);
    assert Eszett !in r;
  }

  function ToLower(s: string): (r: string)
    ensures |r| == |s| && forall i :: 0 <= i < |s| ==> r[i] == LowerChar(s[i])
  {
    if s == [] then [] else [LowerChar(s[0])] + ToLower(s[1..])
  }

  lemma LowerCharKeepsWhitespace(c: char)
    ensures IsJsWhitespace(LowerChar(c)) == IsJsWhitespace(c)
  {
  }

  /** A lower-cased character is no capital and stays as it is when lower-cased again. */
  lemma LowerCharIsLower(c: char)
    ensures !('A' <= LowerChar(c) <= 'Z')
    ensures LowerChar(LowerChar(c)) == LowerChar(c)
  {
  }

  /** Lower-casing a trimmed text keeps it trimmed, leaves no capital, and a
      second lower-casing changes nothing. */
  lemma ToLowerOfTrimmed(t: string)
    requires t == [] || (!IsJsWhitespace(t[0]) && !IsJsWhitespace(t[|t| - 1]))
    ensures var r := ToLower(t);
            && (r == [] || (!IsJsWhitespace(r[0]) && !IsJsWhitespace(r[|r| - 1])))
            && (forall i :: 0 <= i < |r| ==> !('A' <= r[i] <= 'Z'))
            && ToLower(r) == r
  {
    var r := ToLower(t);
    if t != [] {
      LowerCharKeepsWhitespace(t[0]);
      LowerCharKeepsWhitespace(t[|t| - 1]);
    }
    forall i | 0 <= i < |r|
      ensures !('A' <= r[i] <= 'Z') && LowerChar(r[i]) == r[i]
    {
      LowerCharIsLower(t[i]);
    }
    assert ToLower(r) == r;
  }

  /** `value.trim().toLowerCase()`, the text a table filters on: no white space at either end and no
      capital letter of Basic Latin or Latin-1 left. */
  function Filter(value: string): (r: string)
    ensures |r| <= |value|
    ensures r == [] || (!IsJsWhitespace(r[0]) && !IsJsWhitespace(r[|r| - 1]))
    ensures forall i :: 0 <= i < |r| ==> !('A' <= r[i] <= 'Z')
  {
    var t := Trim(value);
    ToLowerOfTrimmed(t);
    ToLower(t)
  }

  /** Filtering an already filtered text changes nothing. */
  lemma FilterIdempotent(value: string)
    ensures Filter(Filter(value)) == Filter(value)
  {
    var r := Filter(value);
    ToLowerOfTrimmed(Trim(value));
    assert TrimStart(r) == r;
    assert TrimEnd(r) == r;
  }
}
