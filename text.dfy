/** The handful of JavaScript string operations the attendance code relies on:
    decimal rendering of numbers in template strings, `parseInt` of a digit run,
    `<` on strings, ASCII case mapping, and `trim` with the whitespace class `\s`. */
module Text {

  /** The whitespace that `\s` and `String.prototype.trim` recognise, restricted to
      the common code points (the full Unicode space separators are not listed). */
  predicate IsSpace(c: char)
  {
    c == ' ' || c == '\t' || c == '\n' || c == '\r' || c == '\U{B}' || c == '\U{C}'
    || c == '\U{A0}' || c == '\U{FEFF}' || c == '\U{2028}' || c == '\U{2029}'
  }

  predicate IsDigit(c: char)
  {
    '0' <= c <= '9'
  }

  function DigitValue(c: char): (d: nat)
    requires IsDigit(c)
    ensures d < 10
  {
    (c - '0') as nat
  }

  function DigitChar(d: nat): (c: char)
    requires d < 10
    ensures IsDigit(c) && DigitValue(c) == d
  {
    ('0' as int + d) as char
  }

  predicate AllDigits(s: string)
  {
    forall i :: 0 <= i < |s| ==> IsDigit(s[i])
  }

  /** `${n}` for a non-negative integer: decimal, no leading zeros. */
  function NatToString(n: nat): (s: string)
    ensures s != [] && AllDigits(s)
  {
    if n < 10 then [DigitChar(n)] else NatToString(n / 10) + [DigitChar(n % 10)]
  }

  /** `${i}` for any integer. */
  function IntToString(i: int): string
  {
    if i < 0 then "-" + NatToString(-i) else NatToString(i)
  }

  /** `parseInt(s, 10)` of a run of decimal digits. */
  function ParseDigits(s: string): nat
    requires AllDigits(s)
  {
    if s == [] then 0 else ParseDigits(s[..|s| - 1]) * 10 + DigitValue(s[|s| - 1])
  }

  /** Reading back what `${n}` wrote gives `n`. */
  lemma {:induction false} ParseNatToString(n: nat)
    ensures ParseDigits(NatToString(n)) == n
  {
    if n >= 10 {
      var p := NatToString(n / 10);
      ParseNatToString(n / 10);
      assert (p + [DigitChar(n % 10)])[..|p|] == p;
    }
  }

  /** JavaScript's `a < b` on strings: lexicographic by character. */
  predicate StrLt(a: string, b: string)
  {
    if a == [] then b != []
    else if b == [] then false
    else a[0] < b[0] || (a[0] == b[0] && StrLt(a[1..], b[1..]))
  }

  /** `<` on strings is irreflexive and asymmetric. */
  lemma {:induction false} StrLtAsymmetric(a: string, b: string)
    ensures !(StrLt(a, b) && StrLt(b, a))
  {
    if a != [] && b != [] && a[0] == b[0] {
      StrLtAsymmetric(a[1..], b[1..]);
    }
  }

  /** `<` on strings is total: of two different strings one is smaller. */
  lemma {:induction false} StrLtTotal(a: string, b: string)
    ensures a == b || StrLt(a, b) || StrLt(b, a)
  {
    if a != [] && b != [] && a[0] == b[0] {
      StrLtTotal(a[1..], b[1..]);
      if a[1..] == b[1..] {
        assert a == [a[0]] + a[1..] && b == [b[0]] + b[1..];
      }
    }
  }

  lemma {:induction false} StrLtTransitive(a: string, b: string, c: string)
    requires StrLt(a, b) && StrLt(b, c)
    ensures StrLt(a, c)
  {
    if a != [] && a[0] == b[0] && b[0] == c[0] {
      StrLtTransitive(a[1..], b[1..], c[1..]);
    }
  }

  /** `toUpperCase` on one character, for the ASCII letters. */
  function UpperChar(c: char): char
  {
    if 'a' <= c <= 'z' then (c as int - 32) as char else c
  }

  /** `toLowerCase` on one character, for the ASCII letters. */
  function LowerChar(c: char): char
  {
    if 'A' <= c <= 'Z' then (c as int + 32) as char else c
  }

  function ToUpper(s: string): (r: string)
    ensures |r| == |s|
    ensures forall i :: 0 <= i < |s| ==> r[i] == UpperChar(s[i])
  {
    if s == [] then [] else [UpperChar(s[0])] + ToUpper(s[1..])
  }

  function ToLower(s: string): (r: string)
    ensures |r| == |s|
    ensures forall i :: 0 <= i < |s| ==> r[i] == LowerChar(s[i])
  {
    if s == [] then [] else [LowerChar(s[0])] + ToLower(s[1..])
  }

  /** The number of whitespace characters `s` starts with. */
  function LeadingSpaces(s: string): (k: nat)
    ensures k <= |s|
    ensures forall i :: 0 <= i < k ==> IsSpace(s[i])
    ensures k == |s| || !IsSpace(s[k])
  {
    if s != [] && IsSpace(s[0]) then 1 + LeadingSpaces(s[1..]) else 0
  }

  /** Where the whitespace that `s` ends with begins. */
  function TrailingStart(s: string): (k: nat)
    ensures k <= |s|
    ensures forall i :: k <= i < |s| ==> IsSpace(s[i])
    ensures k == 0 || !IsSpace(s[k - 1])
  {
    if s != [] && IsSpace(s[|s| - 1]) then TrailingStart(s[..|s| - 1]) else |s|
  }

  /** `s.trimStart()`. */
  function TrimStart(s: string): string
  {
    s[LeadingSpaces(s)..]
  }

  /** `s.trimEnd()`. */
  function TrimEnd(s: string): string
  {
    s[..TrailingStart(s)]
  }

  /** `s.trim()`. */
  function Trim(s: string): string
  {
    TrimEnd(TrimStart(s))
  }

  /** Trimming cuts whitespace, and only whitespace, off both ends: what is left
      neither starts nor ends with a space, and is empty exactly when the string
      is all spaces. */
  lemma TrimFacts(s: string)
    ensures var t := Trim(s);
      && (t == [] || (!IsSpace(t[0]) && !IsSpace(t[|t| - 1])))
      && (t == [] <==> forall i :: 0 <= i < |s| ==> IsSpace(s[i]))
      && var a := LeadingSpaces(s);
         a + |t| <= |s| && t == s[a..a + |t|]
         && forall i :: a + |t| <= i < |s| ==> IsSpace(s[i])
  {
    var a := LeadingSpaces(s);
    var u := s[a..];
    var k := TrailingStart(u);
    assert Trim(s) == u[..k] == s[a..a + k];
    forall i | a + k <= i < |s| ensures IsSpace(s[i]) {
      assert s[i] == u[i - a];
    }
  }

  predicate AllSpaces(s: string)
  {
    forall i :: 0 <= i < |s| ==> IsSpace(s[i])
  }

  /** A text that neither starts nor ends with whitespace. */
  predicate Unpadded(t: string)
  {
    t != [] && !IsSpace(t[0]) && !IsSpace(t[|t| - 1])
  }

  lemma {:induction false} LeadingSpacesPadded(a: string, t: string)
    requires AllSpaces(a) && t != [] && !IsSpace(t[0])
    ensures LeadingSpaces(a + t) == |a|
  {
    if a != [] {
      assert (a + t)[0] == a[0];
      assert (a + t)[1..] == a[1..] + t;
      LeadingSpacesPadded(a[1..], t);
    } else {
      assert a + t == t;
    }
  }

  lemma {:induction false} TrailingStartPadded(t: string, b: string)
    requires AllSpaces(b) && t != [] && !IsSpace(t[|t| - 1])
    ensures TrailingStart(t + b) == |t|
  {
    if b != [] {
      assert (t + b)[|t + b| - 1] == b[|b| - 1];
      assert (t + b)[..|t + b| - 1] == t + b[..|b| - 1];
      TrailingStartPadded(t, b[..|b| - 1]);
    } else {
      assert t + b == t;
    }
  }

  /** Trimming takes off exactly the whitespace around a text. */
  lemma TrimPadded(a: string, t: string, b: string)
    requires AllSpaces(a) && AllSpaces(b) && Unpadded(t)
    ensures Trim(a + t + b) == t
  {
    assert (t + b)[0] == t[0];
    assert a + t + b == a + (t + b);
    LeadingSpacesPadded(a, t + b);
    assert (a + (t + b))[|a|..] == t + b;
    TrailingStartPadded(t, b);
    assert (t + b)[..|t|] == t;
  }

  lemma ToLowerAppend(x: string, y: string)
    ensures ToLower(x + y) == ToLower(x) + ToLower(y)
  {
    var l, r := ToLower(x + y), ToLower(x) + ToLower(y);
    forall i | 0 <= i < |l| ensures l[i] == r[i] {
      if i < |x| {
        assert (x + y)[i] == x[i];
      } else {
        assert (x + y)[i] == y[i - |x|];
      }
    }
  }

  lemma ToLowerSpaces(a: string)
    requires AllSpaces(a)
    ensures ToLower(a) == a
  {
  }

  /** Case mapping works character by character and leaves whitespace alone. */
  lemma ToLowerPadded(a: string, s: string, b: string)
    requires AllSpaces(a) && AllSpaces(b)
    ensures ToLower(a + s + b) == a + ToLower(s) + b
  {
    ToLowerAppend(a + s, b);
    ToLowerAppend(a, s);
    ToLowerSpaces(a);
    ToLowerSpaces(b);
  }

  /** A text made only of whitespace trims to nothing. */
  lemma TrimAllSpaces(s: string)
    requires AllSpaces(s)
    ensures Trim(s) == []
  {
    TrimFacts(s);
  }

  /** A text with some non-whitespace trims to a text unpadded at both ends. */
  lemma TrimUnpadded(s: string)
    requires !AllSpaces(s)
    ensures Unpadded(Trim(s))
  {
    TrimFacts(s);
  }
}
