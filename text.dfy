/**
 * The JavaScript string operations the services rely on, on `seq<char>`:
 * character classes of the regular expressions, `toUpperCase` (ASCII),
 * `trim`, `includes`, `split` on one character, `join`, and decimal
 * rendering of integers in template strings.
 */
module Text {

  // ---------------------------------------------------------------------------
  // Character classes
  // ---------------------------------------------------------------------------

  /** `[A-Z]` in a regular expression without the `i` flag. */
  predicate IsUpper(c: char) {
    'A' <= c <= 'Z'
  }

  predicate IsLower(c: char) {
    'a' <= c <= 'z'
  }

  /** `\d` and `[0-9]`: ASCII digits only. */
  predicate IsDigit(c: char) {
    '0' <= c <= '9'
  }

  /** The letters a case-insensitive `[A-Z]` accepts. */
  predicate IsAsciiLetter(c: char) {
    IsUpper(c) || IsLower(c)
  }

  /** The characters `\w` accepts; a `\b` sits between such a character and any other. */
  predicate IsWordChar(c: char) {
    IsAsciiLetter(c) || IsDigit(c) || c == '_'
  }

  /**
   * White space as ECMAScript defines it for both `String.prototype.trim`
   * and the regular-expression class `\s`: the WhiteSpace and
   * LineTerminator code points.
   */
  predicate IsWs(c: char) {
    ('\U{0009}' <= c <= '\U{000D}') || c == ' ' || c == '\U{00A0}' || c == '\U{1680}'
    || ('\U{2000}' <= c <= '\U{200A}') || c == '\U{2028}' || c == '\U{2029}'
    || c == '\U{202F}' || c == '\U{205F}' || c == '\U{3000}' || c == '\U{FEFF}'
  }

  // ---------------------------------------------------------------------------
  // toUpperCase
  // ---------------------------------------------------------------------------

  function UpperChar(c: char): (u: char)
    ensures IsLower(c) ==> IsUpper(u) && u as int == c as int - 32
    ensures !IsLower(c) ==> u == c
    ensures !IsLower(u)
  {
    if IsLower(c) then (c as int - 32) as char else c
  }

  /** `s.toUpperCase()` restricted to the ASCII letters; every other character is kept. */
  function ToUpper(s: string): (r: string)
    ensures |r| == |s|
    ensures forall k | 0 <= k < |s| :: r[k] == UpperChar(s[k])
  {
    seq(|s|, k requires 0 <= k < |s| => UpperChar(s[k]))
  }

  lemma ToUpperNoLower(s: string)
    ensures forall k | 0 <= k < |s| :: !IsLower(ToUpper(s)[k])
  {
  }

  lemma ToUpperIdempotent(s: string)
    ensures ToUpper(ToUpper(s)) == ToUpper(s)
  {
  }

  lemma ToUpperConcat(a: string, b: string)
    ensures ToUpper(a + b) == ToUpper(a) + ToUpper(b)
  {
  }

  // ---------------------------------------------------------------------------
  // trim
  // ---------------------------------------------------------------------------

  function TrimStart(s: string): (r: string)
    ensures |r| <= |s| && r == s[|s| - |r|..]
    ensures forall k | 0 <= k < |s| - |r| :: IsWs(s[k])
    ensures |r| > 0 ==> !IsWs(r[0])
  {
    if |s| > 0 && IsWs(s[0]) then
      var r := TrimStart(s[1..]);
      TrimStartStep(s, r);
      r
    else s
  }

  /** Dropping one leading white-space character keeps the trimmed text a suffix preceded by white space only. */
  lemma TrimStartStep(s: string, r: string)
    requires |s| > 0 && IsWs(s[0]) && |r| <= |s| - 1 && r == s[1..][|s| - 1 - |r|..]
    requires forall k | 0 <= k < |s| - 1 - |r| :: IsWs(s[1..][k])
    ensures r == s[|s| - |r|..]
    ensures forall k | 0 <= k < |s| - |r| :: IsWs(s[k])
  {
    forall k | 0 < k < |s| - |r|
      ensures IsWs(s[k])
    {
      assert s[k] == s[1..][k - 1];
    }
  }

  function TrimEnd(s: string): (r: string)
    ensures |r| <= |s| && r == s[..|r|]
    ensures forall k | |r| <= k < |s| :: IsWs(s[k])
    ensures |r| > 0 ==> !IsWs(r[|r| - 1])
  {
    if |s| > 0 && IsWs(s[|s| - 1]) then TrimEnd(s[..|s| - 1]) else s
  }

  lemma SliceOfSuffix(s: string, off: nat, n: nat)
    requires off + n <= |s|
    ensures s[off..][..n] == s[off..off + n]
  {
  }

  /** White space at the end of a suffix is white space at the end of the string. */
  lemma DroppedTailWs(s: string, off: nat, n: nat)
    requires off + n <= |s|
    requires forall k | n <= k < |s| - off :: IsWs(s[off..][k])
    ensures forall k | off + n <= k < |s| :: IsWs(s[k])
  {
    forall k | off + n <= k < |s|
      ensures IsWs(s[k])
    {
      assert s[k] == s[off..][k - off];
    }
  }

  /** `s.trim()`: the longest infix of `s` that neither starts nor ends with white space. */
  function Trim(s: string): (r: string)
    ensures |r| <= |s|
    ensures |r| > 0 ==> !IsWs(r[0]) && !IsWs(r[|r| - 1])
    ensures |r| <= |TrimStart(s)|
    ensures r == s[|s| - |TrimStart(s)|..|s| - |TrimStart(s)| + |r|]
    ensures forall k | 0 <= k < |s| - |TrimStart(s)| :: IsWs(s[k])
    ensures forall k | |s| - |TrimStart(s)| + |r| <= k < |s| :: IsWs(s[k])
  {
    var t := TrimStart(s);
    var r := TrimEnd(t);
    TrimCompose(s, t, r);
    r
  }

  /** Trimming the end of the trimmed start leaves an infix of the text with white space after it. */
  lemma TrimCompose(s: string, t: string, r: string)
    requires |t| <= |s| && t == s[|s| - |t|..]
    requires |t| > 0 ==> !IsWs(t[0])
    requires |r| <= |t| && r == t[..|r|]
    requires forall k | |r| <= k < |t| :: IsWs(t[k])
    ensures r == s[|s| - |t|..|s| - |t| + |r|]
    ensures |r| > 0 ==> !IsWs(r[0])
    ensures forall k | |s| - |t| + |r| <= k < |s| :: IsWs(s[k])
  {
    SliceOfSuffix(s, |s| - |t|, |r|);
    DroppedTailWs(s, |s| - |t|, |r|);
    assert |r| > 0 ==> r[0] == t[0];
  }

  /** `s.trim() === ''` exactly when every character of `s` is white space. */
  lemma {:induction false} TrimEmptyIff(s: string)
    ensures Trim(s) == "" <==> forall k | 0 <= k < |s| :: IsWs(s[k])
  {
    if |s| > 0 && IsWs(s[0]) {
      TrimEmptyIff(s[1..]);
      assert forall k | 1 <= k < |s| :: s[k] == s[1..][k - 1];
    } else if |s| > 0 {
      assert TrimStart(s) == s;
      assert |TrimEnd(s)| > 0;
    }
  }

  lemma {:induction false} TrimNoWsBorders(s: string)
    requires |s| == 0 || (!IsWs(s[0]) && !IsWs(s[|s| - 1]))
    ensures Trim(s) == s
  {
  }

  lemma TrimIdempotent(s: string)
    ensures Trim(Trim(s)) == Trim(s)
  {
    TrimNoWsBorders(Trim(s));
  }

  /** Trimming keeps characters of the text only, so a property they all have survives it. */
  lemma TrimKeeps(s: string, p: char -> bool)
    requires forall k | 0 <= k < |s| :: p(s[k])
    ensures forall k | 0 <= k < |Trim(s)| :: p(Trim(s)[k])
  {
    var off := |s| - |TrimStart(s)|;
    SliceKeeps(s, off, Trim(s), p);
  }

  /** A property every character of a text has, every character of a slice of it has. */
  lemma SliceKeeps(s: string, off: nat, r: string, p: char -> bool)
    requires off + |r| <= |s| && r == s[off..off + |r|]
    requires forall k | 0 <= k < |s| :: p(s[k])
    ensures forall k | 0 <= k < |r| :: p(r[k])
  {
    forall k | 0 <= k < |r|
      ensures p(r[k])
    {
      assert r[k] == s[off + k];
    }
  }

  lemma UpperCharWs(c: char)
    ensures IsWs(UpperChar(c)) == IsWs(c)
  {
  }

  lemma {:induction false} TrimStartUpper(s: string)
    ensures TrimStart(ToUpper(s)) == ToUpper(TrimStart(s))
  {
    var u := ToUpper(s);
    if |s| > 0 {
      UpperCharWs(s[0]);
      if IsWs(s[0]) {
        assert u[1..] == ToUpper(s[1..]);
        TrimStartUpper(s[1..]);
        assert TrimStart(u) == TrimStart(u[1..]);
      } else {
        assert TrimStart(u) == u;
      }
    }
  }

  lemma {:induction false} TrimEndUpper(s: string)
    ensures TrimEnd(ToUpper(s)) == ToUpper(TrimEnd(s))
  {
    var u := ToUpper(s);
    if |s| > 0 {
      UpperCharWs(s[|s| - 1]);
      if IsWs(s[|s| - 1]) {
        assert u[..|s| - 1] == ToUpper(s[..|s| - 1]);
        TrimEndUpper(s[..|s| - 1]);
        assert TrimEnd(u) == TrimEnd(u[..|s| - 1]);
      } else {
        assert TrimEnd(u) == u;
      }
    }
  }

  /** Upper-casing and trimming commute, since no white space is a lower-case letter. */
  lemma TrimUpperCommute(s: string)
    ensures Trim(ToUpper(s)) == ToUpper(Trim(s))
  {
    TrimStartUpper(s);
    TrimEndUpper(TrimStart(s));
  }

  // ---------------------------------------------------------------------------
  // includes
  // ---------------------------------------------------------------------------

  /** `s.includes(sub)`. */
  predicate Contains(s: string, sub: string)
    decreases |s|
  {
    sub <= s || (|s| > 0 && Contains(s[1..], sub))
  }

  lemma {:induction false} ContainsAt(s: string, sub: string, i: nat)
    requires i + |sub| <= |s| && s[i..i + |sub|] == sub
    ensures Contains(s, sub)
  {
    if i > 0 {
      assert s[1..][i - 1..i - 1 + |sub|] == sub;
      ContainsAt(s[1..], sub, i - 1);
    }
  }

  lemma {:induction false} ContainsWitness(s: string, sub: string) returns (i: nat)
    requires Contains(s, sub)
    ensures i + |sub| <= |s| && s[i..i + |sub|] == sub
  {
    if sub <= s {
      i := 0;
    } else {
      var j := ContainsWitness(s[1..], sub);
      i := j + 1;
      assert s[i..i + |sub|] == s[1..][j..j + |sub|];
    }
  }

  /** A text without lower-case letters includes no string that has one. */
  lemma {:induction false} NoLowerNoContains(s: string, sub: string, j: nat)
    requires j < |sub| && IsLower(sub[j])
    requires forall k | 0 <= k < |s| :: !IsLower(s[k])
    ensures !Contains(s, sub)
    decreases |s|
  {
    if |s| > 0 {
      NoLowerNoContains(s[1..], sub, j);
    }
  }

  /** `keywords.some(kw => s.includes(kw))`. */
  predicate ContainsAny(s: string, keywords: seq<string>)
  {
    |keywords| > 0 && (Contains(s, keywords[0]) || ContainsAny(s, keywords[1..]))
  }

  lemma {:induction false} ContainsAnyIff(s: string, keywords: seq<string>)
    ensures ContainsAny(s, keywords) <==> exists k | 0 <= k < |keywords| :: Contains(s, keywords[k])
  {
    if |keywords| > 0 {
      ContainsAnyIff(s, keywords[1..]);
      assert forall k | 1 <= k < |keywords| :: keywords[k] == keywords[1..][k - 1];
    }
  }

  /** `/[A-Z]/.test(s)`. */
  predicate HasUpper(s: string)
  {
    |s| > 0 && (IsUpper(s[0]) || HasUpper(s[1..]))
  }

  // ---------------------------------------------------------------------------
  // split and join
  // ---------------------------------------------------------------------------

  /** `parts.join(sep)`. */
  function Join(parts: seq<string>, sep: string): string
  {
    if |parts| == 0 then ""
    else if |parts| == 1 then parts[0]
    else parts[0] + sep + Join(parts[1..], sep)
  }

  /** `s.split(c)` for a one-character separator: the pieces between occurrences of `c`. */
  function Split(s: string, c: char): (r: seq<string>)
    ensures |r| >= 1
    ensures forall k | 0 <= k < |r| :: c !in r[k]
  {
    if |s| == 0 then [""]
    else
      var rest := Split(s[1..], c);
      if s[0] == c then [""] + rest
      else [[s[0]] + rest[0]] + rest[1..]
  }

  /** A text without the separator splits into itself alone. */
  lemma {:induction false} SplitWithoutSeparator(s: string, c: char)
    requires c !in s
    ensures Split(s, c) == [s]
  {
    if |s| > 0 {
      assert c !in s[1..];
      SplitWithoutSeparator(s[1..], c);
      assert [s[0]] + s[1..] == s;
    }
  }

  /** Joining the pieces with the separator gives back the original text. */
  lemma {:induction false} SplitJoin(s: string, c: char)
    ensures Join(Split(s, c), [c]) == s
  {
    if |s| > 0 {
      var rest := Split(s[1..], c);
      SplitJoin(s[1..], c);
      if s[0] == c {
        assert Split(s, c) == [""] + rest;
      } else {
        var r := Split(s, c);
        assert r[0] == [s[0]] + rest[0];
        assert r[1..] == rest[1..];
        if |rest| > 1 {
          assert Join(r, [c]) == r[0] + [c] + Join(r[1..], [c]);
          assert Join(rest, [c]) == rest[0] + [c] + Join(rest[1..], [c]);
        }
      }
    }
  }

  /** Splitting distributes over a separator between two chunks of text. */
  lemma {:induction false} SplitConcat(a: string, b: string, c: char)
    ensures Split(a + [c] + b, c) == Split(a, c) + Split(b, c)
  {
    if |a| == 0 {
      assert (a + [c] + b)[1..] == b;
    } else {
      assert (a + [c] + b)[1..] == a[1..] + [c] + b;
      SplitConcat(a[1..], b, c);
    }
  }

  lemma SliceOfLeft(a: string, b: string, i: nat, n: nat)
    requires i + n <= |a|
    ensures (a + b)[i..i + n] == a[i..i + n]
  {
  }

  lemma SliceOfRight(a: string, b: string, i: nat, n: nat)
    requires |a| <= i && i + n <= |a| + |b|
    ensures (a + b)[i..i + n] == b[i - |a|..i - |a| + n]
  {
  }

  lemma SeparatorOutsideWindow(s: string, sep: char, i: nat, n: nat, m: nat)
    requires i + n <= |s| && m < |s| && s[m] == sep
    requires forall k | i <= k < i + n :: s[k] != sep
    ensures m < i || i + n <= m
  {
  }

  /**
   * A stretch of `Join(parts, [sep])` that does not include the separator
   * character lies inside a single part.
   */
  lemma {:induction false} JoinSpanInPart(parts: seq<string>, sep: char, i: nat, n: nat) returns (p: nat, q: nat)
    requires i + n <= |Join(parts, [sep])|
    requires forall k | i <= k < i + n :: Join(parts, [sep])[k] != sep
    requires |parts| > 0
    ensures p < |parts| && q + n <= |parts[p]|
    ensures Join(parts, [sep])[i..i + n] == parts[p][q..q + n]
  {
    var j := Join(parts, [sep]);
    if |parts| == 1 {
      p, q := 0, i;
    } else {
      var head := parts[0];
      var tail := Join(parts[1..], [sep]);
      assert j == head + [sep] + tail;
      assert j[|head|] == sep;
      SeparatorOutsideWindow(j, sep, i, n, |head|);
      if i + n <= |head| {
        p, q := 0, i;
        SliceOfLeft(head, [sep] + tail, i, n);
      } else {
        var i' := i - |head| - 1;
        forall k | i' <= k < i' + n
          ensures tail[k] != sep
        {
          assert tail[k] == j[k + |head| + 1];
        }
        var p', q' := JoinSpanInPart(parts[1..], sep, i', n);
        p, q := p' + 1, q';
        SliceOfRight(head + [sep], tail, i, n);
      }
    }
  }

  /** Every part occurs in the joined text, at some offset. */
  lemma {:induction false} JoinHasPart(parts: seq<string>, sep: string, p: nat) returns (off: nat)
    requires p < |parts|
    ensures off + |parts[p]| <= |Join(parts, sep)|
    ensures Join(parts, sep)[off..off + |parts[p]|] == parts[p]
  {
    var j := Join(parts, sep);
    if |parts| == 1 {
      off := 0;
    } else {
      var tail := Join(parts[1..], sep);
      assert j == parts[0] + sep + tail;
      if p == 0 {
        off := 0;
        assert j[..|parts[0]|] == parts[0];
      } else {
        var off' := JoinHasPart(parts[1..], sep, p - 1);
        off := off' + |parts[0]| + |sep|;
        assert j[off..off + |parts[p]|] == tail[off'..off' + |parts[p]|];
      }
    }
  }

  // ---------------------------------------------------------------------------
  // Numbers in text
  // ---------------------------------------------------------------------------

  function DigitChar(d: nat): (c: char)
    requires d < 10
    ensures IsDigit(c)
  {
    ('0' as int + d) as char
  }

  function DigitValue(c: char): nat
    requires IsDigit(c)
  {
    c as int - '0' as int
  }

  /** The decimal digits of `n` with no leading zero, as a template string renders a number. */
  function NatToString(n: nat): (s: string)
    ensures |s| > 0
    ensures forall k | 0 <= k < |s| :: IsDigit(s[k])
  {
    if n < 10 then [DigitChar(n)] else NatToString(n / 10) + [DigitChar(n % 10)]
  }

  function IntToString(i: int): string
  {
    if i < 0 then "-" + NatToString(-i) else NatToString(i)
  }

  /** The value of a string of decimal digits. */
  function DecimalValue(s: string): nat
    requires forall k | 0 <= k < |s| :: IsDigit(s[k])
  {
    if |s| == 0 then 0 else DecimalValue(s[..|s| - 1]) * 10 + DigitValue(s[|s| - 1])
  }

  /** Reading back the rendered digits gives the number. */
  lemma {:induction false} DecimalRoundTrip(n: nat)
    ensures DecimalValue(NatToString(n)) == n
  {
    if n >= 10 {
      var s := NatToString(n);
      assert s[..|s| - 1] == NatToString(n / 10);
      DecimalRoundTrip(n / 10);
    }
  }
}
