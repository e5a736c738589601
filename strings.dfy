/** The JavaScript string operations the chat service relies on, stated over
    Dafny strings (sequences of Unicode scalar values). */
module Strings {

  /** The code points JavaScript's `String.prototype.trim` (and the regular
      expression class `\s` used by the request validators) treat as white space. */
  predicate IsSpace(c: char) {
    || c == '\t' || c == '\n' || c == '\U{000B}' || c == '\U{000C}' || c == '\r' || c == ' '
    || c == '\U{00A0}' || c == '\U{1680}' || ('\U{2000}' <= c <= '\U{200A}')
    || c == '\U{2028}' || c == '\U{2029}' || c == '\U{202F}' || c == '\U{205F}'
    || c == '\U{3000}' || c == '\U{FEFF}'
  }

  predicate AllSpace(s: string) {
    forall k :: 0 <= k < |s| ==> IsSpace(s[k])
  }

  /** A string with no white space at either end. */
  predicate Trimmed(s: string) {
    s == [] || (!IsSpace(s[0]) && !IsSpace(s[|s| - 1]))
  }

  /** The number of white-space characters `s` starts with. */
  function LeadingSpace(s: string): (n: nat)
    ensures n <= |s| && AllSpace(s[..n])
    ensures n < |s| ==> !IsSpace(s[n])
  {
    if s != [] && IsSpace(s[0]) then
      var n := 1 + LeadingSpace(s[1..]);
      assert s[..n] == [s[0]] + s[1..][..n - 1];
      n
    else 0
  }

  /** The number of white-space characters `s` ends with. */
  function TrailingSpace(s: string): (n: nat)
    ensures n <= |s| && AllSpace(s[|s| - n..])
    ensures n < |s| ==> !IsSpace(s[|s| - n - 1])
  {
    if s != [] && IsSpace(s[|s| - 1]) then
      var n := 1 + TrailingSpace(s[..|s| - 1]);
      assert s[|s| - n..] == s[..|s| - 1][|s| - n..] + [s[|s| - 1]];
      n
    else 0
  }

  /** `s` with its leading white space removed: a suffix of `s`. */
  function TrimStart(s: string): (r: string)
    ensures r != [] ==> !IsSpace(r[0])
  {
    s[LeadingSpace(s)..]
  }

  /** `s` with its trailing white space removed: a prefix of `s`. */
  function TrimEnd(s: string): (r: string)
    ensures r != [] ==> !IsSpace(r[|r| - 1])
  {
    s[..|s| - TrailingSpace(s)]
  }

  /** JavaScript's `s.trim()`. */
  function Trim(s: string): (r: string)
    ensures |r| <= |s| && Trimmed(r)
    ensures r == [] <==> AllSpace(s)
  {
    TrimFacts(s);
    TrimEnd(TrimStart(s))
  }

  /** Trimming keeps a trimmed middle, and empties exactly the blank strings. */
  lemma TrimFacts(s: string)
    ensures var r := TrimEnd(TrimStart(s));
      |r| <= |s| && Trimmed(r) && (r == [] <==> AllSpace(s))
  {
    var k := LeadingSpace(s);
    var t := TrimStart(s);
    var r := TrimEnd(t);
    var m := TrailingSpace(t);
    assert t == s[k..] && r == t[..|t| - m];
    if r != [] {
      assert r[0] == t[0];
      assert !AllSpace(s) by {
        assert s[k] == t[0];
      }
    } else {
      assert s[..k] == s;
    }
  }

  lemma TrimStartOfTrimmed(s: string)
    requires s == [] || !IsSpace(s[0])
    ensures TrimStart(s) == s
  {
  }

  lemma TrimEndOfTrimmed(s: string)
    requires s == [] || !IsSpace(s[|s| - 1])
    ensures TrimEnd(s) == s
  {
  }

  /** A string without white space at its ends is its own trim. */
  lemma TrimOfTrimmed(s: string)
    requires Trimmed(s)
    ensures Trim(s) == s
  {
    TrimStartOfTrimmed(s);
    TrimEndOfTrimmed(s);
  }

  /** Trimming twice is trimming once. */
  lemma TrimIdempotent(s: string)
    ensures Trim(Trim(s)) == Trim(s)
  {
    TrimOfTrimmed(Trim(s));
  }

  /** Trimming only removes characters: every character that remains
      comes from `s`. */
  lemma TrimKeepsChars(s: string)
    ensures forall i :: 0 <= i < |Trim(s)| ==> Trim(s)[i] in s
  {
    var k := LeadingSpace(s);
    var t := TrimStart(s);
    var r := TrimEnd(t);
    assert t == s[k..] && r == t[..|r|];
    forall i | 0 <= i < |r| ensures r[i] in s {
      assert r[i] == s[k + i];
    }
  }

  /** `s.startsWith(p)`. */
  predicate StartsWith(s: string, p: string) {
    |p| <= |s| && s[..|p|] == p
  }

  /** `s.includes(p)`. */
  predicate Contains(s: string, p: string)
    decreases |s|
  {
    StartsWith(s, p) || (s != [] && Contains(s[1..], p))
  }

  /** JavaScript's `s.replace(pattern, replacement)` for a string pattern:
      only the FIRST occurrence is replaced. */
  function ReplaceFirst(s: string, pattern: string, replacement: string): (r: string)
    ensures !Contains(s, pattern) ==> r == s
    ensures StartsWith(s, pattern) ==> r == replacement + s[|pattern|..]
    decreases |s|
  {
    if StartsWith(s, pattern) then replacement + s[|pattern|..]
    else if s == [] then s
    else [s[0]] + ReplaceFirst(s[1..], pattern, replacement)
  }

  // ---------------------------------------------------------------------------
  // Joining and splitting

  /** `parts.join(sep)`. */
  function Join(parts: seq<string>, sep: string): string
  {
    if |parts| == 0 then ""
    else if |parts| == 1 then parts[0]
    else parts[0] + sep + Join(parts[1..], sep)
  }

  /** Joining grows one part at a time: the last part follows one separator. */
  lemma {:induction false} JoinSnoc(parts: seq<string>, p: string, sep: string)
    requires parts != []
    ensures Join(parts + [p], sep) == Join(parts, sep) + sep + p
  {
    if |parts| == 1 {
      assert parts + [p] == [parts[0], p];
      assert ([parts[0], p])[1..] == [p];
    } else {
      assert (parts + [p])[1..] == parts[1..] + [p];
      JoinSnoc(parts[1..], p, sep);
    }
  }

  function CountChar(s: string, c: char): nat
  {
    if s == [] then 0 else (if s[0] == c then 1 else 0) + CountChar(s[1..], c)
  }

  lemma {:induction false} CountCharConcat(a: string, b: string, c: char)
    ensures CountChar(a + b, c) == CountChar(a, c) + CountChar(b, c)
  {
    if a == [] {
      assert a + b == b;
    } else {
      assert (a + b)[1..] == a[1..] + b;
      CountCharConcat(a[1..], b, c);
    }
  }

  lemma {:induction false} CountCharAbsent(s: string, c: char)
    requires c !in s
    ensures CountChar(s, c) == 0
  {
    if s != [] {
      CountCharAbsent(s[1..], c);
    }
  }

  /** When no part contains the character `c`, every `c` of the joined text
      comes from a separator: k parts give k - 1 separators. */
  lemma {:induction false} JoinCountChar(parts: seq<string>, sep: string, c: char)
    requires parts != []
    requires forall i :: 0 <= i < |parts| ==> c !in parts[i]
    ensures CountChar(Join(parts, sep), c) == (|parts| - 1) * CountChar(sep, c)
  {
    CountCharAbsent(parts[0], c);
    if |parts| > 1 {
      JoinCountChar(parts[1..], sep, c);
      CountCharConcat(parts[0] + sep, Join(parts[1..], sep), c);
      CountCharConcat(parts[0], sep, c);
    }
  }

  /** JavaScript's `s.split(c)` for a one-character separator: always at least
      one piece, and no piece contains the separator. */
  function Split(s: string, c: char): (r: seq<string>)
    ensures |r| >= 1
    ensures forall i :: 0 <= i < |r| ==> c !in r[i]
  {
    if s == [] then [""]
    else
      var rest := Split(s[1..], c);
      if s[0] == c then [""] + rest
      else [[s[0]] + rest[0]] + rest[1..]
  }

  /** Splitting and re-joining with the same separator gives the string back. */
  lemma {:induction false} SplitJoin(s: string, c: char)
    ensures Join(Split(s, c), [c]) == s
  {
    if s != [] {
      var rest := Split(s[1..], c);
      SplitJoin(s[1..], c);
      if s[0] == c {
        assert ([""] + rest)[1..] == rest;
      } else if |rest| > 1 {
        var r := [[s[0]] + rest[0]] + rest[1..];
        assert r[1..] == rest[1..];
        assert Join(rest, [c]) == rest[0] + [c] + Join(rest[1..], [c]);
      }
    }
  }

  /** A string without the separator is a single piece. */
  lemma {:induction false} SplitAbsent(s: string, c: char)
    requires c !in s
    ensures Split(s, c) == [s]
  {
    if s != [] {
      assert c !in s[1..];
      SplitAbsent(s[1..], c);
      assert [s[0]] + s[1..] == s;
    }
  }

  /** The first separator ends the first piece. */
  lemma {:induction false} SplitAtFirst(a: string, b: string, c: char)
    requires c !in a
    ensures Split(a + [c] + b, c) == [a] + Split(b, c)
  {
    if a == [] {
      assert ([c] + b)[1..] == b;
    } else {
      var s := a + [c] + b;
      assert s[0] == a[0] && s[1..] == a[1..] + [c] + b;
      assert c !in a[1..];
      SplitAtFirst(a[1..], b, c);
      assert [a[0]] + a[1..] == a;
    }
  }

  // ---------------------------------------------------------------------------
  // Case and character classes

  /** The one-character case mappings of `toLowerCase` that are modelled:
      the letters A-Z, and U+212A KELVIN SIGN, which lower-cases to the
      ASCII letter `k`. */
  function LowerChar(c: char): char {
    if 'A' <= c <= 'Z' then (c as int + 32) as char
    else if c == '\U{212A}' then 'k'
    else c
  }

  /** `s.toLowerCase()`, restricted to the mappings of LowerChar. */
  function ToLower(s: string): (r: string)
    ensures |r| == |s|
    ensures forall i :: 0 <= i < |s| ==> r[i] == LowerChar(s[i])
  {
    seq(|s|, i requires 0 <= i < |s| => LowerChar(s[i]))
  }

  lemma ToLowerIdempotent(s: string)
    ensures ToLower(ToLower(s)) == ToLower(s)
  {
  }

  /** A member of the regular-expression class `[a-zA-Z0-9_]`. */
  predicate IsWordChar(c: char) {
    ('a' <= c <= 'z') || ('A' <= c <= 'Z') || ('0' <= c <= '9') || c == '_'
  }

  /** `/^[a-zA-Z0-9_]+$/.test(s)`. */
  predicate IsWord(s: string) {
    |s| > 0 && forall i :: 0 <= i < |s| ==> IsWordChar(s[i])
  }

  /** Lower-casing keeps a word a word, and a word has no white space. */
  lemma LowerOfWord(s: string)
    requires IsWord(s)
    ensures IsWord(ToLower(s)) && Trimmed(s)
  {
  }

  // ---------------------------------------------------------------------------
  // Lengths

  /** The number of UTF-16 code units of `s`: JavaScript's `s.length`, which
      Mongoose's minlength and maxlength and the browser compare. */
  function Utf16Length(s: string): nat
  {
    if s == [] then 0 else (if s[0] as int > 0xFFFF then 2 else 1) + Utf16Length(s[1..])
  }

  /** U+FE0E and U+FE0F, which the validator library's `isLength` does not count. */
  predicate IsVariationSelector(c: char) {
    c == '\U{FE0E}' || c == '\U{FE0F}'
  }

  /** The length `isLength` of express-validator measures: code points, a
      surrogate pair counting once, minus the emoji variation selectors. */
  function ValidatorLength(s: string): nat
  {
    if s == [] then 0 else (if IsVariationSelector(s[0]) then 0 else 1) + ValidatorLength(s[1..])
  }

  predicate IsBmp(s: string) {
    forall i :: 0 <= i < |s| ==> s[i] as int <= 0xFFFF
  }

  /** The two measures disagree only on characters outside the Basic
      Multilingual Plane and on variation selectors. */
  lemma {:induction false} LengthsAgree(s: string)
    requires IsBmp(s) && forall i :: 0 <= i < |s| ==> !IsVariationSelector(s[i])
    ensures Utf16Length(s) == |s| == ValidatorLength(s)
  {
    if s != [] {
      LengthsAgree(s[1..]);
    }
  }

  /** A word is ASCII, so every length measure agrees with its number of
      characters, and it has no white space to trim. */
  lemma WordIsPlain(s: string)
    requires IsWord(s)
    ensures Trimmed(s) && ValidatorLength(s) == |s| == Utf16Length(s)
  {
    assert forall i :: 0 <= i < |s| ==> s[i] as int <= 0xFFFF && !IsVariationSelector(s[i]) by {
      forall i | 0 <= i < |s| ensures s[i] as int <= 0xFFFF && !IsVariationSelector(s[i]) {
        assert IsWordChar(s[i]);
      }
    }
    LengthsAgree(s);
  }

  /** Each code point is one or two UTF-16 units. */
  lemma {:induction false} Utf16LengthBounds(s: string)
    ensures ValidatorLength(s) <= |s| <= Utf16Length(s) <= 2 * |s|
  {
    if s != [] {
      Utf16LengthBounds(s[1..]);
    }
  }

  /** A character outside the Basic Multilingual Plane is two UTF-16 units
      but one character for the validator. */
  lemma {:induction false} AstralLengths(s: string)
    requires forall i :: 0 <= i < |s| ==> s[i] as int > 0xFFFF
    ensures Utf16Length(s) == 2 * |s| && ValidatorLength(s) == |s|
  {
    if s != [] {
      AstralLengths(s[1..]);
    }
  }

  lemma {:induction false} Utf16LengthConcat(a: string, b: string)
    ensures Utf16Length(a + b) == Utf16Length(a) + Utf16Length(b)
  {
    if a == [] {
      assert a + b == b;
    } else {
      assert (a + b)[1..] == a[1..] + b;
      Utf16LengthConcat(a[1..], b);
    }
  }

  /** A split never adds UTF-16 units to either side. */
  lemma Utf16LengthSplit(s: string, k: nat)
    requires k <= |s|
    ensures Utf16Length(s[..k]) <= Utf16Length(s) && Utf16Length(s[k..]) <= Utf16Length(s)
  {
    assert s == s[..k] + s[k..];
    Utf16LengthConcat(s[..k], s[k..]);
  }

  /** Trimming never lengthens the text in UTF-16 units. */
  lemma Utf16LengthTrim(s: string)
    ensures Utf16Length(Trim(s)) <= Utf16Length(s)
  {
    var t := TrimStart(s);
    Utf16LengthSplit(s, LeadingSpace(s));
    Utf16LengthSplit(t, |t| - TrailingSpace(t));
  }

  /** Strings that agree, position by position, on which characters lie
      outside the Basic Multilingual Plane have the same UTF-16 length. */
  lemma {:induction false} Utf16LengthPointwise(s: string, t: string)
    requires |s| == |t| && forall i :: 0 <= i < |s| ==> (s[i] as int > 0xFFFF) == (t[i] as int > 0xFFFF)
    ensures Utf16Length(s) == Utf16Length(t)
  {
    if s != [] {
      Utf16LengthPointwise(s[1..], t[1..]);
    }
  }

  /** Lower-casing keeps the UTF-16 length and leaves trimmed text trimmed. */
  lemma ToLowerKeeps(s: string)
    ensures Utf16Length(ToLower(s)) == Utf16Length(s)
    ensures Trimmed(s) ==> Trimmed(ToLower(s))
  {
    Utf16LengthPointwise(ToLower(s), s);
  }

  // ---------------------------------------------------------------------------
  // Decimal text of natural numbers

  function DigitChar(d: nat): char
    requires d < 10
  {
    ('0' as int + d) as char
  }

  function DigitValue(c: char): nat
  {
    if '0' <= c <= '9' then c as int - '0' as int else 0
  }

  /** JavaScript's `String(n)` for a natural number. */
  function NatToString(n: nat): (r: string)
    ensures |r| >= 1
    ensures forall i :: 0 <= i < |r| ==> '0' <= r[i] <= '9'
  {
    if n < 10 then [DigitChar(n)] else NatToString(n / 10) + [DigitChar(n % 10)]
  }

  /** The value of a string of decimal digits. */
  function ParseDigits(s: string): nat
  {
    if s == [] then 0 else 10 * ParseDigits(s[..|s| - 1]) + DigitValue(s[|s| - 1])
  }

  /** The decimal text of `n` reads back as `n`. */
  lemma {:induction false} NatToStringRoundTrip(n: nat)
    ensures ParseDigits(NatToString(n)) == n
  {
    if n >= 10 {
      var s := NatToString(n);
      assert s[..|s| - 1] == NatToString(n / 10);
      NatToStringRoundTrip(n / 10);
    }
  }
}
