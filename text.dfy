/**
 * JavaScript string primitives the core relies on: the `\s` and `\w` character
 * classes, line terminators (what `.` refuses to match), `trim`, `startsWith`,
 * `endsWith`, `repeat`, whitespace escaping and `Number.prototype.toString(8)`.
 */
module Text {
  import opened Seqs

  /** JavaScript's `\s`, which is also the set `String.prototype.trim` removes. */
  predicate IsWhitespace(c: char)
  {
    || c == '\t' || c == '\n' || c == '\U{b}' || c == '\U{c}' || c == '\r' || c == ' '
    || c == '\U{a0}' || c == '\U{1680}' || ('\U{2000}' <= c <= '\U{200a}')
    || c == '\U{2028}' || c == '\U{2029}' || c == '\U{202f}' || c == '\U{205f}'
    || c == '\U{3000}' || c == '\U{feff}'
  }

  /** The characters a regular-expression `.` does not match, and where `$` cannot stop early. */
  predicate IsLineTerminator(c: char)
  {
    c == '\n' || c == '\r' || c == '\U{2028}' || c == '\U{2029}'
  }

  /** JavaScript's `\w`. */
  predicate IsWordChar(c: char)
  {
    ('a' <= c <= 'z') || ('A' <= c <= 'Z') || ('0' <= c <= '9') || c == '_'
  }

  predicate StartsWith(s: string, prefix: string)
  {
    |prefix| <= |s| && s[..|prefix|] == prefix
  }

  predicate EndsWith(s: string, suffix: string)
  {
    |suffix| <= |s| && s[|s| - |suffix|..] == suffix
  }

  predicate AllWhitespace(s: string)
  {
    forall i :: 0 <= i < |s| ==> IsWhitespace(s[i])
  }

  /** `trimStart`. */
  function TrimStart(s: string): string
  {
    if s == [] || !IsWhitespace(s[0]) then s else TrimStart(s[1..])
  }

  /** `trimEnd`. */
  function TrimEnd(s: string): string
  {
    if s == [] || !IsWhitespace(s[|s| - 1]) then s else TrimEnd(s[..|s| - 1])
  }

  /** `String.prototype.trim`. */
  function Trim(s: string): string
  {
    TrimEnd(TrimStart(s))
  }

  /** `trimStart` drops the leading whitespace and nothing else. */
  lemma {:induction false} TrimStartSpec(s: string)
    ensures |TrimStart(s)| <= |s| && TrimStart(s) == s[|s| - |TrimStart(s)|..]
    ensures AllWhitespace(s[..|s| - |TrimStart(s)|])
    ensures TrimStart(s) == [] || !IsWhitespace(TrimStart(s)[0])
  {
    if s != [] && IsWhitespace(s[0]) {
      TrimStartSpec(s[1..]);
      var k := |s| - |TrimStart(s)|;
      assert s[1..][..k - 1] == s[1..k];
      assert s[1..][|s| - 1 - |TrimStart(s)|..] == s[k..];
    } else {
      assert s[..0] == [];
      assert s[0..] == s;
    }
  }

  /** `trimEnd` drops the trailing whitespace and nothing else. */
  lemma {:induction false} TrimEndSpec(s: string)
    ensures |TrimEnd(s)| <= |s| && TrimEnd(s) == s[..|TrimEnd(s)|]
    ensures AllWhitespace(s[|TrimEnd(s)|..])
    ensures TrimEnd(s) == [] || !IsWhitespace(TrimEnd(s)[|TrimEnd(s)| - 1])
  {
    if s != [] && IsWhitespace(s[|s| - 1]) {
      var t := s[..|s| - 1];
      TrimEndSpec(t);
      var n := |TrimEnd(s)|;
      assert t[..n] == s[..n];
      assert s[n..] == t[n..] + [s[|s| - 1]];
    } else {
      assert s[..|s|] == s;
      assert s[|s|..] == [];
    }
  }

  /**
   * `trim` keeps the slice of `s` between its leading and its trailing
   * whitespace: the result is empty exactly when `s` is all whitespace, and
   * otherwise starts and ends with a non-whitespace character.
   */
  lemma TrimSpec(s: string)
    ensures |Trim(s)| <= |TrimStart(s)| <= |s|
    ensures var k := |s| - |TrimStart(s)|; k + |Trim(s)| <= |s| && Trim(s) == s[k..k + |Trim(s)|]
    ensures Trim(s) == [] <==> AllWhitespace(s)
    ensures Trim(s) == [] || (!IsWhitespace(Trim(s)[0]) && !IsWhitespace(Trim(s)[|Trim(s)| - 1]))
  {
    TrimSlice(s);
    TrimEmptyIffWhitespace(s);
    TrimEnds(s);
  }

  lemma TrimSlice(s: string)
    ensures |Trim(s)| <= |TrimStart(s)| <= |s|
    ensures var k := |s| - |TrimStart(s)|; k + |Trim(s)| <= |s| && Trim(s) == s[k..k + |Trim(s)|]
  {
    var t := TrimStart(s);
    TrimStartSpec(s);
    TrimEndSpec(t);
  }

  lemma TrimEmptyIffWhitespace(s: string)
    ensures Trim(s) == [] <==> AllWhitespace(s)
  {
    var t := TrimStart(s);
    TrimStartSpec(s);
    TrimEndSpec(t);
    var k := |s| - |t|;
    assert s == s[..k] + t;
    if Trim(s) == [] {
      assert t[0..] == t;
      AllWhitespaceAppend(s[..k], t);
    } else {
      assert Trim(s)[0] == t[0] == s[k];
    }
  }

  lemma TrimEnds(s: string)
    ensures Trim(s) == [] || (!IsWhitespace(Trim(s)[0]) && !IsWhitespace(Trim(s)[|Trim(s)| - 1]))
  {
    var t := TrimStart(s);
    TrimStartSpec(s);
    TrimEndSpec(t);
    if Trim(s) != [] {
      assert Trim(s)[0] == t[0];
    }
  }

  lemma AllWhitespaceAppend(a: string, b: string)
    requires AllWhitespace(a) && AllWhitespace(b)
    ensures AllWhitespace(a + b)
  {
    forall i | 0 <= i < |a + b| ensures IsWhitespace((a + b)[i]) {
      if i >= |a| {
        assert (a + b)[i] == b[i - |a|];
      }
    }
  }

  /** A string with no whitespace at either end is its own trim. */
  lemma TrimOfTrimmed(s: string)
    requires s == [] || (!IsWhitespace(s[0]) && !IsWhitespace(s[|s| - 1]))
    ensures Trim(s) == s
  {
  }

  /** Trimming a trimmed string changes nothing. */
  lemma TrimIdempotent(s: string)
    ensures Trim(Trim(s)) == Trim(s)
  {
    TrimSpec(s);
    TrimOfTrimmed(Trim(s));
  }

  /** `String.prototype.repeat`. */
  function Repeat(s: string, n: nat): (r: string)
    ensures |r| == n * |s|
  {
    if n == 0 then "" else s + Repeat(s, n - 1)
  }

  /** `s.replace(/\s/g, "")`: the non-whitespace characters in order. */
  function RemoveWhitespace(s: string): (r: string)
    ensures |r| <= |s|
    ensures r == [] <==> AllWhitespace(s)
    ensures forall i :: 0 <= i < |r| ==> !IsWhitespace(r[i])
  {
    if s == [] then ""
    else if IsWhitespace(s[0]) then RemoveWhitespace(s[1..])
    else [s[0]] + RemoveWhitespace(s[1..])
  }

  function CountWhitespace(s: string): nat
  {
    if s == [] then 0 else (if IsWhitespace(s[0]) then 1 else 0) + CountWhitespace(s[1..])
  }

  /**
   * `s.replace(/\s/g, "\\ ")`: every whitespace character becomes a backslash
   * followed by a plain space; nothing else changes.
   */
  function EscapeWhitespace(s: string): (r: string)
    ensures |r| == |s| + CountWhitespace(s)
    ensures forall i :: 0 <= i < |r| && IsWhitespace(r[i]) ==> r[i] == ' ' && 0 < i && r[i - 1] == '\\'
    ensures AllWhitespace(s) ==> |r| == 2 * |s|
  {
    if s == [] then ""
    else if IsWhitespace(s[0]) then "\\ " + EscapeWhitespace(s[1..])
    else [s[0]] + EscapeWhitespace(s[1..])
  }

  /** Escaping one character: a whitespace character becomes a backslash and a space, any other stays. */
  lemma EscapeWhitespaceChar(c: char)
    ensures EscapeWhitespace([c]) == if IsWhitespace(c) then "\\ " else [c]
  {
    assert [c][1..] == [];
  }

  /** Escaping works character by character: it distributes over concatenation. */
  lemma {:induction false} EscapeWhitespaceAppend(a: string, b: string)
    ensures EscapeWhitespace(a + b) == EscapeWhitespace(a) + EscapeWhitespace(b)
  {
    if a == [] {
      assert a + b == b;
    } else {
      var c, t := a[0], a[1..];
      ConsSplit(a, b);
      EscapeCons(c, t + b);
      EscapeCons(c, t);
      EscapeWhitespaceAppend(t, b);
      RegroupLeft(EscapeWhitespace(a + b), EscapeWhitespace(a), EscapeWhitespace([c]),
                  EscapeWhitespace(t), EscapeWhitespace(b));
    }
  }

  lemma EscapeCons(c: char, t: string)
    ensures EscapeWhitespace([c] + t) == EscapeWhitespace([c]) + EscapeWhitespace(t)
  {
    assert ([c] + t)[0] == c && ([c] + t)[1..] == t;
    EscapeWhitespaceChar(c);
  }

  lemma ConsSplit(a: string, b: string)
    requires a != []
    ensures a == [a[0]] + a[1..] && a + b == [a[0]] + (a[1..] + b)
  {
  }

  /** Escaping is the identity on a string without whitespace. */
  lemma {:induction false} EscapeWithoutWhitespace(s: string)
    requires forall i :: 0 <= i < |s| ==> !IsWhitespace(s[i])
    ensures EscapeWhitespace(s) == s
  {
    if s != [] {
      EscapeWithoutWhitespace(s[1..]);
    }
  }

  /* ---- `Number.prototype.toString(8)` ---- */

  function OctalDigit(d: nat): char
    requires d < 8
  {
    "01234567"[d]
  }

  predicate IsOctalDigit(c: char)
  {
    '0' <= c <= '7'
  }

  /** The base-8 numeral of `n`, most significant digit first, without leading zeros. */
  function Octal(n: nat): (r: string)
    ensures |r| >= 1 && forall i :: 0 <= i < |r| ==> IsOctalDigit(r[i])
    ensures |r| > 1 ==> r[0] != '0'
  {
    if n < 8 then [OctalDigit(n)] else Octal(n / 8) + [OctalDigit(n % 8)]
  }

  /** The value of a base-8 numeral. */
  function OctalValue(s: string): nat
    requires forall i :: 0 <= i < |s| ==> IsOctalDigit(s[i])
  {
    if s == [] then 0
    else
      assert IsOctalDigit(s[|s| - 1]);
      8 * OctalValue(s[..|s| - 1]) + (s[|s| - 1] as int - '0' as int)
  }

  /** Reading back an octal numeral gives the number that was printed. */
  lemma {:induction false} OctalRoundTrip(n: nat)
    ensures OctalValue(Octal(n)) == n
  {
    var r := Octal(n);
    if n >= 8 {
      OctalRoundTrip(n / 8);
      assert r[..|r| - 1] == Octal(n / 8);
    }
  }
}
