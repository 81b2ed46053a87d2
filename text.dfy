/** The JavaScript string operations the site relies on, modelled on `seq<char>`:
    `split` on one character, `parseInt` of a leading run of digits, rendering a
    number in a template literal, `trim`, and the email pattern `^\S+@\S+\.\S+$`. */
module Text {

  // ---------------------------------------------------------------------------
  // split

  /** `s.split(sep)` for a one-character separator: the pieces between the
      separators, in order. Like JavaScript, an empty string gives one empty piece. */
  function Split(s: string, sep: char): (pieces: seq<string>)
    ensures |pieces| >= 1
  {
    if |s| == 0 then [[]]
    else
      var rest := Split(s[1..], sep);
      if s[0] == sep then [[]] + rest
      else [[s[0]] + rest[0]] + rest[1..]
  }

  /** No piece contains the separator. */
  lemma {:induction false} SplitPiecesLackSeparator(s: string, sep: char)
    ensures forall k :: 0 <= k < |Split(s, sep)| ==> sep !in Split(s, sep)[k]
  {
    if |s| > 0 {
      SplitPiecesLackSeparator(s[1..], sep);
      var rest := Split(s[1..], sep);
      if s[0] != sep {
        assert sep !in rest[0];
        assert Split(s, sep)[0] == [s[0]] + rest[0];
      }
    }
  }

  /** `pieces.join(sep)`, the inverse of Split. */
  function Join(pieces: seq<string>, sep: char): string
    requires |pieces| >= 1
  {
    if |pieces| == 1 then pieces[0] else pieces[0] + [sep] + Join(pieces[1..], sep)
  }

  /** Splitting and joining again gives back the original string. */
  lemma {:induction false} JoinSplit(s: string, sep: char)
    ensures Join(Split(s, sep), sep) == s
  {
    if |s| > 0 {
      JoinSplit(s[1..], sep);
      var rest := Split(s[1..], sep);
      if s[0] == sep {
        assert Split(s, sep) == [[]] + rest;
        assert s == [sep] + s[1..];
      } else {
        var pieces := Split(s, sep);
        assert pieces == [[s[0]] + rest[0]] + rest[1..];
        if |rest| == 1 {
          assert Join(pieces, sep) == [s[0]] + rest[0];
        } else {
          assert pieces[1..] == rest[1..];
          assert Join(rest, sep) == rest[0] + [sep] + Join(rest[1..], sep);
          assert s == [s[0]] + s[1..];
        }
      }
    }
  }

  /** A string without the separator is a single piece. */
  lemma {:induction false} SplitWithout(a: string, sep: char)
    requires sep !in a
    ensures Split(a, sep) == [a]
  {
    if |a| > 0 {
      assert sep !in a[1..] by { assert forall k :: 0 <= k < |a[1..]| ==> a[1..][k] == a[k + 1]; }
      SplitWithout(a[1..], sep);
      assert a == [a[0]] + a[1..];
    }
  }

  /** Splitting at the first separator: the text before it is the first piece,
      and the rest is split in the same way. */
  lemma {:induction false} SplitAtFirst(a: string, sep: char, b: string)
    requires sep !in a
    ensures Split(a + [sep] + b, sep) == [a] + Split(b, sep)
  {
    if |a| == 0 {
      assert a + [sep] + b == [sep] + b;
      assert ([sep] + b)[1..] == b;
    } else {
      var s := a + [sep] + b;
      assert s[1..] == a[1..] + [sep] + b;
      assert sep !in a[1..] by { assert forall k :: 0 <= k < |a[1..]| ==> a[1..][k] == a[k + 1]; }
      SplitAtFirst(a[1..], sep, b);
      assert a == [a[0]] + a[1..];
    }
  }

  // ---------------------------------------------------------------------------
  // Digits and parseInt

  predicate IsDigit(c: char) { '0' <= c <= '9' }

  predicate AllDigits(s: string) { forall k :: 0 <= k < |s| ==> IsDigit(s[k]) }

  function DigitValue(c: char): nat
    requires IsDigit(c)
  {
    (c as int - '0' as int) as nat
  }

  function DigitChar(d: nat): (c: char)
    requires d < 10
    ensures IsDigit(c) && DigitValue(c) == d
  {
    ('0' as int + d) as char
  }

  /** The number a string of decimal digits denotes, read most significant digit first. */
  function DigitsToNat(ds: string): nat
    requires AllDigits(ds)
  {
    if |ds| == 0 then 0 else DigitsToNat(ds[..|ds| - 1]) * 10 + DigitValue(ds[|ds| - 1])
  }

  /** The longest prefix of `s` made of digits only. */
  function DigitPrefix(s: string): (p: string)
    ensures AllDigits(p)
  {
    if |s| > 0 && IsDigit(s[0]) then [s[0]] + DigitPrefix(s[1..]) else []
  }

  /** DigitPrefix is a prefix of `s`, and the character after it, if any, is not a digit. */
  lemma {:induction false} DigitPrefixIsLongest(s: string)
    ensures DigitPrefix(s) <= s
    ensures |DigitPrefix(s)| < |s| ==> !IsDigit(s[|DigitPrefix(s)|])
  {
    if |s| > 0 && IsDigit(s[0]) {
      DigitPrefixIsLongest(s[1..]);
      assert s == [s[0]] + s[1..];
    }
  }

  predicate StartsWithDigit(s: string) { |s| > 0 && IsDigit(s[0]) }

  /** Without a radix, `parseInt` reads a leading "0x" or "0X" as the start of a
      hexadecimal number. */
  predicate HasHexPrefix(s: string) { |s| >= 2 && s[0] == '0' && (s[1] == 'x' || s[1] == 'X') }

  predicate IsHexDigit(c: char) { IsDigit(c) || 'a' <= c <= 'f' || 'A' <= c <= 'F' }

  predicate AllHexDigits(s: string) { forall k :: 0 <= k < |s| ==> IsHexDigit(s[k]) }

  function HexDigitValue(c: char): (d: nat)
    requires IsHexDigit(c)
    ensures d < 16
  {
    if IsDigit(c) then DigitValue(c)
    else if 'a' <= c <= 'f' then (c as int - 'a' as int + 10) as nat
    else (c as int - 'A' as int + 10) as nat
  }

  /** The number a string of hexadecimal digits denotes, most significant digit first. */
  function HexDigitsToNat(hs: string): nat
    requires AllHexDigits(hs)
  {
    if |hs| == 0 then 0 else HexDigitsToNat(hs[..|hs| - 1]) * 16 + HexDigitValue(hs[|hs| - 1])
  }

  /** The longest prefix of `s` made of hexadecimal digits only. */
  function HexDigitPrefix(s: string): (p: string)
    ensures AllHexDigits(p)
  {
    if |s| > 0 && IsHexDigit(s[0]) then [s[0]] + HexDigitPrefix(s[1..]) else []
  }

  /** A string `parseInt` reads as a number without producing NaN, in the form the
      site's time strings take: it starts with a digit, and a hexadecimal prefix is
      followed by at least one hexadecimal digit. */
  predicate ReadsAsNumber(s: string)
  {
    StartsWithDigit(s) && (HasHexPrefix(s) ==> |s| > 2 && IsHexDigit(s[2]))
  }

  /** `Number.parseInt(s)`: after "0x" or "0X", the value of the hexadecimal digits
      that follow; otherwise the value of the leading decimal digits. Reading stops
      at the first character that is not a digit of the base. */
  function ParseInt(s: string): nat
    requires ReadsAsNumber(s)
  {
    if HasHexPrefix(s) then HexDigitsToNat(HexDigitPrefix(s[2..])) else DigitsToNat(DigitPrefix(s))
  }

  lemma {:induction false} DigitPrefixOfDigits(ds: string, rest: string)
    requires AllDigits(ds)
    requires rest == [] || !IsDigit(rest[0])
    ensures DigitPrefix(ds + rest) == ds
  {
    if |ds| > 0 {
      assert (ds + rest)[1..] == ds[1..] + rest;
      DigitPrefixOfDigits(ds[1..], rest);
      assert ds == [ds[0]] + ds[1..];
    } else {
      assert ds + rest == rest;
    }
  }

  // ---------------------------------------------------------------------------
  // Rendering numbers

  /** How a template literal `${n}` renders a non-negative integer. */
  function NatToString(n: nat): (s: string)
    ensures |s| >= 1 && AllDigits(s)
    ensures n < 10 <==> |s| == 1
  {
    if n < 10 then [DigitChar(n)] else NatToString(n / 10) + [DigitChar(n % 10)]
  }

  /** Parsing a rendered number gives the number back. */
  lemma {:induction false} DigitsOfNatToString(n: nat)
    ensures DigitsToNat(NatToString(n)) == n
  {
    var s := NatToString(n);
    if n >= 10 {
      DigitsOfNatToString(n / 10);
      assert s[..|s| - 1] == NatToString(n / 10);
    }
  }

  /** `parseInt` of a string of digits reads all of them: its second character, a
      digit, cannot start a hexadecimal prefix. */
  lemma ParseIntOfDigits(ds: string)
    requires |ds| > 0 && AllDigits(ds)
    ensures ReadsAsNumber(ds) && ParseInt(ds) == DigitsToNat(ds)
  {
    if |ds| >= 2 { assert IsDigit(ds[1]); }
    DigitPrefixOfDigits(ds, []);
    assert ds + [] == ds;
  }

  /** `parseInt` of a rendered number gives the number back. */
  lemma ParseIntOfNat(n: nat)
    ensures ReadsAsNumber(NatToString(n)) && ParseInt(NatToString(n)) == n
  {
    ParseIntOfDigits(NatToString(n));
    DigitsOfNatToString(n);
  }

  /** `parseInt` of a rendered number followed by a non-digit gives the number back,
      unless the number is 0 and the next character is an `x` or `X`, which makes a
      hexadecimal prefix (see ParseIntOfHex). */
  lemma ParseIntOfNatToString(n: nat, rest: string)
    requires rest == [] || !IsDigit(rest[0])
    requires n == 0 ==> rest == [] || (rest[0] != 'x' && rest[0] != 'X')
    ensures ReadsAsNumber(NatToString(n) + rest)
    ensures ParseInt(NatToString(n) + rest) == n
  {
    var s := NatToString(n);
    if |s| >= 2 { assert IsDigit(s[1]); }
    DigitPrefixOfDigits(s, rest);
    DigitsOfNatToString(n);
  }

  lemma {:induction false} HexDigitPrefixOfDigits(hs: string, rest: string)
    requires AllHexDigits(hs)
    requires rest == [] || !IsHexDigit(rest[0])
    ensures HexDigitPrefix(hs + rest) == hs
  {
    if |hs| > 0 {
      assert (hs + rest)[1..] == hs[1..] + rest;
      HexDigitPrefixOfDigits(hs[1..], rest);
      assert hs == [hs[0]] + hs[1..];
    } else {
      assert hs + rest == rest;
    }
  }

  /** After "0x", `parseInt` reads the hexadecimal digits up to the first character
      that is not one: `parseInt("0x2")` is 2, not 0. */
  lemma ParseIntOfHex(x: char, hs: string, rest: string)
    requires x == 'x' || x == 'X'
    requires |hs| > 0 && AllHexDigits(hs)
    requires rest == [] || !IsHexDigit(rest[0])
    ensures ReadsAsNumber(['0', x] + (hs + rest))
    ensures ParseInt(['0', x] + (hs + rest)) == HexDigitsToNat(hs)
  {
    var s := ['0', x] + (hs + rest);
    assert HasHexPrefix(s) && s[2..] == hs + rest && IsHexDigit(s[2]);
    HexDigitPrefixOfDigits(hs, rest);
  }

  // ---------------------------------------------------------------------------
  // includes

  /** `part` occurs in `s` starting at index `i`. */
  predicate OccursAt(s: string, part: string, i: int)
  {
    0 <= i && i + |part| <= |s| && s[i..i + |part|] == part
  }

  /** `s.includes(part)`: `part` occurs somewhere in `s`. */
  predicate Includes(s: string, part: string)
  {
    exists i | 0 <= i <= |s| - |part| :: OccursAt(s, part, i)
  }

  /** A string ending in `part` includes it. */
  lemma IncludesSuffix(s: string, part: string)
    ensures Includes(s + part, part)
  {
    assert OccursAt(s + part, part, |s|);
  }

  /** A string without the first character of `part` does not include it. */
  lemma LacksFirstCharacter(s: string, part: string)
    requires |part| > 0 && part[0] !in s
    ensures !Includes(s, part)
  {
    forall i | 0 <= i <= |s| - |part|
      ensures !OccursAt(s, part, i)
    {
      assert s[i..i + |part|][0] == s[i];
    }
  }

  // ---------------------------------------------------------------------------
  // Whitespace, trim and the email pattern

  /** The characters JavaScript's `trim` removes and `\s` matches. */
  predicate IsWhitespace(c: char)
  {
    c == ' ' || c == '\t' || c == '\n' || c == '\r' || c == '\U{B}' || c == '\U{C}' ||
    c == '\U{A0}' || c == '\U{1680}' || ('\U{2000}' <= c <= '\U{200A}') ||
    c == '\U{2028}' || c == '\U{2029}' || c == '\U{202F}' || c == '\U{205F}' ||
    c == '\U{3000}' || c == '\U{FEFF}'
  }

  predicate IsBlank(s: string) { forall k :: 0 <= k < |s| ==> IsWhitespace(s[k]) }

  /** The number of whitespace characters `s` starts with. */
  function LeadingBlanks(s: string): (n: nat)
    ensures n <= |s| && IsBlank(s[..n])
    ensures n < |s| ==> !IsWhitespace(s[n])
  {
    if |s| > 0 && IsWhitespace(s[0]) then
      var n := 1 + LeadingBlanks(s[1..]);
      assert s[..n] == [s[0]] + s[1..][..n - 1];
      n
    else 0
  }

  /** The number of whitespace characters `s` ends with. */
  function TrailingBlanks(s: string): (n: nat)
    ensures n <= |s| && IsBlank(s[|s| - n..])
    ensures n < |s| ==> !IsWhitespace(s[|s| - n - 1])
  {
    if |s| > 0 && IsWhitespace(s[|s| - 1]) then
      var n := 1 + TrailingBlanks(s[..|s| - 1]);
      assert s[|s| - n..] == s[..|s| - 1][|s| - n..] + [s[|s| - 1]];
      n
    else 0
  }

  /** `s.trimStart()`: `s` without its leading whitespace. */
  function TrimStart(s: string): (t: string)
    ensures t == [] <==> IsBlank(s)
    ensures t != [] ==> !IsWhitespace(t[0])
    ensures |t| <= |s| && t == s[|s| - |t|..]
    ensures IsBlank(s[..|s| - |t|])
  {
    var n := LeadingBlanks(s);
    assert n == |s| ==> s[..n] == s;
    s[n..]
  }

  /** `s.trimEnd()`: `s` without its trailing whitespace. */
  function TrimEnd(s: string): (t: string)
    ensures t == [] <==> IsBlank(s)
    ensures t != [] ==> !IsWhitespace(t[|t| - 1])
    ensures |t| <= |s| && t == s[..|t|]
    ensures IsBlank(s[|t|..])
  {
    var n := TrailingBlanks(s);
    assert n == |s| ==> s[|s| - n..] == s;
    s[..|s| - n]
  }

  /** `s.trim()`: the string without leading and trailing whitespace. It is empty
      exactly when `s` is blank, which is how `!s.trim()` tests a form field. */
  function Trim(s: string): (t: string)
    ensures t == [] <==> IsBlank(s)
    ensures t != [] ==> !IsWhitespace(t[0]) && !IsWhitespace(t[|t| - 1])
  {
    var u := TrimStart(s);
    var t := TrimEnd(u);
    assert t != [] ==> t[0] == u[0];
    t
  }

  /** `t` is the slice of `s` between a blank prefix and a blank suffix. */
  predicate BlankPadded(s: string, t: string)
  {
    exists i | 0 <= i <= |s| - |t| :: IsBlank(s[..i]) && s[i..i + |t|] == t && IsBlank(s[i + |t|..])
  }

  /** `s.trim()` removes only whitespace: what it returns is the slice of `s`
      between a blank prefix and a blank suffix. */
  lemma TrimBetweenBlanks(s: string)
    ensures BlankPadded(s, Trim(s))
  {
    var u := TrimStart(s);
    assert Trim(s) == TrimEnd(u);
    BlankAround(s, u, TrimEnd(u));
  }

  /** A suffix `u` of `s` after a blank prefix, and a prefix `t` of `u` before a blank
      suffix, make `t` the slice of `s` between a blank prefix and a blank suffix. */
  lemma BlankAround(s: string, u: string, t: string)
    requires |u| <= |s| && u == s[|s| - |u|..] && IsBlank(s[..|s| - |u|])
    requires |t| <= |u| && t == u[..|t|] && IsBlank(u[|t|..])
    ensures BlankPadded(s, t)
  {
    var i := |s| - |u|;
    assert s[i..i + |t|] == u[..|t|];
    assert s[i + |t|..] == u[|t|..];
  }

  /** The regular expression `/^\S+@\S+\.\S+$/`: no whitespace at all, and the string
      reads as a non-empty part, `@`, a non-empty part, `.`, a non-empty part
      (each `\S+` may itself contain `@` and `.`). */
  predicate MatchesEmailPattern(s: string)
  {
    (forall k :: 0 <= k < |s| ==> !IsWhitespace(s[k])) &&
    exists at, dot | 0 < at < |s| && 0 < dot < |s| - 1 && at + 1 < dot :: s[at] == '@' && s[dot] == '.'
  }

  /** A blank string never matches the email pattern, so `!/^\S+@\S+\.\S+$/.test(s)`
      already covers `!s.trim()`. */
  lemma BlankFailsEmailPattern(s: string)
    requires IsBlank(s)
    ensures !MatchesEmailPattern(s)
  {
    if |s| > 0 { assert IsWhitespace(s[0]); }
  }

  /** Addresses the pattern accepts. */
  lemma EmailPatternAccepts()
    ensures MatchesEmailPattern("a@b.c")
    ensures MatchesEmailPattern("a.b@c.d")
  {
    assert "a@b.c"[1] == '@' && "a@b.c"[3] == '.';
    assert "a.b@c.d"[3] == '@' && "a.b@c.d"[5] == '.';
  }

  /** Strings the pattern rejects: no dot after the `@`, an empty local part, an
      empty domain label before the dot, and a space. */
  lemma EmailPatternRejects()
    ensures !MatchesEmailPattern("a@b")
    ensures !MatchesEmailPattern("@b.c")
    ensures !MatchesEmailPattern("a@.c")
    ensures !MatchesEmailPattern("a @b.c")
  {
    assert "a @b.c"[1] == ' ';
  }
}
