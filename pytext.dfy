/** The few Python string built-ins the G-code emitters rely on:
    `str(int)`, `f"{v:.4f}"`, `str.strip()` and substring tests. */
module PyText {

  predicate IsDigit(c: char) { '0' <= c <= '9' }

  predicate AllDigits(s: string) { forall i :: 0 <= i < |s| ==> IsDigit(s[i]) }

  function DigitValue(c: char): nat
    requires IsDigit(c)
  {
    c as int - '0' as int
  }

  function DigitChar(d: nat): (c: char)
    requires d < 10
    ensures IsDigit(c) && DigitValue(c) == d
  {
    ('0' as int + d) as char
  }

  /** Decimal digits of `n` without leading zeros, as Python's `str(n)`. */
  function NatToString(n: nat): (s: string)
    ensures |s| >= 1 && AllDigits(s)
    ensures s[0] == '0' ==> n == 0
    decreases n
  {
    if n < 10 then [DigitChar(n)] else NatToString(n / 10) + [DigitChar(n % 10)]
  }

  /** Python's `str(i)` for an `int`. */
  function IntToString(i: int): string
  {
    if i < 0 then "-" + NatToString(-i) else NatToString(i)
  }

  /** The number a string of decimal digits denotes. */
  function ParseDigits(s: string): nat
    requires AllDigits(s)
  {
    if s == [] then 0 else ParseDigits(s[..|s| - 1]) * 10 + DigitValue(s[|s| - 1])
  }

  lemma {:induction false} ParseNatToString(n: nat)
    ensures ParseDigits(NatToString(n)) == n
    decreases n
  {
    if n >= 10 {
      var s := NatToString(n);
      assert s[..|s| - 1] == NatToString(n / 10);
      ParseNatToString(n / 10);
    }
  }

  /** Exactly four digits, zero-padded: the fractional part of `f"{v:.4f}"`. */
  function Pad4(n: nat): (s: string)
    requires n < 10000
    ensures |s| == 4 && AllDigits(s)
  {
    [DigitChar(n / 1000), DigitChar(n / 100 % 10), DigitChar(n / 10 % 10), DigitChar(n % 10)]
  }

  lemma ParsePad4(n: nat)
    requires n < 10000
    ensures ParseDigits(Pad4(n)) == n
  {
    var s := Pad4(n);
    assert s[..1][..0] == [] && s[..2][..1] == s[..1] && s[..3][..2] == s[..2] && s[..4][..3] == s[..3];
    var a, b, c := n / 1000, n / 100, n / 10;
    assert b == a * 10 + b % 10 && b % 10 == n / 100 % 10 && a == b / 10;
    assert c == b * 10 + c % 10 && c % 10 == n / 10 % 10 && b == c / 10;
    assert ParseDigits(s[..1]) == a;
    assert ParseDigits(s[..2]) == b;
    assert ParseDigits(s[..3]) == c;
  }

  /** The value rendered by `f"{v:.4f}"`, counted in ten-thousandths.  The
      model rounds half-way cases up; the lemmas below promise only what any
      round-to-nearest does. */
  function Round4(v: real): int
  {
    (v * 10000.0 + 0.5).Floor
  }

  lemma Round4Nearest(v: real)
    ensures -0.5 < Round4(v) as real - v * 10000.0 <= 0.5
  {
  }

  /** A value with at most four decimals is rendered exactly. */
  lemma Round4Exact(v: real, q: int)
    requires v * 10000.0 == q as real
    ensures Round4(v) == q
  {
  }

  /** `s` is `[-]digits.dddd`: a decimal string with exactly four fractional digits. */
  predicate IsFixed4(s: string)
  {
    && |s| >= 6
    && s[|s| - 5] == '.'
    && AllDigits(s[|s| - 4..])
    && (if s[0] == '-' then |s| >= 7 && AllDigits(s[1..|s| - 5]) else AllDigits(s[..|s| - 5]))
  }

  /** The value of a four-decimal string, in ten-thousandths (Python's `float(s)`). */
  function Fixed4Value(s: string): int
    requires IsFixed4(s)
  {
    var whole := if s[0] == '-' then s[1..|s| - 5] else s[..|s| - 5];
    var mag := ParseDigits(whole) * 10000 + ParseDigits(s[|s| - 4..]);
    if s[0] == '-' then -mag else mag
  }

  /** A count of ten-thousandths written as `[-]digits.dddd`. */
  function Render4(q: int): string
  {
    var m: nat := if q < 0 then -q else q;
    (if q < 0 then "-" else "") + NatToString(m / 10000) + "." + Pad4(m % 10000)
  }

  /** A rendered count is a four-decimal string that reads back as the count,
      with a minus sign exactly when the count is negative. */
  lemma Render4Meaning(q: int)
    ensures IsFixed4(Render4(q))
    ensures Fixed4Value(Render4(q)) == q
    ensures Render4(q)[0] == '-' <==> q < 0
  {
    var m: nat := if q < 0 then -q else q;
    var whole, frac := NatToString(m / 10000), Pad4(m % 10000);
    ParsePad4(m % 10000);
    ParseNatToString(m / 10000);
    assert (m / 10000) * 10000 + m % 10000 == m;
    if q < 0 {
      assert Render4(q) == "-" + whole + "." + frac;
      Fixed4Negative(whole, frac);
    } else {
      assert "" + whole == whole;
      assert Render4(q) == whole + "." + frac;
      Fixed4Plain(whole, frac);
    }
  }

  lemma Fixed4Plain(whole: string, frac: string)
    requires |whole| >= 1 && AllDigits(whole) && |frac| == 4 && AllDigits(frac)
    ensures var s := whole + "." + frac;
      IsFixed4(s) && s[0] != '-' && Fixed4Value(s) == ParseDigits(whole) * 10000 + ParseDigits(frac)
  {
    var s := whole + "." + frac;
    assert s[|s| - 5] == '.' && s[|s| - 4..] == frac && s[..|s| - 5] == whole && s[0] == whole[0];
  }

  lemma Fixed4Negative(whole: string, frac: string)
    requires |whole| >= 1 && AllDigits(whole) && |frac| == 4 && AllDigits(frac)
    ensures var s := "-" + whole + "." + frac;
      IsFixed4(s) && s[0] == '-' && Fixed4Value(s) == -(ParseDigits(whole) * 10000 + ParseDigits(frac))
  {
    var s := "-" + whole + "." + frac;
    assert s[|s| - 5] == '.' && s[|s| - 4..] == frac && s[1..|s| - 5] == whole;
  }

  /** The three parts of a rendered count: sign, whole units, four decimals. */
  lemma Render4Parts(q: int)
    ensures var m: nat := if q < 0 then -q else q;
      Render4(q) == (if q < 0 then "-" else "") + NatToString(m / 10000) + "." + Pad4(m % 10000)
  {
  }

  /** `f"{v:.4f}"`: a decimal string with exactly four fractional digits,
      denoting `v` rounded to the nearest ten-thousandth. */
  function Fmt4(v: real): (s: string)
    ensures IsFixed4(s)
    ensures Fixed4Value(s) == Round4(v)
    ensures s[0] == '-' <==> Round4(v) < 0
  {
    Render4Meaning(Round4(v));
    Render4(Round4(v))
  }

  /** Reading off `f"{v:.4f}"` for a non-negative `v` with at most four decimals. */
  lemma Fmt4Of(v: real, q: nat, whole: string, frac: string)
    requires v * 10000.0 == q as real
    requires NatToString(q / 10000) == whole && Pad4(q % 10000) == frac
    ensures Fmt4(v) == whole + "." + frac
  {
    Round4Exact(v, q);
    Render4Parts(q);
  }

  /** Negating a four-decimal string as text: a '-' is put in front of a
      value of zero or more, and taken off a negative one. */
  lemma NegateFixed4(e: string)
    requires IsFixed4(e) && (e[0] == '-' <==> Fixed4Value(e) < 0)
    ensures var t := if Fixed4Value(e) >= 0 then "-" + e else e[1..];
      IsFixed4(t) && Fixed4Value(t) == -Fixed4Value(e) && (t[0] == '-' <==> Fixed4Value(e) >= 0)
  {
    if Fixed4Value(e) >= 0 {
      var t := "-" + e;
      assert t[1..|t| - 5] == e[..|e| - 5];
      assert t[|t| - 4..] == e[|e| - 4..];
    } else {
      var t := e[1..];
      assert t[0] == e[1..|e| - 5][0];
      assert t[..|t| - 5] == e[1..|e| - 5];
      assert t[|t| - 4..] == e[|e| - 4..];
    }
  }

  /** Re-formatting a formatted value yields the identical text. */
  lemma Fmt4Idempotent(v: real)
    ensures Fmt4(Fixed4Value(Fmt4(v)) as real / 10000.0) == Fmt4(v)
  {
    var q := Round4(v);
    Round4Exact(q as real / 10000.0, q);
  }

  /** No character of a formatted value is a letter. */
  lemma Fixed4Chars(s: string)
    requires IsFixed4(s)
    ensures forall i :: 0 <= i < |s| ==> IsDigit(s[i]) || s[i] == '.' || s[i] == '-'
  {
    forall i | 0 <= i < |s|
      ensures IsDigit(s[i]) || s[i] == '.' || s[i] == '-'
    {
      if i > |s| - 5 {
        assert s[i] == s[|s| - 4..][i - (|s| - 4)];
      } else if i < |s| - 5 && i > 0 {
        if s[0] == '-' {
          assert s[i] == s[1..|s| - 5][i - 1];
        } else {
          assert s[i] == s[..|s| - 5][i];
        }
      } else if i == 0 && s[0] != '-' {
        assert s[0] == s[..|s| - 5][0];
      }
    }
  }

  /** The characters Python's `str.strip()` removes (the ASCII ones). */
  predicate IsSpace(c: char)
  {
    c == ' ' || c == '\t' || c == '\n' || c == '\r' || c == '\U{B}' || c == '\U{C}'
    || c == '\U{1C}' || c == '\U{1D}' || c == '\U{1E}' || c == '\U{1F}'
  }

  /** Python's `s.lstrip()`. */
  function TrimLeft(s: string): string
  {
    if s != [] && IsSpace(s[0]) then TrimLeft(s[1..]) else s
  }

  /** Python's `s.rstrip()`. */
  function TrimRight(s: string): string
  {
    if s != [] && IsSpace(s[|s| - 1]) then TrimRight(s[..|s| - 1]) else s
  }

  /** `lstrip()` removes a prefix made of white space and nothing more. */
  lemma {:induction false} TrimLeftShape(s: string)
    ensures |TrimLeft(s)| <= |s| && TrimLeft(s) == s[|s| - |TrimLeft(s)|..]
    ensures forall i :: 0 <= i < |s| - |TrimLeft(s)| ==> IsSpace(s[i])
    ensures TrimLeft(s) != [] ==> !IsSpace(TrimLeft(s)[0])
  {
    if s != [] && IsSpace(s[0]) {
      TrimLeftShape(s[1..]);
      assert s[1..][|s[1..]| - |TrimLeft(s)|..] == s[|s| - |TrimLeft(s)|..];
      forall i | 0 <= i < |s| - |TrimLeft(s)|
        ensures IsSpace(s[i])
      {
        if i > 0 {
          assert s[i] == s[1..][i - 1];
        }
      }
    }
  }

  /** `rstrip()` removes a suffix made of white space and nothing more. */
  lemma {:induction false} TrimRightShape(s: string)
    ensures |TrimRight(s)| <= |s| && TrimRight(s) == s[..|TrimRight(s)|]
    ensures forall i :: |TrimRight(s)| <= i < |s| ==> IsSpace(s[i])
    ensures TrimRight(s) != [] ==> !IsSpace(TrimRight(s)[|TrimRight(s)| - 1])
  {
    if s != [] && IsSpace(s[|s| - 1]) {
      var t := s[..|s| - 1];
      TrimRightShape(t);
      assert t[..|TrimRight(s)|] == s[..|TrimRight(s)|];
      forall i | |TrimRight(s)| <= i < |s|
        ensures IsSpace(s[i])
      {
        if i < |s| - 1 {
          assert s[i] == t[i];
        }
      }
    }
  }

  /** Python's `s.strip()`. */
  function Strip(s: string): string
  {
    TrimRight(TrimLeft(s))
  }

  /** A string that neither starts nor ends with white space is left alone by `strip()`. */
  lemma StripUnchanged(s: string)
    requires s != [] && !IsSpace(s[0]) && !IsSpace(s[|s| - 1])
    ensures Strip(s) == s
  {
  }

  /** Trailing white space of an appended part is all `strip()` can remove
      from the right of `a + b` when `a` ends in a non-space. */
  lemma {:induction false} TrimRightAppend(a: string, b: string)
    requires a != [] && !IsSpace(a[|a| - 1])
    ensures TrimRight(a + b) == a + TrimRight(b)
  {
    if b == [] {
      assert a + b == a;
    } else if IsSpace(b[|b| - 1]) {
      assert (a + b)[..|a + b| - 1] == a + b[..|b| - 1];
      TrimRightAppend(a, b[..|b| - 1]);
    }
  }

  /** `strip()` of a line that starts and ends in a non-space, followed by a
      separator ending in a non-space and free text: only the text's
      trailing white space goes. */
  lemma StripAfter(line: string, sep: string, text: string)
    requires line != [] && !IsSpace(line[0]) && !IsSpace(line[|line| - 1])
    requires sep != [] && !IsSpace(sep[|sep| - 1])
    ensures Strip(line + sep + text) == line + sep + TrimRight(text)
  {
    var s := line + sep + text;
    assert s == line + (sep + text);
    assert s[0] == line[0];
    assert TrimLeft(s) == s;
    TrimRightAppend(line, sep + text);
    TrimRightAppend(sep, text);
  }

  /** `strip()` of a line that starts and ends in a non-space, followed by
      any text: only the text's trailing white space goes. */
  lemma StripTail(line: string, text: string)
    requires line != [] && !IsSpace(line[0]) && !IsSpace(line[|line| - 1])
    ensures Strip(line + text) == line + TrimRight(text)
  {
    var s := line + text;
    assert s[0] == line[0];
    assert TrimLeft(s) == s;
    TrimRightAppend(line, text);
  }

  /** Python's `t in s` for strings. */
  predicate Contains(s: string, t: string)
  {
    exists i :: 0 <= i <= |s| - |t| && OccursAt(s, t, i)
  }

  predicate OccursAt(s: string, t: string, i: int)
    requires 0 <= i <= |s| - |t|
  {
    s[i..i + |t|] == t
  }
}
