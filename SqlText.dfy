/** Text pieces of the generated SQL script: the doubling of single quotes
    inside a character-string literal (a quote inside a literal is written as
    two quotes, subclause 5.3 of ISO/IEC 9075-2), and the decimal rendering of
    the integers the script interpolates. */
module SqlText {

  const Quote: char := '\''

  /** Number of single quotes in `s`. */
  function QuoteCount(s: string): nat
  {
    if s == [] then 0 else (if s[0] == Quote then 1 else 0) + QuoteCount(s[1..])
  }

  /** Python's `s.replace("'", "''")`: every quote becomes two quotes. */
  function Escape(s: string): (r: string)
    ensures |r| == |s| + QuoteCount(s)
    ensures QuoteCount(r) == 2 * QuoteCount(s)
  {
    if s == [] then []
    else
      var rest := Escape(s[1..]);
      if s[0] == Quote then
        var r := [Quote, Quote] + rest;
        assert r[1..] == [Quote] + rest && r[2..] == rest;
        r
      else
        var r := [s[0]] + rest;
        assert r[1..] == rest;
        r
  }

  /** A valid literal body: quotes only occur as adjacent pairs, read left to right. */
  predicate QuotesPaired(t: string)
  {
    if t == [] then true
    else if t[0] == Quote then |t| >= 2 && t[1] == Quote && QuotesPaired(t[2..])
    else QuotesPaired(t[1..])
  }

  /** What a SQL reader makes of a literal body: each `''` collapses back to `'`. */
  function Unescape(t: string): (r: string)
    ensures |r| <= |t|
  {
    if t == [] then []
    else if t[0] == Quote && |t| >= 2 && t[1] == Quote then [Quote] + Unescape(t[2..])
    else [t[0]] + Unescape(t[1..])
  }

  /** An escaped text is always a valid literal body. */
  lemma {:induction false} EscapedIsPaired(s: string)
    ensures QuotesPaired(Escape(s))
  {
    if s != [] {
      EscapedIsPaired(s[1..]);
      var r := Escape(s);
      if s[0] == Quote {
        assert r[2..] == Escape(s[1..]);
      } else {
        assert r[1..] == Escape(s[1..]);
      }
    }
  }

  /** Reading an escaped text back gives the original text. */
  lemma {:induction false} UnescapeEscape(s: string)
    ensures Unescape(Escape(s)) == s
  {
    if s != [] {
      UnescapeEscape(s[1..]);
      var r := Escape(s);
      if s[0] == Quote {
        assert r[2..] == Escape(s[1..]);
      } else {
        assert r[1..] == Escape(s[1..]);
      }
      assert s == [s[0]] + s[1..];
    }
  }

  /** Conversely every valid literal body is the escape of what it reads as,
      so escaping is a bijection between texts and valid literal bodies. */
  lemma {:induction false} EscapeUnescape(t: string)
    requires QuotesPaired(t)
    ensures Escape(Unescape(t)) == t
  {
    if t != [] {
      if t[0] == Quote {
        EscapeUnescape(t[2..]);
        assert Unescape(t) == [Quote] + Unescape(t[2..]);
        assert (Escape(Unescape(t))) == [Quote, Quote] + Escape(Unescape(t[2..]));
        assert t == [t[0], t[1]] + t[2..];
      } else {
        EscapeUnescape(t[1..]);
        assert Unescape(t) == [t[0]] + Unescape(t[1..]);
        assert t == [t[0]] + t[1..];
      }
    }
  }

  // ---------------------------------------------------------------------
  // Decimal integers, as an f-string renders them

  predicate IsDigit(c: char) { '0' <= c <= '9' }

  function DigitChar(d: nat): (c: char)
    requires d < 10
    ensures IsDigit(c) && (c as int) - ('0' as int) == d
  {
    ('0' as int + d) as char
  }

  /** `str(n)` for a non-negative integer: its decimal digits, no sign, no leading zero. */
  function NatString(n: nat): (s: string)
    ensures |s| >= 1 && forall i :: 0 <= i < |s| ==> IsDigit(s[i])
    ensures s[0] == '0' ==> n == 0
  {
    if n < 10 then [DigitChar(n)] else NatString(n / 10) + [DigitChar(n % 10)]
  }

  /** The value of a string of decimal digits. */
  function DigitsValue(s: string): nat
    requires forall i :: 0 <= i < |s| ==> IsDigit(s[i])
  {
    if s == [] then 0
    else
      assert IsDigit(s[|s| - 1]);
      DigitsValue(s[..|s| - 1]) * 10 + ((s[|s| - 1] as int) - ('0' as int))
  }

  /** Reading the rendered digits back gives the number. */
  lemma {:induction false} NatStringValue(n: nat)
    ensures DigitsValue(NatString(n)) == n
  {
    if n >= 10 {
      NatStringValue(n / 10);
      var s := NatString(n);
      assert s[..|s| - 1] == NatString(n / 10);
    }
  }
}
