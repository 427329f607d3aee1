/**
  The user-count specifier accepted on the command line: a Python integer literal as
  `int()` reads it, or such a literal followed by a one-character `k` unit meaning
  "thousands". `ParseInt` is the model of the built-in `int(str)`; `ParseNUsers` is
  the benchmark's own parser built on it.
 */
module UserCount {
  import opened Base

  /** The two ways the parser fails: `n_users[-1]` on the empty string raises
      `IndexError`; every other rejection raises `ValueError`. */
  datatype ParseError = IndexError | ValueError

  /** The characters `int()` strips around a literal: the six ASCII whitespace
      characters and the non-ASCII Unicode white space. The ASCII separators
      U+001C..U+001F are white space for `str.isspace` but not for `int()`. */
  predicate IsSpace(c: char)
  {
    var n := c as int;
    (9 <= n <= 13) || n == 32 || n == 0x85 || n == 0xA0 || n == 0x1680
    || (0x2000 <= n <= 0x200A) || n == 0x2028 || n == 0x2029
    || n == 0x202F || n == 0x205F || n == 0x3000
  }

  predicate AllSpace(s: string)
  {
    forall i :: 0 <= i < |s| ==> IsSpace(s[i])
  }

  predicate IsDigit(c: char)
  {
    '0' <= c <= '9'
  }

  /** Characters whose `lower()` is the one-letter string "k": the two ASCII letters
      and U+212A KELVIN SIGN. */
  predicate IsThousandsUnit(c: char)
  {
    c == 'k' || c == 'K' || c == '\U{212A}'
  }

  /** Number of white-space characters at the front of `s`. */
  function LeadingSpaces(s: string): (n: nat)
    ensures n <= |s|
    ensures AllSpace(s[..n])
    ensures n < |s| ==> !IsSpace(s[n])
  {
    if |s| == 0 || !IsSpace(s[0]) then 0
    else
      var m := LeadingSpaces(s[1..]);
      assert s[..m + 1] == [s[0]] + s[1..][..m];
      m + 1
  }

  /** Index at which the white space at the back of `s` begins. */
  function TrailingStart(s: string): (n: nat)
    ensures n <= |s|
    ensures AllSpace(s[n..])
    ensures n > 0 ==> !IsSpace(s[n - 1])
  {
    if |s| == 0 || !IsSpace(s[|s| - 1]) then |s|
    else
      var m := TrailingStart(s[..|s| - 1]);
      assert s[m..] == s[..|s| - 1][m..] + [s[|s| - 1]];
      m
  }

  /** `s` with white space removed at both ends; the result neither starts nor
      ends with white space. */
  function Strip(s: string): (t: string)
    ensures |t| <= |s|
    ensures |t| > 0 ==> !IsSpace(t[0]) && !IsSpace(t[|t| - 1])
  {
    var u := s[LeadingSpaces(s)..];
    u[..TrailingStart(u)]
  }

  /** Stripping removes white space only: the result is a slice of `s` and the
      parts cut off at either end are all white space. */
  lemma StripRemovesPadding(s: string)
    ensures exists lo, hi :: 0 <= lo <= hi <= |s| && Strip(s) == s[lo..hi]
                             && AllSpace(s[..lo]) && AllSpace(s[hi..])
  {
    var lo := LeadingSpaces(s);
    var u := s[lo..];
    var hi := TrailingStart(u);
    assert u[..hi] == s[lo..lo + hi];
    assert u[hi..] == s[lo + hi..];
  }

  /** A string that ends in a non-space character keeps that character last when stripped. */
  lemma StripKeepsLast(s: string)
    requires |s| > 0 && !IsSpace(s[|s| - 1])
    ensures |Strip(s)| > 0 && Strip(s)[|Strip(s)| - 1] == s[|s| - 1]
  {
    var lo := LeadingSpaces(s);
    var u := s[lo..];
    assert u[|u| - 1] == s[|s| - 1];
    assert TrailingStart(u) == |u|;
  }

  /** Stripping a string that neither starts nor ends with white space leaves it as it is. */
  lemma StripUnpadded(s: string)
    requires |s| > 0 && !IsSpace(s[0]) && !IsSpace(s[|s| - 1])
    ensures Strip(s) == s
  {
    assert LeadingSpaces(s) == 0;
    assert s[0..] == s;
    assert TrailingStart(s) == |s|;
  }

  /** A decimal digit run in the syntax `int()` accepts: it starts with a digit and
      every underscore sits immediately before a digit, so underscores are single
      and never leading or trailing. */
  predicate DigitRun(s: string)
  {
    && |s| > 0
    && IsDigit(s[0])
    && DigitsOrUnderscores(s)
    && forall i :: 0 <= i < |s| && s[i] == '_' ==> i + 1 < |s| && IsDigit(s[i + 1])
  }

  predicate DigitsOrUnderscores(s: string)
  {
    forall i :: 0 <= i < |s| ==> IsDigit(s[i]) || s[i] == '_'
  }

  /** A digit run ends in a digit. */
  lemma DigitRunEndsInDigit(s: string)
    requires DigitRun(s)
    ensures IsDigit(s[|s| - 1])
  {
    assert s[|s| - 1] == '_' ==> |s| - 1 + 1 < |s|;
  }

  /** The value of the digits of `s`, read in base 10, underscores skipped. */
  function Magnitude(s: string): nat
    requires DigitsOrUnderscores(s)
  {
    if |s| == 0 then 0
    else if s[|s| - 1] == '_' then Magnitude(s[..|s| - 1])
    else Magnitude(s[..|s| - 1]) * 10 + (s[|s| - 1] as int - '0' as int)
  }

  /** Python's `int(s)` for a `str` argument and base 10: surrounding white space
      is stripped, an optional `+` or `-` may precede the digit run, and any other
      content is rejected (`None`, where Python raises `ValueError`). */
  function ParseInt(s: string): Option<int>
  {
    var t := Strip(s);
    if |t| > 0 && (t[0] == '+' || t[0] == '-') then
      if DigitRun(t[1..]) then
        var m: int := Magnitude(t[1..]);
        Some(if t[0] == '-' then -m else m)
      else None
    else if DigitRun(t) then Some(Magnitude(t))
    else None
  }

  /** A string whose last character is a thousands unit is never an integer
      literal, so the two branches of the parser never compete. */
  lemma UnitSuffixIsNotInt(s: string)
    requires |s| > 0 && IsThousandsUnit(s[|s| - 1])
    ensures ParseInt(s) == None
  {
    StripKeepsLast(s);
    var t := Strip(s);
    if DigitRun(t) {
      DigitRunEndsInDigit(t);
    }
    if |t| > 1 && DigitRun(t[1..]) {
      DigitRunEndsInDigit(t[1..]);
    }
  }

  /** `_parse_n_users`: an integer literal maps to its value; otherwise a last
      character that lower-cases to `k` multiplies the literal before it by 1000;
      the empty string fails on `n_users[-1]`; anything else is a `ValueError`. */
  function ParseNUsers(s: string): (r: Result<int, ParseError>)
    ensures ParseInt(s).Some? ==> r == Success(ParseInt(s).value)
    ensures |s| > 0 && IsThousandsUnit(s[|s| - 1]) && ParseInt(s[..|s| - 1]).Some?
            ==> r == Success(1000 * ParseInt(s[..|s| - 1]).value)
    ensures |s| > 0 && IsThousandsUnit(s[|s| - 1]) && ParseInt(s[..|s| - 1]).None?
            ==> r == Failure(ValueError)
    ensures ParseInt(s).None? && |s| > 0 && !IsThousandsUnit(s[|s| - 1]) ==> r == Failure(ValueError)
    ensures s == [] <==> r == Failure(IndexError)
  {
    assert |s| > 0 && IsThousandsUnit(s[|s| - 1]) ==> ParseInt(s) == None by {
      if |s| > 0 && IsThousandsUnit(s[|s| - 1]) {
        UnitSuffixIsNotInt(s);
      }
    }
    assert |s| == 0 ==> Strip(s) == [];
    match ParseInt(s)
    case Some(v) => Success(v)
    case None =>
      if |s| == 0 then Failure(IndexError)
      else if IsThousandsUnit(s[|s| - 1]) then
        match ParseInt(s[..|s| - 1])
        case Some(p) => Success(1000 * p)
        case None => Failure(ValueError)
      else Failure(ValueError)
  }

  /** Decimal digits of a natural number, most significant first, no underscores. */
  function Digits(n: nat): string
  {
    if n < 10 then [('0' as int + n) as char]
    else Digits(n / 10) + [('0' as int + n % 10) as char]
  }

  /** The canonical decimal rendering of an integer, as Python's `str(n)`. */
  function Show(n: int): string
  {
    if n < 0 then ['-'] + Digits(-n) else Digits(n)
  }

  lemma {:induction false} DigitsRoundTrip(n: nat)
    ensures DigitRun(Digits(n))
    ensures forall i :: 0 <= i < |Digits(n)| ==> IsDigit(Digits(n)[i])
    ensures Magnitude(Digits(n)) == n
  {
    if n >= 10 {
      DigitsRoundTrip(n / 10);
      var d := Digits(n);
      assert d[..|d| - 1] == Digits(n / 10);
      assert forall i :: 0 <= i < |d| ==> IsDigit(d[i]) by {
        forall i | 0 <= i < |d| ensures IsDigit(d[i]) {
          if i < |d| - 1 {
            assert d[i] == Digits(n / 10)[i];
          }
        }
      }
    }
  }

  /** A bare digit run reads as its magnitude, and with a leading minus as its negation. */
  lemma ParseDigitRun(d: string)
    requires DigitRun(d)
    ensures ParseInt(d) == Some(Magnitude(d))
    ensures ParseInt(['-'] + d) == Some(-(Magnitude(d) as int))
  {
    DigitRunEndsInDigit(d);
    StripUnpadded(d);
    var s := ['-'] + d;
    assert s[1..] == d;
    assert s[|s| - 1] == d[|d| - 1];
    StripUnpadded(s);
  }

  /** `int(str(n)) == n` for every integer. */
  lemma ParseIntRoundTrip(n: int)
    ensures ParseInt(Show(n)) == Some(n)
  {
    var m := if n < 0 then -n else n;
    DigitsRoundTrip(m);
    ParseDigitRun(Digits(m));
  }

  /** Every integer written plainly is accepted as that many users. */
  lemma PlainCountRoundTrip(n: int)
    ensures ParseNUsers(Show(n)) == Success(n)
  {
    ParseIntRoundTrip(n);
  }

  /** Every integer followed by `k`, `K` or the Kelvin sign is accepted as that
      many thousand users. */
  lemma ThousandsRoundTrip(n: int, unit: char)
    requires IsThousandsUnit(unit)
    ensures ParseNUsers(Show(n) + [unit]) == Success(1000 * n)
  {
    ParseIntRoundTrip(n);
    var s := Show(n) + [unit];
    assert s[..|s| - 1] == Show(n);
  }

  /** Worked cases of the parser, including the edge cases of `int()`. */
  lemma PlainExample()
    ensures ParseNUsers("250") == Success(250)
  {
    assert DigitRun("250");
    assert Magnitude("250") == 250 by {
      assert "250"[..2] == "25";
      assert "25"[..1] == "2";
    }
    ParseDigitRun("250");
  }

  lemma ThousandsExamples()
    ensures ParseNUsers("2K") == Success(2000)
    ensures ParseNUsers("-3k") == Success(-3000)
  {
    ThousandsRoundTrip(2, 'K');
    ThousandsRoundTrip(-3, 'k');
    assert Show(2) + ['K'] == "2K";
    assert Show(-3) + ['k'] == "-3k";
  }

  lemma UnderscoreExample()
    ensures ParseInt(" 1_000 ") == Some(1000)
  {
    StripExample();
    DigitRunExample();
  }

  lemma StripExample()
    ensures Strip(" 1_000 ") == "1_000"
  {
    assert " 1_000 "[1..] == "1_000 ";
    assert LeadingSpaces("1_000 ") == 0;
    assert LeadingSpaces(" 1_000 ") == 1;
    assert "1_000 "[..5] == "1_000";
    assert TrailingStart("1_000") == 5;
    assert TrailingStart("1_000 ") == 5;
  }

  lemma DigitRunExample()
    ensures DigitRun("1_000") && Magnitude("1_000") == 1000
  {
    assert "1_000"[..4] == "1_00";
    assert "1_00"[..3] == "1_0";
    assert "1_0"[..2] == "1_";
    assert "1_"[..1] == "1";
  }

  lemma RejectedExamples()
    ensures ParseNUsers("2m") == Failure(ValueError)
    ensures ParseNUsers("k") == Failure(ValueError)
    ensures ParseNUsers("") == Failure(IndexError)
    ensures ParseNUsers("5k ") == Failure(ValueError)
  {
    assert ParseInt("2m") == None by {
      assert LeadingSpaces("2m") == 0;
      assert "2m"[0..] == "2m";
      assert TrailingStart("2m") == 2;
      assert "2m"[..2] == "2m";
      assert !DigitRun("2m") by { assert "2m"[1] == 'm'; }
    }
    assert ParseInt("") == None by {
      assert Strip("") == "";
    }
    assert ParseInt("5k ") == None by {
      assert LeadingSpaces("5k ") == 0;
      assert "5k "[0..] == "5k ";
      assert TrailingStart("5k ") == 2;
      assert "5k "[..2] == "5k";
      assert !DigitRun("5k") by { assert "5k"[1] == 'k'; }
    }
    assert !IsThousandsUnit("5k "[2]);
  }
}
