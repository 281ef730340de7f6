/**
 * The three regular expressions the order constructor matches its fields
 * against (src/Input.php:128, :133, :147), written out as predicates over
 * characters, and the anchoring rule of PCRE's `^…$`.
 */
module Patterns {
  import opened Strings

  /**
   * `preg_match('#^P$#', s)`: without the D modifier, PCRE's `$` matches at the
   * end of the subject and also just before a newline that ends it.
   */
  predicate WholeMatch(shape: string -> bool, s: string)
  {
    shape(s) || (|s| >= 1 && s[|s| - 1] == '\n' && shape(s[..|s| - 1]))
  }

  /** The text the pattern itself matched: `s` less the final newline `$` lets through. */
  function Matched(shape: string -> bool, s: string): (m: string)
    requires WholeMatch(shape, s)
    ensures shape(m)
    ensures s == m || s == m + "\n"
  {
    if shape(s) then s else s[..|s| - 1]
  }

  function TwoDigitValue(a: char, b: char): nat
    requires IsDigit(a) && IsDigit(b)
  {
    10 * DigitValue(a) + DigitValue(b)
  }

  /** `n` written with two digits, with a leading zero below 10. */
  function TwoDigits(n: nat): (s: string)
    requires n <= 99
    ensures |s| == 2 && IsDigit(s[0]) && IsDigit(s[1]) && TwoDigitValue(s[0], s[1]) == n
  {
    [DigitChar(n / 10), DigitChar(n % 10)]
  }

  /** Every pair of digits is the two-digit writing of its value. */
  lemma TwoDigitsOfValue(a: char, b: char)
    requires IsDigit(a) && IsDigit(b)
    ensures TwoDigits(TwoDigitValue(a, b)) == [a, b]
  {
    var n := TwoDigitValue(a, b);
    assert n / 10 == DigitValue(a) && n % 10 == DigitValue(b);
  }

  // ------------------------------------------------------------------ date

  /** `3[01]|[12][0-9]|0[1-9]` */
  predicate DayDigits(a: char, b: char)
  {
    (a == '3' && (b == '0' || b == '1')) || ((a == '1' || a == '2') && IsDigit(b)) || (a == '0' && '1' <= b <= '9')
  }

  /** `1[0-2]|0[1-9]` */
  predicate MonthDigits(a: char, b: char)
  {
    (a == '1' && '0' <= b <= '2') || (a == '0' && '1' <= b <= '9')
  }

  /**
   * `(3[01]|[12][0-9]|0[1-9])/(1[0-2]|0[1-9])/[0-9]{2}`: two-digit day 01 to 31,
   * two-digit month 01 to 12 and exactly two year digits, separated by slashes.
   */
  predicate DateShape(s: string)
    ensures DateShape(s) <==>
      && |s| == 8 && s[2] == '/' && s[5] == '/'
      && IsDigit(s[0]) && IsDigit(s[1]) && IsDigit(s[3]) && IsDigit(s[4]) && IsDigit(s[6]) && IsDigit(s[7])
      && 1 <= TwoDigitValue(s[0], s[1]) <= 31
      && 1 <= TwoDigitValue(s[3], s[4]) <= 12
  {
    && |s| == 8
    && DayDigits(s[0], s[1]) && s[2] == '/'
    && MonthDigits(s[3], s[4]) && s[5] == '/'
    && IsDigit(s[6]) && IsDigit(s[7])
  }

  // ------------------------------------------------------------------ time

  /** `0[0-9]|1[0-9]|2[0-3]` */
  predicate HourDigits(a: char, b: char)
  {
    ((a == '0' || a == '1') && IsDigit(b)) || (a == '2' && '0' <= b <= '3')
  }

  /** `:[0-5][0-9]` at position `i` and ending the string */
  predicate MinutesAt(s: string, i: nat)
  {
    i + 3 == |s| && s[i] == ':' && '0' <= s[i + 1] <= '5' && IsDigit(s[i + 2])
  }

  /**
   * `([0-9]|0[0-9]|1[0-9]|2[0-3]):[0-5][0-9]`: an hour of one digit, or of two
   * digits up to 23, a colon, and two-digit minutes up to 59.
   */
  predicate TimeShape(s: string)
    ensures TimeShape(s) <==>
      && (|s| == 4 || |s| == 5)
      && AllDigits(s[..|s| - 3]) && NumberValue(s[..|s| - 3]) <= 23
      && s[|s| - 3] == ':' && IsDigit(s[|s| - 2]) && IsDigit(s[|s| - 1])
      && TwoDigitValue(s[|s| - 2], s[|s| - 1]) <= 59
  {
    if |s| == 4 || |s| == 5 then
      HourText(s[..|s| - 3]);
      (|s| == 4 && IsDigit(s[0]) && MinutesAt(s, 1)) || (|s| == 5 && HourDigits(s[0], s[1]) && MinutesAt(s, 2))
    else
      false
  }

  /** The value of a one- or two-digit hour. */
  lemma HourText(h: string)
    requires |h| == 1 || |h| == 2
    ensures |h| == 1 && IsDigit(h[0]) ==> NumberValue(h) == DigitValue(h[0])
    ensures |h| == 2 && IsDigit(h[0]) && IsDigit(h[1]) ==> NumberValue(h) == TwoDigitValue(h[0], h[1])
  {
    if |h| == 2 {
      assert h[..1][..0] == [];
    } else {
      assert h[..0] == [];
    }
  }

  // -------------------------------------------------------------- postcode

  predicate IsUpper(c: char) { 'A' <= c <= 'Z' }

  /** `[A-PR-UWYZ]`: the first letter of the area */
  predicate AreaLetter(c: char)
  {
    ('A' <= c <= 'P') || ('R' <= c <= 'U') || c == 'W' || c == 'Y' || c == 'Z'
  }

  /** `[A-HK-Y]`: the second letter of a two-letter area */
  predicate SecondAreaLetter(c: char)
  {
    ('A' <= c <= 'H') || ('K' <= c <= 'Y')
  }

  /** `[0-9ABEHMNPRV-Y]`: what may follow the district digit of a two-letter area */
  predicate DistrictSuffix(c: char)
  {
    IsDigit(c) || c == 'A' || c == 'B' || c == 'E' || c == 'H' || c == 'M' || c == 'N' || c == 'P' || c == 'R'
    || ('V' <= c <= 'Y')
  }

  /** `[A-HJKPS-UW]`: the letter that may follow the district digit of a one-letter area */
  predicate DistrictLetter(c: char)
  {
    ('A' <= c <= 'H') || c == 'J' || c == 'K' || c == 'P' || ('S' <= c <= 'U') || c == 'W'
  }

  /** `[ABD-HJLNP-UW-Z]`: the two letters that end the inward code */
  predicate InwardLetter(c: char)
  {
    c == 'A' || c == 'B' || ('D' <= c <= 'H') || c == 'J' || c == 'L' || c == 'N' || ('P' <= c <= 'U')
    || ('W' <= c <= 'Z')
  }

  /** `[0-9]{1,2}|([A-HK-Y][0-9]([0-9ABEHMNPRV-Y])?)|[0-9][A-HJKPS-UW]`: what follows the area's first letter */
  predicate DistrictShape(m: string)
  {
    || (|m| == 1 && IsDigit(m[0]))
    || (|m| == 2 && IsDigit(m[0]) && IsDigit(m[1]))
    || (|m| == 2 && SecondAreaLetter(m[0]) && IsDigit(m[1]))
    || (|m| == 3 && SecondAreaLetter(m[0]) && IsDigit(m[1]) && DistrictSuffix(m[2]))
    || (|m| == 2 && IsDigit(m[0]) && DistrictLetter(m[1]))
  }

  /**
   * `GIR ?0AA|[A-PR-UWYZ](…)[0-9][ABD-HJLNP-UW-Z]{2}`: the fixed Girobank code,
   * or an area letter, the rest of the outward code and a digit and two letters.
   */
  predicate PostcodeShape(s: string)
  {
    || s == "GIR0AA" || s == "GIR 0AA"
    || (&& 5 <= |s| <= 7
        && AreaLetter(s[0])
        && DistrictShape(s[1..|s| - 3])
        && IsDigit(s[|s| - 3]) && InwardLetter(s[|s| - 2]) && InwardLetter(s[|s| - 1]))
  }

  /** Every character of an accepted postcode is an upper-case letter or a digit, bar the two exceptions. */
  lemma PostcodeCharacters(s: string, i: nat)
    requires WholeMatch(PostcodeShape, s) && i < |s|
    ensures IsUpper(s[i]) || IsDigit(s[i]) || (s[i] == ' ' && i == 3) || (s[i] == '\n' && i == |s| - 1)
  {
    var m := Matched(PostcodeShape, s);
    if i < |m| {
      assert s[i] == m[i];
      if m != "GIR0AA" && m != "GIR 0AA" && 1 <= i < |m| - 3 {
        assert m[i] == m[1..|m| - 3][i - 1];
      }
    }
  }

  /** Accepted postcodes hold no lower-case letter: `nw43qb` is refused. */
  lemma PostcodeIsUpperCase(s: string)
    requires WholeMatch(PostcodeShape, s)
    ensures forall i :: 0 <= i < |s| ==> !('a' <= s[i] <= 'z')
  {
    forall i | 0 <= i < |s| ensures !('a' <= s[i] <= 'z') {
      PostcodeCharacters(s, i);
    }
  }

  /** The only accepted postcode with a space is the Girobank code: `NW4 3QB` is refused. */
  lemma PostcodeSpace(s: string)
    requires WholeMatch(PostcodeShape, s) && ' ' in s
    ensures s == "GIR 0AA" || s == "GIR 0AA\n"
  {
    var i :| 0 <= i < |s| && s[i] == ' ';
    var m := Matched(PostcodeShape, s);
    PostcodeCharacters(s, i);
    assert |m| == 7 ==> m[1..|m| - 3][2] == m[3];
  }
}
