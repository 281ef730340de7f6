/**
 * The PHP string built-ins the order code relies on: `explode`, the leading
 * digit run that numeric comparison and integer coercion read, the digit-free
 * prefix that `strcspn` measures, and integer-to-string conversion.
 */
module Strings {
  import opened Wrappers

  predicate IsDigit(c: char) { '0' <= c <= '9' }

  predicate AllDigits(s: string) { forall i :: 0 <= i < |s| ==> IsDigit(s[i]) }

  function DigitValue(c: char): (d: nat)
    requires IsDigit(c)
    ensures d <= 9
  {
    c as int - '0' as int
  }

  function DigitChar(d: nat): (c: char)
    requires d <= 9
    ensures IsDigit(c) && DigitValue(c) == d
  {
    ('0' as int + d) as char
  }

  // ---------------------------------------------------------------- explode

  /** `explode(d, s)`: the pieces of `s` between the occurrences of `d`. */
  function Explode(s: string, d: char): (parts: seq<string>)
    ensures |parts| >= 1
    ensures forall i :: 0 <= i < |parts| ==> d !in parts[i]
    decreases |s|
  {
    if s == [] then [""]
    else
      var rest := Explode(s[1..], d);
      if s[0] == d then [""] + rest
      else [[s[0]] + rest[0]] + rest[1..]
  }

  /** `implode(d, parts)`: the pieces glued back with `d` between them. */
  function Join(parts: seq<string>, d: char): string
    requires |parts| >= 1
    decreases |parts|
  {
    if |parts| == 1 then parts[0] else parts[0] + [d] + Join(parts[1..], d)
  }

  /** Splitting loses nothing: gluing the pieces back gives the original string. */
  lemma {:induction false} JoinExplode(s: string, d: char)
    ensures Join(Explode(s, d), d) == s
    decreases |s|
  {
    if s != [] {
      JoinExplode(s[1..], d);
      var rest := Explode(s[1..], d);
      if s[0] == d {
        assert Explode(s, d)[1..] == rest;
        assert Join(Explode(s, d), d) == "" + [d] + Join(rest, d);
      } else if |rest| == 1 {
        assert Join(Explode(s, d), d) == [s[0]] + rest[0];
      } else {
        assert Explode(s, d)[1..] == rest[1..];
        assert Join(rest, d) == rest[0] + [d] + Join(rest[1..], d);
        assert Join(Explode(s, d), d) == [s[0]] + rest[0] + [d] + Join(rest[1..], d);
      }
    }
  }

  /** A piece without the delimiter is not split. */
  lemma {:induction false} ExplodeSingle(p: string, d: char)
    requires d !in p
    ensures Explode(p, d) == [p]
    decreases |p|
  {
    if p != [] {
      assert d !in p[1..] by { assert forall c :: c in p[1..] ==> c in p; }
      ExplodeSingle(p[1..], d);
      assert [p[0]] + p[1..] == p;
    }
  }

  /** A delimiter-free piece followed by the delimiter splits off as one piece. */
  lemma {:induction false} ExplodeCons(p: string, d: char, rest: string)
    requires d !in p
    ensures Explode(p + [d] + rest, d) == [p] + Explode(rest, d)
    decreases |p|
  {
    var s := p + [d] + rest;
    if p == [] {
      assert s[1..] == rest;
    } else {
      assert d !in p[1..] by { assert forall c :: c in p[1..] ==> c in p; }
      ExplodeCons(p[1..], d, rest);
      assert s[1..] == p[1..] + [d] + rest;
      assert [p[0]] + p[1..] == p;
    }
  }

  /** Splitting undoes gluing when no piece holds the delimiter. */
  lemma {:induction false} ExplodeJoin(parts: seq<string>, d: char)
    requires |parts| >= 1
    requires forall i :: 0 <= i < |parts| ==> d !in parts[i]
    ensures Explode(Join(parts, d), d) == parts
    decreases |parts|
  {
    if |parts| == 1 {
      ExplodeSingle(parts[0], d);
    } else {
      ExplodeJoin(parts[1..], d);
      ExplodeCons(parts[0], d, Join(parts[1..], d));
      assert [parts[0]] + parts[1..] == parts;
    }
  }

  /** A line of three fields joined by the delimiter splits into exactly those fields. */
  lemma ExplodeThree(a: string, b: string, c: string, d: char)
    requires d !in a && d !in b && d !in c
    ensures Explode(a + [d] + b + [d] + c, d) == [a, b, c]
  {
    assert a + [d] + b + [d] + c == a + [d] + (b + [d] + c);
    ExplodeCons(a, d, b + [d] + c);
    ExplodeCons(b, d, c);
    ExplodeSingle(c, d);
  }

  /** `$parts[i]` where a missing piece reads as the empty string, as PHP's null does in concatenation. */
  function Field(parts: seq<string>, i: nat): string
  {
    if i < |parts| then parts[i] else ""
  }

  // ------------------------------------------------------------ digit runs

  /** Length of the run of digits at the start of `s`. */
  function DigitRun(s: string): (n: nat)
    ensures n <= |s| && AllDigits(s[..n])
    ensures n < |s| ==> !IsDigit(s[n])
    decreases |s|
  {
    if s != [] && IsDigit(s[0]) then 1 + DigitRun(s[1..]) else 0
  }

  /** `strcspn(s, "0123456789")`: length of the run of non-digits at the start of `s`. */
  function NonDigitRun(s: string): (n: nat)
    ensures n <= |s|
    ensures forall i :: 0 <= i < n ==> !IsDigit(s[i])
    ensures n < |s| ==> IsDigit(s[n])
    decreases |s|
  {
    if s != [] && !IsDigit(s[0]) then 1 + NonDigitRun(s[1..]) else 0
  }

  /** The number a string of decimal digits denotes. */
  function NumberValue(ds: string): nat
    requires AllDigits(ds)
    decreases |ds|
  {
    if ds == [] then 0 else 10 * NumberValue(ds[..|ds| - 1]) + DigitValue(ds[|ds| - 1])
  }

  /** The number written by the leading digits of `s` (0 when there are none). */
  function LeadingNat(s: string): nat
  {
    NumberValue(s[..DigitRun(s)])
  }

  /** The decimal digits of `n`, without leading zeros. */
  function Decimal(n: nat): (s: string)
    ensures |s| >= 1 && AllDigits(s)
    decreases n
  {
    if n < 10 then [DigitChar(n)] else Decimal(n / 10) + [DigitChar(n % 10)]
  }

  lemma {:induction false} DecimalValue(n: nat)
    ensures NumberValue(Decimal(n)) == n
    decreases n
  {
    if n >= 10 {
      DecimalValue(n / 10);
      var s := Decimal(n);
      assert s[..|s| - 1] == Decimal(n / 10);
    }
  }

  /** The digit run of a string is exactly the digits it starts with. */
  lemma DigitRunOfPrefix(ds: string, rest: string)
    requires AllDigits(ds)
    requires rest == [] || !IsDigit(rest[0])
    ensures DigitRun(ds + rest) == |ds|
  {
    var s := ds + rest;
    assert forall i :: 0 <= i < |ds| ==> s[i] == ds[i];
    if |ds| < |s| {
      assert s[|ds|] == rest[0];
    }
  }

  /** Reading the leading number back from a decimal followed by a non-digit gives the number. */
  lemma LeadingNatOfDecimal(n: nat, rest: string)
    requires rest == [] || !IsDigit(rest[0])
    ensures LeadingNat(Decimal(n) + rest) == n
  {
    DigitRunOfPrefix(Decimal(n), rest);
    assert (Decimal(n) + rest)[..|Decimal(n)|] == Decimal(n);
    DecimalValue(n);
  }

  // ------------------------------------------------- integers and strings

  /** PHP's conversion of an integer to a string. */
  function IntText(i: int): string
  {
    if i < 0 then "-" + Decimal(-i) else Decimal(i)
  }

  /** An integer literal (an optional minus sign and at least one digit), as an `int` parameter accepts it. */
  function ParseInt(s: string): (r: Option<int>)
    ensures r.Some? ==> |s| >= 1
  {
    if |s| >= 2 && s[0] == '-' && AllDigits(s[1..]) then Some(-(NumberValue(s[1..]) as int))
    else if |s| >= 1 && AllDigits(s) then Some(NumberValue(s))
    else None
  }

  /** Every integer survives the trip to text and back. */
  lemma ParseIntText(i: int)
    ensures ParseInt(IntText(i)) == Some(i)
  {
    var s := IntText(i);
    if i < 0 {
      var d := Decimal(-i);
      assert s == "-" + d;
      assert s[1..] == d;
      DecimalValue(-i);
    } else {
      assert s == Decimal(i);
      assert IsDigit(s[0]);
      DecimalValue(i);
    }
  }

}
