/**
 * The visitor demo: increment operations, kept in one shared object, bound into a number
 * holder, a numeric-string holder and a number-list holder; each touches only its own field.
 */
module Visitor {
  import opened Wrappers

  // ---------------------------------------------------------------------------
  // numerals: `parseInt` and `String` on integers

  /** The white space `parseInt` skips before the number (the ASCII subset). */
  predicate IsSpace(c: char)
  {
    c == ' ' || c == '\t' || c == '\n' || c == '\r'
  }

  /** The two radices `parseInt` reads here: decimal and, after `0x`, hexadecimal. */
  type Radix = r: nat | r == 10 || r == 16 witness 10

  /** `c` is a digit in `radix` (hexadecimal letters in either case). */
  predicate IsDigit(c: char, radix: Radix)
  {
    ('0' <= c <= '9') || (radix == 16 && (('a' <= c <= 'f') || ('A' <= c <= 'F')))
  }

  function DigitValue(c: char, radix: Radix): (d: nat)
    requires IsDigit(c, radix)
    ensures d < radix
  {
    if '0' <= c <= '9' then c as int - '0' as int
    else if 'a' <= c <= 'f' then c as int - 'a' as int + 10
    else c as int - 'A' as int + 10
  }

  predicate AllDigits(ds: string, radix: Radix)
  {
    forall i | 0 <= i < |ds| :: IsDigit(ds[i], radix)
  }

  /** The value of a numeral, most significant digit first. */
  function DigitsValue(ds: string, radix: Radix): nat
    requires AllDigits(ds, radix)
  {
    if ds == [] then 0 else DigitsValue(ds[..|ds| - 1], radix) * radix + DigitValue(ds[|ds| - 1], radix)
  }

  /** `s` without its leading white space. */
  function TrimStart(s: string): string
  {
    if s != [] && IsSpace(s[0]) then TrimStart(s[1..]) else s
  }

  /** Trimming drops a prefix made only of white space, and what is left starts with none. */
  lemma {:induction false} TrimStartDropsSpace(s: string)
    ensures |TrimStart(s)| <= |s| && TrimStart(s) == s[|s| - |TrimStart(s)|..]
    ensures forall i | 0 <= i < |s| - |TrimStart(s)| :: IsSpace(s[i])
    ensures TrimStart(s) == [] || !IsSpace(TrimStart(s)[0])
  {
    if s != [] && IsSpace(s[0]) {
      var t := TrimStart(s[1..]);
      TrimStartDropsSpace(s[1..]);
      assert s[1..][|s[1..]| - |t|..] == s[|s| - |t|..];
      forall i | 0 <= i < |s| - |t|
        ensures IsSpace(s[i])
      {
        if i > 0 {
          assert s[i] == s[1..][i - 1];
        }
      }
    }
  }

  /** The longest prefix of `s` made of digits in `radix`. */
  function LeadingDigits(s: string, radix: Radix): (ds: string)
    ensures AllDigits(ds, radix)
  {
    if s == [] || !IsDigit(s[0], radix) then [] else [s[0]] + LeadingDigits(s[1..], radix)
  }

  /** The digit run is a prefix of `s`, and the character after it, if any, is not a digit. */
  lemma {:induction false} LeadingDigitsLongest(s: string, radix: Radix)
    ensures LeadingDigits(s, radix) <= s
    ensures |LeadingDigits(s, radix)| < |s| ==> !IsDigit(s[|LeadingDigits(s, radix)|], radix)
  {
    if s != [] && IsDigit(s[0], radix) {
      LeadingDigitsLongest(s[1..], radix);
    }
  }

  /** The digits and radix `parseInt` reads after the sign: a `0x`/`0X` prefix selects 16. */
  function RadixAndDigits(s: string): (string, Radix)
  {
    if |s| >= 2 && s[0] == '0' && (s[1] == 'x' || s[1] == 'X') then (s[2..], 16) else (s, 10)
  }

  /** The number after the sign: an optional hexadecimal prefix, then the longest run of digits. */
  function ParseUnsigned(u: string): Option<nat>
  {
    var (body, radix) := RadixAndDigits(u);
    var ds := LeadingDigits(body, radix);
    if ds == [] then None else Some(DigitsValue(ds, radix))
  }

  /**
   * `parseInt` with no radix argument: skips leading white space and reads an optional sign
   * before the unsigned number; with no digit the result is `NaN` (`None`).
   */
  function ParseInt(s: string): Option<int>
  {
    var t := TrimStart(s);
    if t != [] && t[0] == '-' then
      match ParseUnsigned(t[1..])
      case None => None
      case Some(v) => Some(-(v as int))
    else if t != [] && t[0] == '+' then ParseUnsigned(t[1..])
    else ParseUnsigned(t)
  }

  /** The digit for `d` in 0..9. */
  function DecimalDigit(d: nat): (c: char)
    requires d < 10
    ensures IsDigit(c, 10) && DigitValue(c, 10) == d
  {
    ('0' as int + d) as char
  }

  /** `String(n)` for a natural number: its decimal numeral, with no leading zero. */
  function DecimalString(n: nat): (s: string)
    ensures |s| >= 1 && AllDigits(s, 10)
    ensures n >= 10 ==> s[0] != '0'
    ensures n < 10 ==> |s| == 1
  {
    if n < 10 then [DecimalDigit(n)] else DecimalString(n / 10) + [DecimalDigit(n % 10)]
  }

  /** `String(i)` for an integer. */
  function IntString(i: int): string
  {
    if i < 0 then "-" + DecimalString(-i) else DecimalString(i)
  }

  /** Reading a decimal numeral back gives the number it was written from. */
  lemma {:induction false} DecimalRoundTrip(n: nat)
    ensures DigitsValue(DecimalString(n), 10) == n
  {
    if n >= 10 {
      var s := DecimalString(n);
      DecimalRoundTrip(n / 10);
      assert s[..|s| - 1] == DecimalString(n / 10);
    }
  }

  /** A decimal digit string has no hexadecimal prefix. */
  lemma DecimalRadix(ds: string)
    requires AllDigits(ds, 10)
    ensures RadixAndDigits(ds) == (ds, 10)
  {
    if |ds| >= 2 {
      assert IsDigit(ds[1], 10);
    }
  }

  /** After the sign, a non-empty decimal digit string is read whole, as its value. */
  lemma ParseUnsignedDecimal(ds: string)
    requires ds != [] && AllDigits(ds, 10)
    ensures ParseUnsigned(ds) == Some(DigitsValue(ds, 10))
  {
    DecimalRadix(ds);
    DigitsAreLeading(ds);
  }

  /** A string that starts with neither white space nor a sign is read as an unsigned number. */
  lemma ParseIntPlain(u: string)
    requires u != [] && !IsSpace(u[0]) && u[0] != '-' && u[0] != '+'
    ensures ParseInt(u) == ParseUnsigned(u)
  {
  }

  /** A minus sign negates the unsigned number after it. */
  lemma ParseIntMinus(u: string)
    requires ParseUnsigned(u).Some?
    ensures ParseInt("-" + u) == Some(-(ParseUnsigned(u).value as int))
  {
    var t := "-" + u;
    assert TrimStart(t) == t;
    assert t[1..] == u;
  }

  /** `parseInt` reads a non-empty decimal digit string as its value. */
  lemma ParseDigits(ds: string)
    requires ds != [] && AllDigits(ds, 10)
    ensures ParseInt(ds) == Some(DigitsValue(ds, 10))
  {
    assert IsDigit(ds[0], 10);
    ParseIntPlain(ds);
    ParseUnsignedDecimal(ds);
  }

  /** `parseInt` reads the numeral of a natural number as that number. */
  lemma ParseNatural(n: nat)
    ensures ParseInt(DecimalString(n)) == Some(n)
  {
    DecimalRoundTrip(n);
    ParseDigits(DecimalString(n));
  }

  /** After the sign, the numeral of `n` is read as `n`. */
  lemma ParseUnsignedNumeral(n: nat)
    ensures ParseUnsigned(DecimalString(n)) == Some(n)
  {
    DecimalRoundTrip(n);
    ParseUnsignedDecimal(DecimalString(n));
  }

  /** `parseInt` reads a minus sign before the numeral of `n` as `-n`. */
  lemma ParseNegated(n: nat)
    ensures ParseInt("-" + DecimalString(n)) == Some(-(n as int))
  {
    ParseUnsignedNumeral(n);
    ParseIntMinus(DecimalString(n));
  }

  /** `parseInt` reads every numeral `String` writes. */
  lemma ParseIntString(i: int)
    ensures ParseInt(IntString(i)) == Some(i)
  {
    if i < 0 {
      ParseNegated(-i);
    } else {
      ParseNatural(i);
    }
  }

  /** A string of digits is its own longest digit prefix. */
  lemma {:induction false} DigitsAreLeading(ds: string)
    requires AllDigits(ds, 10)
    ensures LeadingDigits(ds, 10) == ds
  {
    if ds != [] {
      DigitsAreLeading(ds[1..]);
    }
  }

  /** `String(parseInt(s) + 1)`: the string increment; `NaN` stays `'NaN'`. */
  function IncrementString(s: string): string
  {
    match ParseInt(s)
    case None => "NaN"
    case Some(n) => IntString(n + 1)
  }

  /** On the numeral of an integer, the increment gives the numeral of the next integer. */
  lemma IncrementNumeral(i: int)
    ensures IncrementString(IntString(i)) == IntString(i + 1)
  {
    ParseIntString(i);
  }

  /** On any decimal digit string (leading zeros allowed), the increment writes its value plus one. */
  lemma IncrementDigits(ds: string)
    requires ds != [] && AllDigits(ds, 10)
    ensures IncrementString(ds) == DecimalString(DigitsValue(ds, 10) + 1)
  {
    var v := DigitsValue(ds, 10);
    ParseDigits(ds);
    assert IncrementString(ds) == IntString(v + 1);
  }

  /** A string that starts with neither white space, a sign nor a digit increments to `'NaN'`. */
  lemma IncrementNotANumber(s: string)
    requires s != [] && !IsSpace(s[0]) && !IsDigit(s[0], 10) && s[0] != '-' && s[0] != '+'
    ensures IncrementString(s) == "NaN"
  {
  }

  // ---------------------------------------------------------------------------
  // the holders

  /** `item + 1` on every element, in order. */
  function Incremented(items: seq<int>): (r: seq<int>)
    ensures |r| == |items|
    ensures forall i | 0 <= i < |r| :: r[i] == items[i] + 1
  {
    seq(|items|, i requires 0 <= i < |items| => items[i] + 1)
  }

  /** Incrementing element-wise commutes with concatenation. */
  lemma IncrementedAppend(a: seq<int>, b: seq<int>)
    ensures Incremented(a + b) == Incremented(a) + Incremented(b)
  {
  }

  /** `CustomNumber`: `increment` adds one to its number. */
  class CustomNumber {
    var number: int

    constructor (number: int)
      ensures this.number == number
    {
      this.number := number;
    }

    method Increment()
      modifies this`number
      ensures number == old(number) + 1
    {
      number := number + 1;
    }
  }

  /** `CustomString`: `increment` replaces its string by `String(parseInt(string) + 1)`. */
  class CustomString {
    var str: string

    constructor (str: string)
      ensures this.str == str
    {
      this.str := str;
    }

    method Increment()
      modifies this`str
      ensures str == IncrementString(old(str))
    {
      str := IncrementString(str);
    }
  }

  /** `CustomArray`: `increment` adds one to every element and ignores its argument. */
  class CustomArray {
    var items: seq<int>

    constructor (items: seq<int>)
      ensures this.items == items
    {
      this.items := items;
    }

    method Increment(ignored: seq<int>)
      modifies this`items
      ensures items == Incremented(old(items))
    {
      items := Incremented(items);
    }
  }

  /** The demo's string increment: `'5'` becomes `'6'`. */
  lemma DemoStringIncrement()
    ensures IncrementString("5") == "6"
  {
    IncrementNumeral(5);
    assert IntString(5) == "5";
    assert IntString(6) == "6";
  }

  /**
   * The demo: after one `increment` each the holders show 6, `'6'` and `[2, 3, 4]`, and
   * incrementing one holder leaves the others as they were.
   */
  method VisitorUsage() returns (n: int, s: string, a: seq<int>)
    ensures n == 6 && s == "6" && a == [2, 3, 4]
  {
    var number := new CustomNumber(5);
    var text := new CustomString("5");
    var list := new CustomArray([1, 2, 3]);
    number.Increment();
    assert text.str == "5" && list.items == [1, 2, 3];
    text.Increment();
    list.Increment([]);
    DemoStringIncrement();
    n, s, a := number.number, text.str, list.items;
  }
}
