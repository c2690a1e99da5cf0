/**
 * Decimal integers as text: the digit scan behind Rust's `str::parse` for the
 * signed integer types (used by controller/src/values.rs and by
 * `parse_number` in src/parser/basics.rs), and the canonical rendering it
 * inverts.
 */
module Decimal {
  import opened Wrappers

  /** The ranges of Rust's `i16`, `i32` and `i64`. */
  const I16_MIN: int := -0x8000
  const I16_MAX: int := 0x7fff
  const I32_MIN: int := -0x8000_0000
  const I32_MAX: int := 0x7fff_ffff
  const I64_MIN: int := -0x8000_0000_0000_0000
  const I64_MAX: int := 0x7fff_ffff_ffff_ffff

  predicate IsDigit(c: char) {
    '0' <= c <= '9'
  }

  predicate AllDigits(s: string) {
    forall i :: 0 <= i < |s| ==> IsDigit(s[i])
  }

  function DigitValue(c: char): nat
    requires IsDigit(c)
  {
    c as int - '0' as int
  }

  function DigitChar(d: nat): (c: char)
    requires d < 10
    ensures IsDigit(c) && DigitValue(c) == d
  {
    ('0' as int + d) as char
  }

  /** The number a string of digits denotes, read left to right after `acc`. */
  function Fold(acc: nat, s: string): nat
    requires AllDigits(s)
    decreases s
  {
    if s == [] then acc else Fold(acc * 10 + DigitValue(s[0]), s[1..])
  }

  datatype ScanError = InvalidDigit | Overflow

  /**
   * The digit loop of `from_str_radix`: left to right, a non-digit is reported
   * before the overflow check of the same position, and the running value must
   * stay within `limit` after every digit.
   */
  function Scan(s: string, acc: nat, limit: nat): (r: Result<nat, ScanError>)
    requires acc <= limit
    ensures r.Ok? ==> r.value <= limit
  {
    if s == [] then Ok(acc)
    else if !IsDigit(s[0]) then Err(InvalidDigit)
    else
      var v := acc * 10 + DigitValue(s[0]);
      if v > limit then Err(Overflow) else Scan(s[1..], v, limit)
  }

  lemma {:induction false} FoldGrows(acc: nat, s: string)
    requires AllDigits(s)
    ensures Fold(acc, s) >= acc
    decreases s
  {
    if s != [] {
      FoldGrows(acc * 10 + DigitValue(s[0]), s[1..]);
    }
  }

  lemma {:induction false} FoldSnoc(acc: nat, s: string, c: char)
    requires AllDigits(s) && IsDigit(c)
    ensures AllDigits(s + [c])
    ensures Fold(acc, s + [c]) == Fold(acc, s) * 10 + DigitValue(c)
    decreases s
  {
    if s != [] {
      assert (s + [c])[1..] == s[1..] + [c];
      FoldSnoc(acc * 10 + DigitValue(s[0]), s[1..], c);
    }
  }

  /** On digits alone the scan returns their value, or `Overflow` once it passes `limit`. */
  lemma {:induction false} ScanDigits(s: string, acc: nat, limit: nat)
    requires AllDigits(s) && acc <= limit
    ensures Scan(s, acc, limit) == if Fold(acc, s) <= limit then Ok(Fold(acc, s)) else Err(Overflow)
    decreases s
  {
    if s != [] {
      var v := acc * 10 + DigitValue(s[0]);
      FoldGrows(v, s[1..]);
      if v <= limit {
        ScanDigits(s[1..], v, limit);
      }
    }
  }

  /** A non-digit anywhere makes the scan fail. */
  lemma {:induction false} ScanNonDigit(s: string, acc: nat, limit: nat)
    requires !AllDigits(s) && acc <= limit
    ensures Scan(s, acc, limit).Err?
    decreases s
  {
    if IsDigit(s[0]) {
      var v := acc * 10 + DigitValue(s[0]);
      if v <= limit {
        assert !AllDigits(s[1..]) by {
          var i :| 0 <= i < |s| && !IsDigit(s[i]);
          assert s[1..][i - 1] == s[i];
        }
        ScanNonDigit(s[1..], v, limit);
      }
    }
  }

  /** The shortest decimal rendering of a natural number. */
  function Digits(n: nat): (s: string)
    ensures |s| >= 1 && AllDigits(s)
    ensures s[0] != '0' || n == 0
  {
    if n < 10 then [DigitChar(n)] else Digits(n / 10) + [DigitChar(n % 10)]
  }

  lemma {:induction false} DigitsValue(n: nat)
    ensures Fold(0, Digits(n)) == n
  {
    if n >= 10 {
      DigitsValue(n / 10);
      FoldSnoc(0, Digits(n / 10), DigitChar(n % 10));
    }
  }

  /** `IntErrorKind` of Rust's `ParseIntError`. */
  datatype IntErrorKind = Empty | InvalidDigitFound | PosOverflow | NegOverflow

  /** What `ParseIntError::to_string` prints for each kind. */
  function Message(e: IntErrorKind): string {
    match e
    case Empty => "cannot parse integer from empty string"
    case InvalidDigitFound => "invalid digit found in string"
    case PosOverflow => "number too large to fit in target type"
    case NegOverflow => "number too small to fit in target type"
  }

  /**
   * `str::parse` for a signed integer type whose range is `lo..=hi`: an
   * optional sign, then at least one digit.
   */
  function ParseInt(s: string, lo: int, hi: int): (r: Result<int, IntErrorKind>)
    requires lo < 0 < hi
    ensures r.Ok? ==> lo <= r.value <= hi
  {
    if s == [] then Err(Empty)
    else if (s[0] == '+' || s[0] == '-') && |s| == 1 then Err(InvalidDigitFound)
    else if s[0] == '-' then
      match Scan(s[1..], 0, -lo)
      case Ok(m) => Ok(-(m as int))
      case Err(InvalidDigit) => Err(InvalidDigitFound)
      case Err(Overflow) => Err(NegOverflow)
    else
      match Scan(if s[0] == '+' then s[1..] else s, 0, hi)
      case Ok(m) => Ok(m)
      case Err(InvalidDigit) => Err(InvalidDigitFound)
      case Err(Overflow) => Err(PosOverflow)
  }

  /** Rust's `Display` for a signed integer. */
  function Show(n: int): string {
    if n < 0 then "-" + Digits(-n) else Digits(n)
  }

  /** Parsing inverts printing in range, and reports the overflow's direction outside it. */
  lemma ParseShow(n: int, lo: int, hi: int)
    requires lo < 0 < hi
    ensures ParseInt(Show(n), lo, hi)
         == if n < lo then Err(NegOverflow) else if n > hi then Err(PosOverflow) else Ok(n)
  {
    if n < 0 {
      var s := Show(n);
      assert s[1..] == Digits(-n);
      DigitsValue(-n);
      ScanDigits(Digits(-n), 0, -lo);
    } else {
      DigitsValue(n);
      ScanDigits(Digits(n), 0, hi);
    }
  }

  /** A successful parse is an optional sign followed by digits denoting the value. */
  lemma ParseIntSound(s: string, lo: int, hi: int)
    requires lo < 0 < hi && ParseInt(s, lo, hi).Ok?
    ensures |s| >= 1
    ensures s[0] == '-' ==> |s| >= 2 && AllDigits(s[1..]) && ParseInt(s, lo, hi).value == -(Fold(0, s[1..]) as int)
    ensures s[0] == '+' ==> |s| >= 2 && AllDigits(s[1..]) && ParseInt(s, lo, hi).value == Fold(0, s[1..])
    ensures s[0] != '-' && s[0] != '+' ==> AllDigits(s) && ParseInt(s, lo, hi).value == Fold(0, s)
  {
    var body := if s[0] == '-' || s[0] == '+' then s[1..] else s;
    var limit := if s[0] == '-' then -lo else hi;
    if !AllDigits(body) {
      ScanNonDigit(body, 0, limit);
    } else {
      ScanDigits(body, 0, limit);
    }
  }
}
