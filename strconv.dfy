/**
  Base-10 integer parsing as Go's `strconv.ParseInt(s, 10, 64)` performs it, and
  `strconv.FormatInt(v, 10)`, its inverse.
 */
module Strconv {
  import opened GoInt

  datatype NumError = NoError | ErrSyntax | ErrRange

  predicate IsDigit(c: char) {
    '0' <= c <= '9'
  }

  function DigitValue(c: char): (d: nat)
    requires IsDigit(c)
    ensures d < 10
  {
    c as int - '0' as int
  }

  function DigitChar(d: nat): (c: char)
    requires d < 10
    ensures IsDigit(c) && DigitValue(c) == d
  {
    ('0' as int + d) as char
  }

  /** What the digit loop of `ParseUint` ends with. */
  datatype Scan = Digits(n: nat) | BadDigit | TooLarge

  /**
    The digit loop of `ParseUint` in base 10 with accumulator `n`: a character that is
    not a decimal digit is a syntax error, and the loop stops with a range error at
    the first digit that takes the accumulator past the largest uint64, even when a
    character further on would have been a syntax error.
   */
  function ScanUint(s: string, n: nat): (r: Scan)
    requires n <= MaxUint64
    ensures r.Digits? ==> r.n <= MaxUint64
    ensures r.Digits? ==> forall i :: 0 <= i < |s| ==> IsDigit(s[i])
    decreases |s|
  {
    if s == [] then Digits(n)
    else if !IsDigit(s[0]) then BadDigit
    else if n * 10 + DigitValue(s[0]) > MaxUint64 then TooLarge
    else ScanUint(s[1..], n * 10 + DigitValue(s[0]))
  }

  /** `strconv.ParseUint(s, 10, 64)`: the value and the error it reports. */
  function ParseUint(s: string): (r: (nat, NumError))
    ensures r.0 <= MaxUint64
    ensures r.1 == ErrSyntax ==> r.0 == 0
  {
    if s == [] then (0, ErrSyntax)
    else
      match ScanUint(s, 0)
      case Digits(n) => (n, NoError)
      case BadDigit => (0, ErrSyntax)
      case TooLarge => (MaxUint64, ErrRange)
  }

  /**
    `strconv.ParseInt(s, 10, 64)`: an optional sign, then `ParseUint` on the rest; a
    syntax error yields 0, a magnitude beyond the int64 range yields the bound of the
    sign's side together with a range error.
   */
  function ParseInt(s: string): (r: (int64, NumError))
    ensures r.1 == ErrSyntax ==> r.0 == 0
    ensures r.1 == ErrRange ==> r.0 == if s != [] && s[0] == '-' then MinInt64 else MaxInt64
    ensures r.1 == NoError ==>
              && s != []
              && var rest := if s[0] == '+' || s[0] == '-' then s[1..] else s;
                 rest != [] && forall i :: 0 <= i < |rest| ==> IsDigit(rest[i])
    ensures r.1 == ErrRange ==>
              && s != []
              && var rest := if s[0] == '+' || s[0] == '-' then s[1..] else s;
                 |rest| >= 19 && forall i :: 0 <= i < 19 ==> IsDigit(rest[i])
  {
    if s == [] then (0, ErrSyntax)
    else
      var neg := s[0] == '-';
      var rest := if s[0] == '+' || s[0] == '-' then s[1..] else s;
      ScanLength(rest, 0, 0);
      Pow10Monotone(|rest|, 18);
      Pow10Eighteen();
      var (un, err) := ParseUint(rest);
      if err == ErrSyntax then (0, ErrSyntax)
      else if !neg && un >= TwoTo63 then (MaxInt64, ErrRange)
      else if neg && un > TwoTo63 then (MinInt64, ErrRange)
      else ((if neg then -(un as int) else un as int) as int64, err)
  }

  function Pow10(p: nat): (r: nat)
    ensures r >= 1
  {
    if p == 0 then 1 else 10 * Pow10(p - 1)
  }

  lemma Pow10Eighteen()
    ensures Pow10(18) == 1_000_000_000_000_000_000
  {
    assert Pow10(1) == 10;
    assert Pow10(2) == 100;
    assert Pow10(3) == 1_000;
    assert Pow10(4) == 10_000;
    assert Pow10(5) == 100_000;
    assert Pow10(6) == 1_000_000;
    assert Pow10(7) == 10_000_000;
    assert Pow10(8) == 100_000_000;
    assert Pow10(9) == 1_000_000_000;
    assert Pow10(10) == 10_000_000_000;
    assert Pow10(11) == 100_000_000_000;
    assert Pow10(12) == 1_000_000_000_000;
    assert Pow10(13) == 10_000_000_000_000;
    assert Pow10(14) == 100_000_000_000_000;
    assert Pow10(15) == 1_000_000_000_000_000;
    assert Pow10(16) == 10_000_000_000_000_000;
    assert Pow10(17) == 100_000_000_000_000_000;
    assert Pow10(18) == 1_000_000_000_000_000_000;
  }

  lemma {:induction false} Pow10Monotone(p: nat, q: nat)
    ensures p <= q ==> Pow10(p) <= Pow10(q)
  {
    if p < q {
      Pow10Monotone(p, q - 1);
    }
  }

  /**
    The digit loop, started with an accumulator below 10^p, ends below 10^(p + |s|)
    when it reads every digit, and overflows only after reading 20 - p digits: a
    range error needs at least 19 leading digits.
   */
  lemma {:induction false} ScanLength(s: string, n: nat, p: nat)
    requires n <= MaxUint64 && n < Pow10(p)
    ensures ScanUint(s, n).Digits? ==> ScanUint(s, n).n < Pow10(p + |s|)
    ensures ScanUint(s, n).TooLarge? ==>
              p + |s| >= 20 && forall i :: 0 <= i < 20 - p ==> IsDigit(s[i])
    decreases |s|
  {
    if s != [] && IsDigit(s[0]) {
      var m := n * 10 + DigitValue(s[0]);
      if m > MaxUint64 {
        Pow10Monotone(p, 18);
        Pow10Eighteen();
        assert p >= 19;
      } else {
        ScanLength(s[1..], m, p + 1);
        assert 1 + |s[1..]| == |s|;
        if ScanUint(s, n).TooLarge? {
          forall i | 0 <= i < 20 - p
            ensures IsDigit(s[i])
          {
            if i > 0 {
              assert s[i] == s[1..][i - 1];
            }
          }
        }
      }
    }
  }

  /** `strconv.FormatUint(n, 10)`: the shortest decimal spelling of `n`. */
  function FormatUint(n: nat): (s: string)
    ensures s != [] && IsDigit(s[0])
    decreases n
  {
    if n < 10 then [DigitChar(n)] else FormatUint(n / 10) + [DigitChar(n % 10)]
  }

  /** `strconv.FormatInt(v, 10)`. */
  function FormatInt(v: int64): (s: string)
    ensures s != []
  {
    if v < 0 then "-" + FormatUint(-(v as int)) else FormatUint(v as nat)
  }

  /** The digit loop over `a + b` is the loop over `a` continued over `b`. */
  lemma {:induction false} ScanAppend(a: string, b: string, n: nat)
    requires n <= MaxUint64
    ensures ScanUint(a + b, n) ==
              match ScanUint(a, n)
              case Digits(k) => ScanUint(b, k)
              case BadDigit => BadDigit
              case TooLarge => TooLarge
  {
    if a == [] {
      assert a + b == b;
    } else {
      assert (a + b)[0] == a[0];
      assert (a + b)[1..] == a[1..] + b;
      if IsDigit(a[0]) && n * 10 + DigitValue(a[0]) <= MaxUint64 {
        ScanAppend(a[1..], b, n * 10 + DigitValue(a[0]));
      }
    }
  }

  /** Scanning the decimal spelling of `n` recovers `n`. */
  lemma {:induction false} ScanFormatUint(n: nat)
    requires n <= MaxUint64
    ensures ScanUint(FormatUint(n), 0) == Digits(n)
  {
    if n >= 10 {
      var d := DigitChar(n % 10);
      ScanFormatUint(n / 10);
      ScanAppend(FormatUint(n / 10), [d], 0);
      assert [d][1..] == [];
    }
  }

  /** Scanning the decimal spelling of a number beyond uint64 overflows. */
  lemma {:induction false} ScanFormatUintLarge(n: nat)
    requires n > MaxUint64
    ensures ScanUint(FormatUint(n), 0) == TooLarge
  {
    var d := DigitChar(n % 10);
    ScanAppend(FormatUint(n / 10), [d], 0);
    if n / 10 > MaxUint64 {
      ScanFormatUintLarge(n / 10);
    } else {
      ScanFormatUint(n / 10);
    }
  }

  /** Round trip: `ParseInt(FormatInt(v))` gives back `v` and no error. */
  lemma ParseFormatInt(v: int64)
    ensures ParseInt(FormatInt(v)) == (v, NoError)
  {
    var s := FormatInt(v);
    if v < 0 {
      var digits := FormatUint(-(v as int));
      ScanFormatUint(-(v as int));
      assert s[0] == '-' && s[1..] == digits;
    } else {
      ScanFormatUint(v as nat);
    }
  }

  /** `n` zero digits. */
  function Zeros(n: nat): (s: string)
    ensures |s| == n && forall i :: 0 <= i < n ==> s[i] == '0'
  {
    seq(n, _ => '0')
  }

  /** Leading zeros do not change what the digit loop computes. */
  lemma {:induction false} ScanLeadingZeros(k: nat, s: string)
    ensures ScanUint(Zeros(k) + s, 0) == ScanUint(s, 0)
  {
    if k > 0 {
      assert (Zeros(k) + s)[0] == '0';
      assert (Zeros(k) + s)[1..] == Zeros(k - 1) + s;
      assert DigitValue('0') == 0;
      ScanLeadingZeros(k - 1, s);
    } else {
      assert Zeros(k) + s == s;
    }
  }

  /**
    The other spellings `ParseInt` accepts for the same number: a leading '+' on a
    non-negative number, and leading zeros after any sign ("+42" is 42, "007" is 7,
    "-007" is -7), and a '-' on zero ("-0", "-00" are 0).
   */
  lemma ParseIntSpellings(v: int64, k: nat)
    ensures v >= 0 ==> ParseInt(Zeros(k) + FormatInt(v)) == (v, NoError)
    ensures v >= 0 ==> ParseInt("+" + Zeros(k) + FormatInt(v)) == (v, NoError)
    ensures v < 0 ==> ParseInt("-" + Zeros(k) + FormatUint(-(v as int))) == (v, NoError)
    ensures ParseInt("-" + Zeros(k) + FormatUint(0)) == (0, NoError)
  {
    var digits := FormatUint(if v >= 0 then v as int else -(v as int));
    ScanFormatUint(if v >= 0 then v as int else -(v as int));
    ScanLeadingZeros(k, digits);
    var padded := Zeros(k) + digits;
    assert padded != [] && padded[0] != '+' && padded[0] != '-' by {
      if k == 0 { assert padded == digits; } else { assert padded[0] == '0'; }
    }
    assert ("+" + padded)[1..] == padded;
    assert ("-" + padded)[1..] == padded;
    if v >= 0 {
      assert FormatInt(v) == digits;
      assert "+" + Zeros(k) + FormatInt(v) == "+" + padded;
    } else {
      assert "-" + Zeros(k) + digits == "-" + padded;
    }
    NegativeZero(k);
  }

  /** A '-' on a zero-padded zero parses to 0. */
  lemma NegativeZero(k: nat)
    ensures ParseInt("-" + Zeros(k) + FormatUint(0)) == (0, NoError)
  {
    ScanFormatUint(0);
    ScanLeadingZeros(k, FormatUint(0));
    var zero := Zeros(k) + FormatUint(0);
    assert zero != [] && zero[0] == '0' by {
      if k == 0 { assert zero == FormatUint(0); } else { assert zero[0] == '0'; }
    }
    assert "-" + Zeros(k) + FormatUint(0) == "-" + zero;
    assert ("-" + zero)[1..] == zero;
  }

  /**
    Any spelling of a magnitude beyond the int64 range, with or without leading zeros,
    is a range error that yields the bound of its sign: 2^63 and above for a
    non-negative number ("9223372036854775808", "99999999999999999999") and above
    2^63 for a negative one.
   */
  lemma ParseIntOverflow(n: nat, k: nat)
    ensures n >= TwoTo63 ==> ParseInt(Zeros(k) + FormatUint(n)) == (MaxInt64, ErrRange)
    ensures n >= TwoTo63 ==> ParseInt("+" + Zeros(k) + FormatUint(n)) == (MaxInt64, ErrRange)
    ensures n > TwoTo63 ==> ParseInt("-" + Zeros(k) + FormatUint(n)) == (MinInt64, ErrRange)
  {
    if n > MaxUint64 {
      ScanFormatUintLarge(n);
    } else {
      ScanFormatUint(n);
    }
    ScanLeadingZeros(k, FormatUint(n));
    var padded := Zeros(k) + FormatUint(n);
    assert padded != [] && IsDigit(padded[0]) by {
      if k == 0 { assert padded == FormatUint(n); } else { assert padded[0] == '0'; }
    }
    assert "+" + Zeros(k) + FormatUint(n) == "+" + padded;
    assert "-" + Zeros(k) + FormatUint(n) == "-" + padded;
    assert ("+" + padded)[1..] == padded;
    assert ("-" + padded)[1..] == padded;
  }
}
