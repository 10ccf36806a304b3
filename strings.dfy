/**
  Character and string operations the settings reader relies on from the C++
  standard library: isspace, std::string::find, the ordering std::map keeps its
  string keys in, and the conversions std::stoi and std::stof.
*/
module Strings {
  import opened Wrappers

  /** The characters isspace accepts in the "C" locale. */
  predicate IsSpace(c: char) {
    c == ' ' || c == '\t' || c == '\n' || c == '\r' || c as int == 11 || c as int == 12
  }

  predicate NoSpace(s: string) {
    forall i :: 0 <= i < |s| ==> !IsSpace(s[i])
  }

  predicate IsDigit(c: char) {
    '0' <= c <= '9'
  }

  predicate AllDigits(s: string) {
    forall i :: 0 <= i < |s| ==> IsDigit(s[i])
  }

  /** Index of the first `c` in `s`, or |s| when there is none (npos). */
  function FindFirst(s: string, c: char): (k: nat)
    ensures k <= |s|
    ensures forall i :: 0 <= i < k ==> s[i] != c
    ensures k < |s| ==> s[k] == c
  {
    if s == [] then 0 else if s[0] == c then 0 else 1 + FindFirst(s[1..], c)
  }

  /** `s` without its whitespace characters, the rest in order (remove_if then erase). */
  function RemoveSpaces(s: string): (r: string)
    ensures NoSpace(r)
    ensures |r| <= |s|
  {
    if s == [] then [] else (if IsSpace(s[0]) then [] else [s[0]]) + RemoveSpaces(s[1..])
  }

  /** Exactly the non-whitespace characters of `s` survive. */
  lemma {:induction false} RemoveSpacesKeeps(s: string, c: char)
    ensures c in RemoveSpaces(s) <==> c in s && !IsSpace(c)
  {
    if s != [] {
      RemoveSpacesKeeps(s[1..], c);
      assert c in s <==> c == s[0] || c in s[1..];
    }
  }

  /** Removing whitespace distributes over concatenation, so the kept characters stay in order. */
  lemma {:induction false} RemoveSpacesAppend(a: string, b: string)
    ensures RemoveSpaces(a + b) == RemoveSpaces(a) + RemoveSpaces(b)
  {
    if a == [] {
      assert a + b == b;
    } else {
      assert (a + b)[1..] == a[1..] + b;
      RemoveSpacesAppend(a[1..], b);
    }
  }

  /** Text that has no whitespace is left exactly as it is. */
  lemma {:induction false} RemoveSpacesNoSpace(s: string)
    requires NoSpace(s)
    ensures RemoveSpaces(s) == s
  {
    if s != [] {
      RemoveSpacesNoSpace(s[1..]);
    }
  }

  /** `s` without its leading whitespace (what strtol and strtod skip). */
  function SkipSpaces(s: string): (r: string)
  {
    if s != [] && IsSpace(s[0]) then SkipSpaces(s[1..]) else s
  }

  /** The longest prefix of `s` made of decimal digits. */
  function DigitPrefix(s: string): (d: string)
    ensures |d| <= |s| && d == s[..|d|]
    ensures AllDigits(d)
    ensures |d| < |s| ==> !IsDigit(s[|d|])
  {
    if s != [] && IsDigit(s[0]) then [s[0]] + DigitPrefix(s[1..]) else []
  }

  function DigitValue(c: char): nat
    requires IsDigit(c)
  {
    (c as int) - ('0' as int)
  }

  /** The number a string of decimal digits denotes. */
  function DecimalValue(d: string): nat
    requires AllDigits(d)
  {
    if d == [] then 0 else 10 * DecimalValue(d[..|d| - 1]) + DigitValue(d[|d| - 1])
  }

  // ---------------------------------------------------------------------
  // Lexicographic order of std::string keys (std::less<std::string>)
  // ---------------------------------------------------------------------

  /** `a` sorts strictly before `b`: a proper prefix, or smaller at the first difference. */
  predicate LexLess(a: string, b: string) {
    if b == [] then false
    else if a == [] then true
    else if a[0] != b[0] then a[0] < b[0]
    else LexLess(a[1..], b[1..])
  }

  lemma {:induction false} LexLessIrreflexive(a: string)
    ensures !LexLess(a, a)
  {
    if a != [] {
      LexLessIrreflexive(a[1..]);
    }
  }

  lemma {:induction false} LexLessTransitive(a: string, b: string, c: string)
    requires LexLess(a, b) && LexLess(b, c)
    ensures LexLess(a, c)
  {
    if a != [] && a[0] == b[0] && b[0] == c[0] {
      LexLessTransitive(a[1..], b[1..], c[1..]);
    }
  }

  /** Any two different keys are ordered one way or the other. */
  lemma {:induction false} LexLessTotal(a: string, b: string)
    requires a != b
    ensures LexLess(a, b) || LexLess(b, a)
  {
    if a != [] && b != [] && a[0] == b[0] {
      assert a == [a[0]] + a[1..] && b == [b[0]] + b[1..];
      LexLessTotal(a[1..], b[1..]);
    }
  }

  lemma LexLessAsymmetric(a: string, b: string)
    requires LexLess(a, b)
    ensures !LexLess(b, a)
  {
    if LexLess(b, a) {
      LexLessTransitive(a, b, a);
      LexLessIrreflexive(a);
    }
  }

  // ---------------------------------------------------------------------
  // std::stoi and std::stof
  // ---------------------------------------------------------------------

  /** The two exceptions the standard conversions throw. */
  datatype ConversionError = InvalidArgument | OutOfRange

  const IntMin: int := -0x8000_0000
  const IntMax: int := 0x7fff_ffff

  /** Splits an optional leading sign off `t`: (is it negative, the rest). */
  function SplitSign(t: string): (bool, string) {
    if t != [] && (t[0] == '-' || t[0] == '+') then (t[0] == '-', t[1..]) else (false, t)
  }

  /**
    std::stoi(s) in base 10: skip leading whitespace, an optional sign, then the
    longest run of digits; anything after the digits is ignored. No digits is
    invalid_argument, a value outside a 32-bit int is out_of_range.
  */
  function StoI(s: string): (r: Result<int, ConversionError>)
    ensures r.Success? ==> IntMin <= r.value <= IntMax
    ensures r == Failure(InvalidArgument) <==> DigitPrefix(SplitSign(SkipSpaces(s)).1) == []
    ensures r.Success? && r.value < 0 ==> SplitSign(SkipSpaces(s)).0
  {
    var (negative, u) := SplitSign(SkipSpaces(s));
    var digits := DigitPrefix(u);
    if digits == [] then Failure(InvalidArgument)
    else
      var n: int := if negative then 0 - DecimalValue(digits) else DecimalValue(digits);
      if n < IntMin || IntMax < n then Failure(OutOfRange) else Success(n)
  }

  /** The value of a mantissa `m` scaled by ten to the power `e`. */
  function Scaled(m: nat, e: int): (r: real)
    ensures r >= 0.0
    decreases if e < 0 then -e else e
  {
    if e == 0 then m as real
    else if e > 0 then 10.0 * Scaled(m, e - 1)
    else Scaled(m, e + 1) / 10.0
  }

  /**
    The exponent part strtod reads after a mantissa: `e` or `E`, an optional
    sign and at least one digit; otherwise no exponent is consumed and it is 0.
  */
  function ExponentOf(s: string): int {
    if s != [] && (s[0] == 'e' || s[0] == 'E') then
      var (negative, u) := SplitSign(s[1..]);
      var digits := DigitPrefix(u);
      if digits == [] then 0
      else if negative then 0 - DecimalValue(digits) else DecimalValue(digits)
    else 0
  }

  /**
    The magnitude strtod reads from `u` (text after the sign): digits with an
    optional decimal point, at least one digit in all, then an optional
    exponent; anything after that is ignored. None when there is no digit.
  */
  function Magnitude(u: string): (r: Option<real>)
    ensures r.Some? ==> r.value >= 0.0
  {
    var intDigits := DigitPrefix(u);
    var afterInt := u[|intDigits|..];
    var hasPoint := afterInt != [] && afterInt[0] == '.';
    var fracDigits := if hasPoint then DigitPrefix(afterInt[1..]) else [];
    if intDigits == [] && fracDigits == [] then None
    else
      var afterMantissa := if hasPoint then afterInt[1 + |fracDigits|..] else afterInt;
      Some(Scaled(DecimalValue(intDigits + fracDigits), ExponentOf(afterMantissa) - |fracDigits|))
  }

  /**
    The least magnitude strtof rounds to infinity. FLT_MAX is (2 - 2^-23) * 2^127;
    from halfway between it and 2^128 upwards the nearest-even rounding goes to
    2^128, which overflows.
  */
  const FloatOverflow: real := 340282356779733661637539395458142568448.0

  /** 2^126, the reciprocal of FLT_MIN, the least positive normal float. */
  const FloatMinInverse: real := 85070591730234615865843651857942052864.0

  /** strtof reports ERANGE: the magnitude overflows, or is non-zero and below FLT_MIN. */
  predicate OutOfFloatRange(m: real) {
    m >= FloatOverflow || (0.0 < m && m * FloatMinInverse < 1.0)
  }

  /**
    std::stof(s) on decimal text: skip leading whitespace, an optional sign,
    then the magnitude. No digit is invalid_argument; a magnitude outside
    float's range is out_of_range. The value is exact.
  */
  function StoF(s: string): (r: Result<real, ConversionError>)
    ensures r.Failure? ==> r.error == InvalidArgument || r.error == OutOfRange
    ensures r == Failure(InvalidArgument) <==> Magnitude(SplitSign(SkipSpaces(s)).1).None?
    ensures r.Success? ==> -FloatOverflow < r.value < FloatOverflow
    ensures r.Success? && r.value > 0.0 ==> r.value * FloatMinInverse >= 1.0
    ensures r.Success? && r.value < 0.0 ==> SplitSign(SkipSpaces(s)).0 && r.value * FloatMinInverse <= -1.0
  {
    var (negative, u) := SplitSign(SkipSpaces(s));
    match Magnitude(u)
    case None => Failure(InvalidArgument)
    case Some(m) =>
      if OutOfFloatRange(m) then Failure(OutOfRange) else Success(if negative then -m else m)
  }
}
