/** Decimal text for integers, as Go's `strconv.Itoa` and `strconv.Atoi`
    produce and accept it on a 64-bit platform (where Go's `int` is 64 bits).
    `Itoa` renders the server ID passed to the measurement tool; `Atoi` reads
    the server number of a CSV record. */
module Decimal {
  import opened Wrappers

  const MinInt64: int := -0x8000_0000_0000_0000
  const MaxInt64: int := 0x7fff_ffff_ffff_ffff

  /** The values of Go's `int` on a 64-bit platform. */
  type Int64 = n: int | MinInt64 <= n <= MaxInt64

  /** The error Go's strconv functions return: the function that failed and
      the text it was given. */
  datatype NumError = NumError(func: string, num: string)

  predicate IsDigit(ch: char) {
    '0' <= ch <= '9'
  }

  predicate AllDigits(s: string) {
    forall i | 0 <= i < |s| :: IsDigit(s[i])
  }

  function DigitChar(d: nat): (ch: char)
    requires d < 10
    ensures IsDigit(ch)
  {
    ('0' as int + d) as char
  }

  function DigitValue(ch: char): (d: nat)
    requires IsDigit(ch)
    ensures d < 10
    ensures DigitChar(d) == ch
  {
    (ch as int - '0' as int) as nat
  }

  /** Shortest decimal digits of a natural number ("0" for zero). */
  function Digits(n: nat): (s: string)
    ensures |s| > 0 && AllDigits(s)
    ensures |s| > 1 ==> s[0] != '0'
    decreases n
  {
    if n < 10 then [DigitChar(n)] else Digits(n / 10) + [DigitChar(n % 10)]
  }

  /** The number a string of decimal digits denotes (leading zeros allowed). */
  function DigitsValue(s: string): nat
    requires AllDigits(s)
    decreases |s|
  {
    if s == [] then 0 else DigitsValue(s[..|s| - 1]) * 10 + DigitValue(s[|s| - 1])
  }

  /** `strconv.Itoa`: an optional minus sign followed by the shortest digits. */
  function Itoa(n: int): (s: string)
    ensures |s| > 0
    ensures n >= 0 ==> AllDigits(s)
    ensures n < 0 ==> s[0] == '-' && AllDigits(s[1..])
  {
    if n < 0 then "-" + Digits(-n) else Digits(n)
  }

  /** The text after an optional leading `+` or `-`. */
  function Unsigned(s: string): (u: string)
    ensures u == s || (|s| > 0 && (s[0] == '+' || s[0] == '-') && u == s[1..])
  {
    if |s| > 0 && (s[0] == '+' || s[0] == '-') then s[1..] else s
  }

  /** The syntax `Atoi` accepts: an optional sign followed by at least one
      decimal digit. Nothing else is allowed: no spaces, no underscores, no
      base prefix. */
  predicate WellFormed(s: string) {
    Unsigned(s) != [] && AllDigits(Unsigned(s))
  }

  /** The number well-formed text denotes, before any range check. */
  function SignedValue(s: string): int
    requires WellFormed(s)
  {
    var magnitude: int := DigitsValue(Unsigned(s));
    if s[0] == '-' then -magnitude else magnitude
  }

  /** `strconv.Atoi`: accepts exactly an optional `+` or `-` followed by at
      least one decimal digit, whose value fits a 64-bit `int`; every other
      input fails with an error naming "Atoi" and the whole input. */
  function Atoi(s: string): (r: Result<int, NumError>)
    ensures r.Success? <==> WellFormed(s) && MinInt64 <= SignedValue(s) <= MaxInt64
    ensures r.Success? ==> r.value == SignedValue(s)
    ensures r.Failure? ==> r.error == NumError("Atoi", s)
  {
    var signed := |s| > 0 && (s[0] == '+' || s[0] == '-');
    var body := if signed then s[1..] else s;
    if body == [] || !AllDigits(body) then
      Failure(NumError("Atoi", s))
    else
      assert IsDigit(s[|s| - 1]);
      var magnitude: int := DigitsValue(body);
      var n: int := if signed && s[0] == '-' then -magnitude else magnitude;
      if MinInt64 <= n <= MaxInt64 then Success(n) else Failure(NumError("Atoi", s))
  }

  lemma {:induction false} DigitsRoundTrip(n: nat)
    ensures DigitsValue(Digits(n)) == n
    decreases n
  {
    if n >= 10 {
      var s := Digits(n);
      var prefix := Digits(n / 10);
      assert s == prefix + [DigitChar(n % 10)];
      assert s[..|s| - 1] == prefix;
      DigitsRoundTrip(n / 10);
    }
  }

  /** Reading back what `Itoa` wrote gives the original number, for every
      value of Go's 64-bit `int`. */
  lemma ItoaAtoiRoundTrip(n: Int64)
    ensures Atoi(Itoa(n)) == Success(n)
  {
    var s := Itoa(n);
    if n < 0 {
      var m: nat := -(n as int);
      DigitsRoundTrip(m);
      assert s[1..] == Digits(m);
    } else {
      DigitsRoundTrip(n);
    }
  }

  /** Digits with their leading zeros removed, keeping at least one digit
      ("007" becomes "7", "000" becomes "0"). */
  function StripZeros(s: string): (t: string)
    requires |s| > 0 && AllDigits(s)
    ensures 0 < |t| <= |s| && t == s[|s| - |t|..]
    ensures forall i | 0 <= i < |s| - |t| :: s[i] == '0'
    ensures |t| > 1 ==> t[0] != '0'
    decreases |s|
  {
    if |s| > 1 && s[0] == '0' then
      var t := StripZeros(s[1..]);
      assert s[1..][|s| - 1 - |t|..] == s[|s| - |t|..];
      t
    else s
  }

  /** A leading zero does not change the value of a digit string. */
  lemma {:induction false} LeadingZeroValue(u: string)
    requires AllDigits(u)
    ensures AllDigits("0" + u) && DigitsValue("0" + u) == DigitsValue(u)
    decreases |u|
  {
    var z := "0" + u;
    if u == [] {
      assert z[..|z| - 1] == [];
    } else {
      var prefix := u[..|u| - 1];
      assert z[..|z| - 1] == "0" + prefix;
      LeadingZeroValue(prefix);
    }
  }

  lemma {:induction false} StripZerosValue(s: string)
    requires |s| > 0 && AllDigits(s)
    ensures DigitsValue(StripZeros(s)) == DigitsValue(s)
    decreases |s|
  {
    if |s| > 1 && s[0] == '0' {
      assert s == "0" + s[1..];
      LeadingZeroValue(s[1..]);
      StripZerosValue(s[1..]);
    }
  }

  /** Digits that do not start with zero denote a positive number. */
  lemma {:induction false} NoLeadingZeroPositive(t: string)
    requires |t| > 0 && AllDigits(t) && t[0] != '0'
    ensures DigitsValue(t) >= 1
    decreases |t|
  {
    if |t| > 1 {
      NoLeadingZeroPositive(t[..|t| - 1]);
    }
  }

  /** Digit strings without a redundant leading zero are exactly the
      shortest digits of their own value. */
  lemma {:induction false} CanonicalDigits(t: string)
    requires |t| > 0 && AllDigits(t)
    requires |t| > 1 ==> t[0] != '0'
    ensures Digits(DigitsValue(t)) == t
    decreases |t|
  {
    var v := DigitsValue(t);
    var last := t[|t| - 1];
    if |t| == 1 {
      assert t[..0] == [];
      assert t == [last];
    } else {
      var prefix := t[..|t| - 1];
      CanonicalDigits(prefix);
      NoLeadingZeroPositive(prefix);
      assert v == DigitsValue(prefix) * 10 + DigitValue(last);
      assert v / 10 == DigitsValue(prefix) && v % 10 == DigitValue(last);
      assert t == prefix + [last];
    }
  }

  /** Well-formed text, rendered back by `Itoa`, loses only a leading `+`,
      redundant leading zeros and the `-` of a negative zero. */
  lemma SignedValueCanonical(s: string)
    requires WellFormed(s)
    ensures Itoa(SignedValue(s)) == (if SignedValue(s) < 0 then "-" else "") + StripZeros(Unsigned(s))
  {
    var u := Unsigned(s);
    var m := DigitsValue(u);
    StripZerosValue(u);
    CanonicalDigits(StripZeros(u));
    if s[0] == '-' && m > 0 {
      assert SignedValue(s) == -(m as int);
    } else {
      assert SignedValue(s) == m;
    }
  }

  /** The converse of `ItoaAtoiRoundTrip`: any text `Atoi` accepts is the
      `Itoa` text of its value once a leading `+` and redundant leading
      zeros are dropped (and the `-` of a negative zero). */
  lemma AtoiCanonical(s: string, n: int)
    requires Atoi(s) == Success(n)
    ensures Itoa(n) == (if n < 0 then "-" else "") + StripZeros(Unsigned(s))
  {
    SignedValueCanonical(s);
  }
}
