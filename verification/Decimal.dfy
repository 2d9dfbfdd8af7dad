// Decimal text and database numerics: how integers travel in response messages and in table columns
// (pkg/common/utils.go).
module Decimal {
  import opened Basics

  // ---------- big.Int.String and big.Int.SetString(s, 10) ----------

  predicate IsDigit(c: char) { '0' <= c <= '9' }

  function DigitValue(c: char): (d: nat)
    requires IsDigit(c)
    ensures d < 10
  {
    c as int - '0' as int
  }

  function DigitChar(d: nat): (c: char)
    requires d < 10
    ensures IsDigit(c) && DigitValue(c) == d
  {
    (d + '0' as int) as char
  }

  // The ten digits, in order of value.
  lemma DigitTable(c: char, d: nat)
    requires d < 10
    ensures DigitChar(d) == "0123456789"[d]
    ensures IsDigit(c) ==> "0123456789"[DigitValue(c)] == c
    ensures IsDigit(c) <==> c in "0123456789"
  {
    var digits := "0123456789";
    if IsDigit(c) {
      assert digits[DigitValue(c)] == c;
    }
  }

  predicate AllDigits(s: string) { forall i | 0 <= i < |s| :: IsDigit(s[i]) }

  function PrintNat(n: nat): (s: string)
    ensures s != "" && AllDigits(s)
    ensures s[0] == '0' ==> n == 0 && s == "0"
  {
    if n < 10 then [DigitChar(n)] else PrintNat(n / 10) + [DigitChar(n % 10)]
  }

  function Print(v: int): string {
    if v < 0 then "-" + PrintNat(-v) else PrintNat(v)
  }

  function Digits(s: string): nat
    requires AllDigits(s)
  {
    if s == "" then 0 else 10 * Digits(s[..|s| - 1]) + DigitValue(s[|s| - 1])
  }

  // An optional sign, then at least one digit; anything else is a nil integer.
  function SetString(s: string): Option<int> {
    var signed := s != "" && (s[0] == '-' || s[0] == '+');
    var body := if signed then s[1..] else s;
    if body == "" || !AllDigits(body) then None
    else
      var magnitude: int := Digits(body);
      Some(if signed && s[0] == '-' then -magnitude else magnitude)
  }

  // The empty string is zero; malformed text is nil.
  function StringToBigInt(s: string): Option<int> {
    if s == "" then Some(0) else SetString(s)
  }

  // The whole grammar: digits alone or after a plus sign count as they stand, after a minus sign negated; nothing else
  // is an integer.
  lemma SetStringMeans(s: string, v: int)
    ensures SetString(s) == Some(v) <==>
            exists body: string :: body != "" && AllDigits(body)
                                   && ((s == body && v == Digits(body)) || (s == "+" + body && v == Digits(body))
                                       || (s == "-" + body && v == -(Digits(body) as int)))
    ensures StringToBigInt("") == Some(0) && (s != "" ==> StringToBigInt(s) == SetString(s))
  {
    if SetString(s) == Some(v) {
      if s[0] == '-' || s[0] == '+' {
        assert s == [s[0]] + s[1..];
      }
    }
    if body: string :| body != "" && AllDigits(body) && (s == body || s == "+" + body || s == "-" + body) {
      assert IsDigit(body[0]);
      if s != body {
        assert s[1..] == body;
      }
    }
  }

  lemma {:induction false} DigitsOfPrint(n: nat)
    ensures Digits(PrintNat(n)) == n
  {
    var s := PrintNat(n);
    if n >= 10 {
      DigitsOfPrint(n / 10);
      assert s[..|s| - 1] == PrintNat(n / 10);
    }
  }

  lemma ParseNegative(v: int)
    requires v < 0
    ensures SetString(Print(v)) == Some(v)
  {
    DigitsOfPrint(-v);
    assert Print(v)[1..] == PrintNat(-v);
  }

  lemma ParseNonNegative(v: int)
    requires v >= 0
    ensures SetString(Print(v)) == Some(v)
  {
    DigitsOfPrint(v);
    assert IsDigit(Print(v)[0]);
  }

  // Printing then parsing gives every integer back.
  lemma ParsePrint(v: int)
    ensures SetString(Print(v)) == Some(v)
    ensures StringToBigInt(Print(v)) == Some(v)
  {
    if v < 0 {
      ParseNegative(v);
    } else {
      ParseNonNegative(v);
    }
  }

  lemma PrintInjective(v: int, w: int)
    requires Print(v) == Print(w)
    ensures v == w
  {
    ParsePrint(v);
    ParsePrint(w);
  }

  // The texts that survive a parse and a print unchanged: no plus sign, no leading zero, no minus zero.
  predicate Canonical(s: string) {
    var body := if s != "" && s[0] == '-' then s[1..] else s;
    && body != "" && AllDigits(body)
    && (body[0] == '0' ==> s == "0")
  }

  lemma {:induction false} PrintOfDigits(s: string)
    requires s != "" && AllDigits(s) && (s[0] == '0' ==> s == "0")
    ensures PrintNat(Digits(s)) == s
    ensures s[0] != '0' ==> Digits(s) > 0
  {
    var front, last := s[..|s| - 1], s[|s| - 1];
    if |s| > 1 {
      PrintOfDigits(front);
      assert Digits(s) / 10 == Digits(front) && Digits(s) % 10 == DigitValue(last);
      assert s == front + [last];
    } else {
      assert Digits(front) == 0;
      assert s == [last];
    }
  }

  lemma PrintParseIff(s: string)
    requires SetString(s).Some?
    ensures Print(SetString(s).value) == s <==> Canonical(s)
  {
    var v := SetString(s).value;
    if Canonical(s) {
      if s[0] == '-' {
        PrintOfDigits(s[1..]);
        assert s == "-" + s[1..];
      } else {
        PrintOfDigits(s);
      }
    }
  }

  // ---------- pgtype.Numeric ----------

  // The number int * 10^exp, as the database driver hands it over.
  datatype Numeric = Numeric(integer: Option<int>, exp: int, valid: bool)

  // NoInteger is the nil result (or nil dereference) on a numeric without an integer.
  datatype ConversionError = NoInteger | Fraction

  function Pow10(k: nat): (p: nat)
    ensures p >= 1
  {
    if k == 0 then 1 else 10 * Pow10(k - 1)
  }

  lemma TimesTen(n: nat, p: nat)
    ensures n * (10 * p) == 10 * (n * p)
  {
  }

  lemma Carry(a: nat, p: nat, b: nat, d: nat)
    ensures 10 * (a * p + b) + d == a * (10 * p) + (10 * b + d)
  {
    TimesTen(a, p);
  }

  // Decimal positions: a text of digits counts as many powers of ten as digits follow it.
  lemma {:induction false} DigitsAppend(s: string, t: string)
    requires AllDigits(s) && AllDigits(t)
    ensures Digits(s + t) == Digits(s) * Pow10(|t|) + Digits(t)
  {
    if t == "" {
      assert s + t == s;
    } else {
      var front := t[..|t| - 1];
      DigitsAppend(s, front);
      assert (s + t)[..|s| + |t| - 1] == s + front;
      Carry(Digits(s), Pow10(|front|), Digits(front), DigitValue(t[|t| - 1]));
    }
  }

  function ZeroDigits(k: nat): (s: string)
    ensures |s| == k && forall i :: 0 <= i < k ==> s[i] == '0'
  {
    if k == 0 then "" else ZeroDigits(k - 1) + "0"
  }

  lemma PrintTimesTen(n: nat)
    requires n > 0
    ensures PrintNat(10 * n) == PrintNat(n) + "0"
  {
    assert DigitChar(0) == '0';
  }

  lemma {:induction false} PrintTimesPower(n: nat, k: nat)
    requires n > 0
    ensures n * Pow10(k) > 0 && PrintNat(n * Pow10(k)) == PrintNat(n) + ZeroDigits(k)
  {
    if k > 0 {
      PrintTimesPower(n, k - 1);
      TimesTen(n, Pow10(k - 1));
      PrintTimesTen(n * Pow10(k - 1));
      assert PrintNat(n) + ZeroDigits(k) == PrintNat(n) + ZeroDigits(k - 1) + "0";
    }
  }

  lemma DivDiv(n: nat, p: nat)
    requires p >= 1
    ensures n / (10 * p) == (n / 10) / p
  {
    var q, r := (n / 10) / p, (n / 10) % p;
    assert n == 10 * (q * p + r) + n % 10 && 10 * (q * p) == (10 * p) * q;
    SmallRemainder(n, 10 * p, q, 10 * r + n % 10);
  }

  // The first digits of a text; none left reads zero.
  function DropDigits(s: string, k: nat): string { if k < |s| then s[..|s| - k] else "0" }

  lemma DropOne(n: nat, k: nat)
    requires k > 0
    ensures DropDigits(PrintNat(n / 10), k - 1) == DropDigits(PrintNat(n), k)
  {
    var s, t := PrintNat(n), PrintNat(n / 10);
    if n < 10 {
      assert t == "0" && |s| == 1;
    } else {
      assert t == s[..|s| - 1];
    }
  }

  lemma {:induction false} PrintDividedByPower(n: nat, k: nat, q: nat)
    requires q == n / Pow10(k)
    ensures PrintNat(q) == DropDigits(PrintNat(n), k)
    decreases k
  {
    if k > 0 {
      DivDiv(n, Pow10(k - 1));
      PrintDividedByPower(n / 10, k - 1, q);
      DropOne(n, k);
    } else {
      assert q == n;
    }
  }

  lemma PrintShifted(v: int, k: nat)
    requires v != 0
    ensures Print(v * Pow10(k)) == Print(v) + ZeroDigits(k)
  {
    if v > 0 {
      PrintTimesPower(v, k);
    } else {
      PrintTimesPower(-v, k);
      assert v * Pow10(k) == -((-v) * Pow10(k));
      assert Print(v) + ZeroDigits(k) == "-" + (PrintNat(-v) + ZeroDigits(k));
    }
  }

  // What an exponent does to the digits: a positive one appends zeros, a negative one drops digits, and a numeric
  // that is not valid, has no integer or is zero reads "0".
  lemma NumericTextMeans(v: int, k: nat)
    ensures v != 0 ==> NumericToString(Numeric(Some(v), k, true)) == Print(v) + ZeroDigits(k)
    ensures v >= 0 ==> NumericToString(Numeric(Some(v), -(k as int), true)) == DropDigits(Print(v), k)
    ensures NumericToString(Numeric(Some(0), k, true)) == NumericToString(Numeric(None, k, true)) == "0"
    ensures NumericToString(Numeric(Some(v), k, false)) == "0"
  {
    if v != 0 {
      PrintShifted(v, k);
    }
    if v >= 0 {
      QuotientIsNat(v, Pow10(k));
      PrintDividedByPower(v, k, v / Pow10(k));
    }
  }

  function NumericToString(n: Numeric): string {
    if !n.valid || n.integer.None? then "0"
    else if n.exp > 0 then Print(n.integer.value * Pow10(n.exp))
    else if n.exp < 0 then Print(n.integer.value / Pow10(-n.exp))
    else Print(n.integer.value)
  }

  function NumericToBigInt(n: Numeric): Result<int, ConversionError> {
    match n.integer
    case None => Err(NoInteger)
    case Some(i) =>
      if n.exp == 0 then Ok(i)
      else if n.exp > 0 then Ok(i * Pow10(n.exp))
      else if i % Pow10(-n.exp) != 0 then Err(Fraction)
      else Ok(i / Pow10(-n.exp))
  }

  function BigIntToNumeric(v: Option<int>): Numeric { Numeric(v, 0, true) }

  function StringToNumeric(s: string): Numeric { BigIntToNumeric(StringToBigInt(s)) }

  // What a numeric denotes, independent of how either conversion computes it.
  ghost predicate Denotes(n: Numeric, v: int) {
    n.integer.Some? &&
    if n.exp >= 0 then v == n.integer.value * Pow10(n.exp)
    else v * Pow10(-n.exp) == n.integer.value
  }

  // The integer conversion succeeds on exactly the numerics that denote an integer, and returns it.
  lemma NumericToBigIntExact(n: Numeric, v: int)
    ensures NumericToBigInt(n) == Ok(v) <==> Denotes(n, v)
  {
    if n.integer.Some? && n.exp < 0 {
      var i, p := n.integer.value, Pow10(-n.exp);
      MulDiv(v, p);
      if i % p == 0 {
        assert i == (i / p) * p;
      }
    }
  }

  lemma FractionExact(n: Numeric)
    requires n.integer.Some?
    ensures NumericToBigInt(n) == Err(Fraction) <==> forall v :: !Denotes(n, v)
  {
    forall v ensures NumericToBigInt(n) == Ok(v) <==> Denotes(n, v) {
      NumericToBigIntExact(n, v);
    }
    if NumericToBigInt(n).Ok? {
      assert Denotes(n, NumericToBigInt(n).value);
    }
  }

  // Both conversions agree: the text parses back to the integer whenever there is one ...
  lemma StringAgreesWithBigInt(n: Numeric)
    requires n.valid && NumericToBigInt(n).Ok?
    ensures NumericToString(n) == Print(NumericToBigInt(n).value)
    ensures StringToBigInt(NumericToString(n)) == Some(NumericToBigInt(n).value)
  {
    ParsePrint(NumericToBigInt(n).value);
    if n.exp == 0 {
      assert NumericToString(n) == Print(n.integer.value);
    }
  }

  // ... and on a fraction, where the integer conversion fails, the text silently drops it (rounding down).
  lemma StringRoundsDown(n: Numeric)
    requires n.valid && NumericToBigInt(n) == Err(Fraction)
    ensures exists v :: NumericToString(n) == Print(v)
                        && v * Pow10(-n.exp) < n.integer.value < (v + 1) * Pow10(-n.exp)
  {
    var i, p := n.integer.value, Pow10(-n.exp);
    var v := i / p;
    assert i == v * p + i % p;
    assert (v + 1) * p == v * p + p;
    assert NumericToString(n) == Print(v);
  }
}
