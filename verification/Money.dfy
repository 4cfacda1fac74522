// Exchange rates and the amounts IRIS prints (apps/api/src/common/money.ts,
// apps/api/src/iris-pay/iris-pay.service.ts:366-379), over exact numbers.
module Money {
  import opened Wrappers
  import opened StripeFees

  // An ISO code in capitals.
  type Currency = string

  const BGN_TO_EUR_RATE := 1.95583

  function GetFixedExchangeRate(source: Currency, target: Currency): Option<real> {
    if source == "BGN" && target == "EUR" then Some(1.0 / BGN_TO_EUR_RATE)
    else if source == "EUR" && target == "BGN" then Some(BGN_TO_EUR_RATE)
    else None
  }

  // The rounding of a converted amount in cents.
  function Convert(amount: int, rate: real): int {
    MathRound(amount as real * rate)
  }

  function BgnToEurCents(bgn: int): int {
    MathRound(bgn as real / BGN_TO_EUR_RATE)
  }

  // The nearest cent to an exact amount, halves up.
  predicate IsNearest(exact: real, cents: int) {
    cents as real - 0.5 <= exact < cents as real + 0.5
  }

  lemma ConvertsToTheNearest(amount: int, rate: real, cents: int)
    ensures Convert(amount, rate) == cents <==> IsNearest(amount as real * rate, cents)
  {
  }

  // The nearest cent at 195583 stotinki to 100000 euro cents, told in whole numbers.
  predicate IsFixedConversion(source: Currency, target: Currency, amount: int, converted: int) {
    || (source == "BGN" && target == "EUR"
        && 195583 * (2 * converted - 1) <= 200000 * amount < 195583 * (2 * converted + 1))
    || (source == "EUR" && target == "BGN"
        && 100000 * (2 * converted - 1) <= 391166 * amount < 100000 * (2 * converted + 1))
  }

  // There is a fixed rate exactly between leva and euro, and it converts in the right direction.
  lemma FixedRateConverts(source: Currency, target: Currency, amount: int)
    ensures GetFixedExchangeRate(source, target).Some?
       <==> (source == "BGN" && target == "EUR") || (source == "EUR" && target == "BGN")
    ensures match GetFixedExchangeRate(source, target)
            case None => true
            case Some(rate) =>
              rate != 0.0 && forall cents :: Convert(amount, rate) == cents
                                             <==> IsFixedConversion(source, target, amount, cents)
  {
    if source == "BGN" && target == "EUR" {
      var exact := amount as real * (1.0 / 1.95583);
      assert exact * 1.95583 == amount as real;
    }
  }

  lemma LevaBecomeEuro(bgn: int)
    ensures GetFixedExchangeRate("BGN", "EUR").Some?
    ensures Convert(bgn, GetFixedExchangeRate("BGN", "EUR").value) == BgnToEurCents(bgn)
    ensures IsFixedConversion("BGN", "EUR", bgn, BgnToEurCents(bgn))
    ensures BgnToEurCents(1000) == 511 && BgnToEurCents(195583) == 100000
  {
    FixedRateConverts("BGN", "EUR", bgn);
  }

  lemma EuroBecomeLeva()
    ensures GetFixedExchangeRate("EUR", "BGN").Some?
    ensures Convert(100000, GetFixedExchangeRate("EUR", "BGN").value) == 195583
  {
  }

  lemma RatesAgree(bgn: int)
    ensures BgnToEurCents(bgn) == Convert(bgn, 1.0 / BGN_TO_EUR_RATE)
  {
  }

  // A euro amount survives the trip to leva and back.
  lemma EurRoundTrip(eur: int)
    ensures Convert(Convert(eur, BGN_TO_EUR_RATE), 1.0 / BGN_TO_EUR_RATE) == eur
  {
    var bgn := Convert(eur, BGN_TO_EUR_RATE);
    assert eur as real * 1.95583 - 0.5 < bgn as real <= eur as real * 1.95583 + 0.5;
    var back := bgn as real * (1.0 / BGN_TO_EUR_RATE);
    assert back * 1.95583 == bgn as real;
    assert eur as real - 0.5 < back < eur as real + 0.5;
  }

  // A lev amount comes back off by at most one, and unchanged exactly when it is the image of a euro amount.
  lemma BgnRoundTrip(bgn: int)
    ensures var back := Convert(Convert(bgn, 1.0 / BGN_TO_EUR_RATE), BGN_TO_EUR_RATE);
            && bgn - 1 <= back <= bgn + 1
            && (back == bgn <==> exists eur :: Convert(eur, BGN_TO_EUR_RATE) == bgn)
  {
    var eur := Convert(bgn, 1.0 / BGN_TO_EUR_RATE);
    var exact := bgn as real * (1.0 / BGN_TO_EUR_RATE);
    assert exact * 1.95583 == bgn as real;
    assert exact - 0.5 < eur as real <= exact + 0.5;
    assert bgn as real - 0.977915 < eur as real * 1.95583 <= bgn as real + 0.977915;
    if e :| Convert(e, BGN_TO_EUR_RATE) == bgn {
      EurRoundTrip(e);
    }
  }

  // ---- parseIrisSum ----

  predicate IsSpace(c: char) {
    c in {' ', '\t', '\n', '\r', '\U{000B}', '\U{000C}', '\U{00A0}', '\U{1680}', '\U{2028}', '\U{2029}',
          '\U{202F}', '\U{205F}', '\U{3000}', '\U{FEFF}'}
    || '\U{2000}' <= c <= '\U{200A}'
  }

  predicate IsDigit(c: char) { '0' <= c <= '9' }

  predicate AllDigits(s: string) {
    s != [] && forall c :: c in s ==> IsDigit(c)
  }

  function TrimStart(s: string): string {
    if s != [] && IsSpace(s[0]) then TrimStart(s[1..]) else s
  }

  function TrimEnd(s: string): string {
    if s != [] && IsSpace(s[|s| - 1]) then TrimEnd(s[..|s| - 1]) else s
  }

  function Trim(s: string): string { TrimEnd(TrimStart(s)) }

  // The position of the first c, or the length.
  function IndexOf(s: string, c: char): (i: nat)
    ensures i <= |s| && c !in s[..i] && (i < |s| ==> s[i] == c)
  {
    if s == [] || s[0] == c then 0
    else
      var rest := IndexOf(s[1..], c);
      assert s[..rest + 1] == [s[0]] + s[1..][..rest];
      1 + rest
  }

  function ReplaceFirst(s: string, from: char, to: char): string {
    var i := IndexOf(s, from);
    if i < |s| then s[i := to] else s
  }

  // One or more digits, then optionally a dot and one or more digits.
  predicate IsDecimal(s: string) {
    var dot := IndexOf(s, '.');
    AllDigits(s[..dot]) && (dot < |s| ==> AllDigits(s[dot + 1..]))
  }

  function DigitValue(c: char): nat
    requires IsDigit(c)
  {
    c as int - '0' as int
  }

  function Value(s: string): nat
    requires forall c :: c in s ==> IsDigit(c)
  {
    if s == [] then 0 else 10 * Value(s[..|s| - 1]) + DigitValue(s[|s| - 1])
  }

  function Pow10(n: nat): nat {
    if n == 0 then 1 else 10 * Pow10(n - 1)
  }

  lemma Pow10Positive(n: nat)
    ensures Pow10(n) > 0
  {
  }

  function DecimalValue(s: string): real
    requires IsDecimal(s)
  {
    var dot := IndexOf(s, '.');
    if dot == |s| then Value(s) as real
    else
      var fraction := s[dot + 1..];
      Pow10Positive(|fraction|);
      Mixed(Value(s[..dot]), Value(fraction), Pow10(|fraction|))
  }

  function Mixed(whole: nat, fraction: nat, scale: nat): real
    requires scale > 0
  {
    whole as real + fraction as real / scale as real
  }

  function ParseIrisSum(sum: string): Result<int> {
    var normalized := ReplaceFirst(Trim(sum), ',', '.');
    if IsDecimal(normalized) then Success(MathRound(DecimalValue(normalized) * 100.0)) else Failure(Internal)
  }

  // ---- printing an amount with two decimals ----

  function DigitChar(d: nat): (c: char)
    requires d < 10
    ensures IsDigit(c) && DigitValue(c) == d
  {
    '0' + d as char
  }

  function Decimal(n: nat): (s: string)
    ensures AllDigits(s) && Value(s) == n
  {
    if n < 10 then [DigitChar(n)] else Decimal(n / 10) + [DigitChar(n % 10)]
  }

  function PrintCents(cents: nat, separator: char): string {
    Decimal(cents / 100) + [separator] + [DigitChar(cents / 10 % 10), DigitChar(cents % 10)]
  }

  predicate Blank(s: string) {
    forall c :: c in s ==> IsSpace(c)
  }

  lemma {:induction false} TrimStartBlank(before: string, s: string)
    requires Blank(before) && s != [] && !IsSpace(s[0])
    ensures TrimStart(before + s) == s
    decreases |before|
  {
    if before == [] {
      assert before + s == s;
    } else {
      assert (before + s)[1..] == before[1..] + s;
      TrimStartBlank(before[1..], s);
    }
  }

  lemma {:induction false} TrimEndBlank(s: string, after: string)
    requires Blank(after) && s != [] && !IsSpace(s[|s| - 1])
    ensures TrimEnd(s + after) == s
    decreases |after|
  {
    if after == [] {
      assert s + after == s;
    } else {
      assert (s + after)[..|s + after| - 1] == s + after[..|after| - 1];
      TrimEndBlank(s, after[..|after| - 1]);
    }
  }

  lemma TrimAround(before: string, s: string, after: string)
    requires Blank(before) && Blank(after) && s != [] && !IsSpace(s[0]) && !IsSpace(s[|s| - 1])
    ensures Trim(before + s + after) == s
  {
    assert before + s + after == before + (s + after);
    TrimStartBlank(before, s + after);
    TrimEndBlank(s, after);
  }

  lemma IndexAfterDigits(digits: string, rest: string, c: char)
    requires AllDigits(digits) && !IsDigit(c) && rest != [] && rest[0] == c
    ensures IndexOf(digits + rest, c) == |digits|
  {
    var s, i := digits + rest, IndexOf(digits + rest, c);
    assert s[|digits|] == c;
    assert forall k :: 0 <= k < |digits| ==> s[k] == digits[k] && digits[k] in digits;
    assert c in s[..i] <==> exists k :: 0 <= k < i && s[k] == c;
  }

  lemma DigitsAreNotSpaces(c: char)
    requires IsDigit(c)
    ensures !IsSpace(c)
  {
  }

  lemma NoCommaInDecimal(s: string)
    requires ',' !in s
    ensures ReplaceFirst(s, ',', '.') == s
  {
  }

  lemma NormalizedPrint(cents: nat, separator: char)
    requires separator == '.' || separator == ','
    ensures ReplaceFirst(PrintCents(cents, separator), ',', '.') == PrintCents(cents, '.')
  {
    var whole := Decimal(cents / 100);
    var s := PrintCents(cents, separator);
    if separator == ',' {
      var tail := [separator] + [DigitChar(cents / 10 % 10), DigitChar(cents % 10)];
      assert s == whole + tail;
      IndexAfterDigits(whole, tail, ',');
      assert s[|whole| := '.'] == PrintCents(cents, '.');
    } else {
      NoCommaInDecimal(s);
    }
  }

  lemma ValueOfTwoDigits(a: nat, b: nat)
    requires a < 10 && b < 10
    ensures Value([DigitChar(a), DigitChar(b)]) == 10 * a + b
  {
    var s := [DigitChar(a), DigitChar(b)];
    assert s[..1] == [DigitChar(a)];
    assert Value(s[..1]) == a;
  }

  lemma ValueOfPrint(cents: nat)
    ensures IsDecimal(PrintCents(cents, '.'))
    ensures DecimalValue(PrintCents(cents, '.')) * 100.0 == cents as real
  {
    var whole := Decimal(cents / 100);
    var fraction := [DigitChar(cents / 10 % 10), DigitChar(cents % 10)];
    var s := PrintCents(cents, '.');
    assert s == whole + (['.'] + fraction);
    IndexAfterDigits(whole, ['.'] + fraction, '.');
    assert s[..|whole|] == whole && s[|whole| + 1..] == fraction;
    ValueOfTwoDigits(cents / 10 % 10, cents % 10);
    assert Pow10(2) == 100;
    assert cents == 100 * (cents / 100) + 10 * (cents / 10 % 10) + cents % 10;
  }

  lemma PrintHasNoOuterSpace(cents: nat, separator: char)
    ensures var s := PrintCents(cents, separator);
            s != [] && !IsSpace(s[0]) && !IsSpace(s[|s| - 1])
  {
    var s, whole := PrintCents(cents, separator), Decimal(cents / 100);
    assert s[0] == whole[0] && whole[0] in whole && IsDigit(s[|s| - 1]);
    DigitsAreNotSpaces(s[0]);
    DigitsAreNotSpaces(s[|s| - 1]);
  }

  lemma ParseNormalized(sum: string, trimmed: string, normalized: string, cents: nat)
    requires Trim(sum) == trimmed && ReplaceFirst(trimmed, ',', '.') == normalized
    requires IsDecimal(normalized) && DecimalValue(normalized) * 100.0 == cents as real
    ensures ParseIrisSum(sum) == Success(cents)
  {
    assert MathRound(cents as real) == cents;
    assert ParseIrisSum(sum) == Success(MathRound(DecimalValue(normalized) * 100.0));
  }

  // Any amount printed with two decimals, with a dot or a comma and spaces around, is read back.
  lemma IrisSumRoundTrip(cents: nat, separator: char, before: string, after: string)
    requires separator == '.' || separator == ','
    requires Blank(before) && Blank(after)
    ensures ParseIrisSum(before + PrintCents(cents, separator) + after) == Success(cents)
  {
    var s := PrintCents(cents, separator);
    PrintHasNoOuterSpace(cents, separator);
    TrimAround(before, s, after);
    NormalizedPrint(cents, separator);
    ValueOfPrint(cents);
    ParseNormalized(before + s + after, s, PrintCents(cents, '.'), cents);
  }

  lemma TwoDotsAreNotDecimal(a: string, b: string, c: string)
    requires AllDigits(a)
    ensures !IsDecimal(a + ("." + (b + ("." + c))))
  {
    var s := a + ("." + (b + ("." + c)));
    IndexAfterDigits(a, "." + (b + ("." + c)), '.');
    assert s[|a| + 1..] == b + ("." + c);
    assert (b + ("." + c))[|b|] == '.';
  }

  lemma CommaToDot(a: string, tail: string)
    requires AllDigits(a)
    ensures ReplaceFirst(a + ("," + tail), ',', '.') == a + ("." + tail)
  {
    IndexAfterDigits(a, "," + tail, ',');
    assert (a + ("," + tail))[|a| := '.'] == a + ("." + tail);
  }

  lemma TrimBetweenDigits(a: string, middle: string, c: string)
    requires AllDigits(a) && AllDigits(c)
    ensures Trim(a + (middle + c)) == a + (middle + c)
  {
    var s := a + (middle + c);
    assert s[0] == a[0] && a[0] in a && s[|s| - 1] == c[|c| - 1] && c[|c| - 1] in c;
    DigitsAreNotSpaces(s[0]);
    DigitsAreNotSpaces(s[|s| - 1]);
    assert "" + s + "" == s;
    TrimAround("", s, "");
  }

  // An amount with a thousands separator is refused, not misread.
  lemma ThousandsSeparatorRefused(a: string, b: string, c: string)
    requires AllDigits(a) && AllDigits(c)
    ensures ParseIrisSum(a + ("," + (b + ("." + c)))).Failure?
  {
    assert "," + (b + ("." + c)) == ("," + (b + ".")) + c;
    TrimBetweenDigits(a, "," + (b + "."), c);
    CommaToDot(a, b + ("." + c));
    TwoDotsAreNotDecimal(a, b, c);
  }

  // ---- every readable sum ----

  // Digits, and perhaps a separator and more digits.
  predicate IsNumber(whole: string, tail: string) {
    AllDigits(whole) && (tail != [] ==> tail[0] in {'.', ','} && AllDigits(tail[1..]))
  }

  function Fraction(tail: string): string {
    if tail == [] then [] else tail[1..]
  }

  lemma ValueOfOneMore(s: string, c: char)
    requires (forall d :: d in s ==> IsDigit(d)) && IsDigit(c)
    ensures Value(s + [c]) == 10 * Value(s) + DigitValue(c)
  {
    assert (s + [c])[..|s|] == s;
  }

  lemma {:induction false} ValueJoins(a: string, b: string)
    requires (forall c :: c in a ==> IsDigit(c)) && (forall c :: c in b ==> IsDigit(c))
    ensures Value(a + b) == Value(a) * Pow10(|b|) + Value(b)
    decreases |b|
  {
    if b == [] {
      assert a + b == a;
    } else {
      var most, last := b[..|b| - 1], b[|b| - 1];
      assert a + b == (a + most) + [last] && b == most + [last];
      ValueOfOneMore(a + most, last);
      ValueOfOneMore(most, last);
      ValueJoins(a, most);
      TenTimes(Value(a), Pow10(|most|), Value(most), DigitValue(last));
    }
  }

  lemma TenTimes(a: nat, scale: nat, most: nat, last: nat)
    ensures 10 * (a * scale + most) + last == a * (10 * scale) + (10 * most + last)
  {
  }

  lemma SeparatorToDot(whole: string, separator: char, fraction: string)
    requires AllDigits(whole) && AllDigits(fraction) && separator in {'.', ','}
    ensures ReplaceFirst(whole + ([separator] + fraction), ',', '.') == whole + (['.'] + fraction)
  {
    if separator == '.' {
      NoCommaInDecimal(whole + (['.'] + fraction));
    } else {
      CommaToDot(whole, fraction);
    }
  }

  lemma WholeIsDecimal(whole: string)
    requires AllDigits(whole)
    ensures IsDecimal(whole) && DecimalValue(whole) == Value(whole) as real
  {
    assert '.' !in whole;
    assert IndexOf(whole, '.') == |whole| && whole[..|whole|] == whole;
  }

  lemma FractionIsDecimal(whole: string, fraction: string)
    requires AllDigits(whole) && AllDigits(fraction)
    ensures IsDecimal(whole + (['.'] + fraction)) && Pow10(|fraction|) > 0
    ensures DecimalValue(whole + (['.'] + fraction)) == Mixed(Value(whole), Value(fraction), Pow10(|fraction|))
  {
    var s := whole + (['.'] + fraction);
    Pow10Positive(|fraction|);
    IndexAfterDigits(whole, ['.'] + fraction, '.');
    assert s[..|whole|] == whole && s[|whole| + 1..] == fraction;
  }

  // The fraction of the scale besides the whole, multiplied out.
  predicate IsQuotient(exact: real, whole: nat, fraction: nat, scale: nat) {
    scale > 0 && exact * scale as real == (whole * scale + fraction) as real
  }

  lemma Divided(whole: nat, fraction: nat, scale: nat)
    requires scale > 0
    ensures IsQuotient(Mixed(whole, fraction, scale), whole, fraction, scale)
  {
  }

  lemma NumberHasNoOuterSpace(whole: string, tail: string)
    requires IsNumber(whole, tail)
    ensures var s := whole + tail; s != [] && !IsSpace(s[0]) && !IsSpace(s[|s| - 1])
  {
    var s := whole + tail;
    assert s[0] == whole[0] && whole[0] in whole;
    assert s[|s| - 1] in (if tail == [] then whole else tail[1..]);
    DigitsAreNotSpaces(s[0]);
    DigitsAreNotSpaces(s[|s| - 1]);
  }

  lemma NormalizedIsRead(sum: string, normalized: string, whole: nat, fraction: nat, scale: nat)
    requires ReplaceFirst(Trim(sum), ',', '.') == normalized && IsDecimal(normalized)
    requires IsQuotient(DecimalValue(normalized), whole, fraction, scale)
    ensures ParseIrisSum(sum).Success?
    ensures var cents := ParseIrisSum(sum).value;
            scale * (2 * cents - 1) <= 200 * (whole * scale + fraction) < scale * (2 * cents + 1)
  {
    Nearest(DecimalValue(normalized), whole, fraction, scale);
  }

  lemma WholeIsRead(before: string, whole: string, after: string)
    requires Blank(before) && Blank(after) && AllDigits(whole)
    ensures ParseIrisSum(before + whole + after) == Success(100 * Value(whole))
  {
    assert whole + [] == whole;
    NumberHasNoOuterSpace(whole, []);
    TrimAround(before, whole, after);
    NoCommaInDecimal(whole);
    WholeIsDecimal(whole);
    ParseNormalized(before + whole + after, whole, whole, 100 * Value(whole));
  }

  lemma FractionNormalizes(before: string, whole: string, separator: char, fraction: string, after: string)
    requires Blank(before) && Blank(after) && AllDigits(whole) && AllDigits(fraction) && separator in {'.', ','}
    ensures ReplaceFirst(Trim(before + (whole + ([separator] + fraction)) + after), ',', '.')
         == whole + (['.'] + fraction)
  {
    assert ([separator] + fraction)[1..] == fraction;
    NumberHasNoOuterSpace(whole, [separator] + fraction);
    TrimAround(before, whole + ([separator] + fraction), after);
    SeparatorToDot(whole, separator, fraction);
  }

  lemma FractionIsRead(sum: string, whole: string, fraction: string)
    requires AllDigits(whole) && AllDigits(fraction)
    requires ReplaceFirst(Trim(sum), ',', '.') == whole + (['.'] + fraction)
    ensures ParseIrisSum(sum).Success?
    ensures var cents, scale := ParseIrisSum(sum).value, Pow10(|fraction|);
            scale * (2 * cents - 1) <= 200 * (Value(whole) * scale + Value(fraction)) < scale * (2 * cents + 1)
  {
    FractionIsDecimal(whole, fraction);
    Divided(Value(whole), Value(fraction), Pow10(|fraction|));
    NormalizedIsRead(sum, whole + (['.'] + fraction), Value(whole), Value(fraction), Pow10(|fraction|));
  }

  // A sum is read to the nearest cent, however many digits follow its separator.
  lemma SumIsReadToTheNearestCent(before: string, whole: string, tail: string, after: string)
    requires Blank(before) && Blank(after) && IsNumber(whole, tail)
    ensures ParseIrisSum(before + (whole + tail) + after).Success?
    ensures var cents := ParseIrisSum(before + (whole + tail) + after).value;
            var digits, scale := whole + Fraction(tail), Pow10(|Fraction(tail)|);
            && (forall c :: c in digits ==> IsDigit(c))
            && scale * (2 * cents - 1) <= 200 * Value(digits) < scale * (2 * cents + 1)
  {
    if tail == [] {
      WholeIsRead(before, whole, after);
      assert whole + tail == whole == whole + Fraction(tail);
    } else {
      var separator, fraction := tail[0], tail[1..];
      assert tail == [separator] + fraction;
      FractionNormalizes(before, whole, separator, fraction, after);
      FractionIsRead(before + (whole + tail) + after, whole, fraction);
      ValueJoins(whole, fraction);
    }
  }

  lemma Nearest(exact: real, whole: nat, fraction: nat, scale: nat)
    requires IsQuotient(exact, whole, fraction, scale)
    ensures var cents := MathRound(exact * 100.0);
            scale * (2 * cents - 1) <= 200 * (whole * scale + fraction) < scale * (2 * cents + 1)
  {
    var cents := MathRound(exact * 100.0);
    assert (2 * cents - 1) as real <= 200.0 * exact < (2 * cents + 1) as real;
    assert 200.0 * exact * scale as real == 200.0 * (exact * scale as real);
    ScaledBounds(2 * cents - 1, 200.0 * exact, 2 * cents + 1, scale, 200 * (whole * scale + fraction));
  }

  lemma ScaledBounds(low: int, exact: real, high: int, scale: int, scaled: int)
    requires low as real <= exact < high as real && scale > 0 && scaled as real == exact * scale as real
    ensures scale * low <= scaled < scale * high
  {
    assert (scale * low) as real == scale as real * low as real;
    assert (scale * high) as real == scale as real * high as real;
    assert scale as real * (exact - low as real) >= 0.0;
    assert scale as real * (high as real - exact) > 0.0;
  }

  lemma {:induction false} TrimStartSplits(s: string) returns (before: string)
    ensures s == before + TrimStart(s) && Blank(before)
    decreases |s|
  {
    before := [];
    if s != [] && IsSpace(s[0]) {
      before := TrimStartSplits(s[1..]);
      before := [s[0]] + before;
    }
  }

  lemma {:induction false} TrimEndSplits(s: string) returns (after: string)
    ensures s == TrimEnd(s) + after && Blank(after)
    decreases |s|
  {
    after := [];
    if s != [] && IsSpace(s[|s| - 1]) {
      after := TrimEndSplits(s[..|s| - 1]);
      after := after + [s[|s| - 1]];
    }
  }

  lemma DecimalDigits(s: string, k: nat)
    requires IsDecimal(s) && k < |s| && k != IndexOf(s, '.')
    ensures IsDigit(s[k])
  {
    var dot := IndexOf(s, '.');
    if k < dot {
      assert s[k] in s[..dot];
    } else {
      assert s[k] in s[dot + 1..];
    }
  }

  lemma DecimalSplits(t: string) returns (whole: string, tail: string)
    requires IsDecimal(ReplaceFirst(t, ',', '.'))
    ensures t == whole + tail && IsNumber(whole, tail)
  {
    var s := ReplaceFirst(t, ',', '.');
    var dot, comma := IndexOf(s, '.'), IndexOf(t, ',');
    whole, tail := t[..dot], t[dot..];
    if comma < |t| && comma != dot {
      DecimalDigits(s, comma);
    }
    assert t[..dot] == s[..dot];
    if dot < |t| { assert t[dot + 1..] == s[dot + 1..] == tail[1..]; }
  }

  predicate IsSum(sum: string, before: string, whole: string, tail: string, after: string) {
    sum == before + (whole + tail) + after && Blank(before) && Blank(after) && IsNumber(whole, tail)
  }

  // Readable are exactly the sums of this form: one or more digits, then perhaps a dot or a comma and one or
  // more digits, with blanks around.
  lemma SumIsReadableExactly(sum: string)
    ensures ParseIrisSum(sum).Success?
       <==> exists before, whole, tail, after :: IsSum(sum, before, whole, tail, after)
  {
    if ParseIrisSum(sum).Success? {
      var before := TrimStartSplits(sum);
      var after := TrimEndSplits(TrimStart(sum));
      var whole, tail := DecimalSplits(Trim(sum));
      assert sum == before + (whole + tail) + after;
      assert IsSum(sum, before, whole, tail, after);
    }
    if before, whole, tail, after :| IsSum(sum, before, whole, tail, after) {
      SumIsReadToTheNearestCent(before, whole, tail, after);
    }
  }
}
