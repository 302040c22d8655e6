/** Billing intervals such as `3-month`: the catalog's validator against the form in which Stripe prices are
    printed and compared with the catalog. */
module Intervals {
  import opened Basics

  const MAX_INT := 0x7FFF_FFFF_FFFF_FFFF

  predicate IsDigit(c: char) {
    '0' <= c <= '9'
  }

  predicate AllDigits(s: string) {
    forall i :: 0 <= i < |s| ==> IsDigit(s[i])
  }

  function DigitsValue(s: string): nat
    requires AllDigits(s)
  {
    if s == "" then 0 else DigitsValue(s[..|s| - 1]) * 10 + (s[|s| - 1] as int - '0' as int)
  }

  /** `strconv.Atoi` on a 64-bit platform. */
  function Atoi(s: string): Option<int> {
    var signed := s != "" && (s[0] == '+' || s[0] == '-');
    var digits := if signed then s[1..] else s;
    if digits == "" || !AllDigits(digits) then None
    else
      var n: int := DigitsValue(digits);
      if signed && s[0] == '-' then (if n <= MAX_INT + 1 then Some(-n) else None)
      else if n <= MAX_INT then Some(n) else None
  }

  /** `strings.Cut(s, "-")`. */
  function Cut(s: string): Option<(string, string)> {
    if s == "" then None
    else if s[0] == '-' then Some(("", s[1..]))
    else
      match Cut(s[1..])
      case None => None
      case Some((a, b)) => Some(([s[0]] + a, b))
  }

  predicate IsUnit(u: string) {
    u == "day" || u == "week" || u == "month" || u == "year"
  }

  /** `validProductInterval`. */
  predicate ValidInterval(value: string) {
    match Cut(value)
    case None => false
    case Some((count, unit)) =>
      var n := Atoi(count);
      n.Some? && n.value > 0 && IsUnit(unit)
  }

  /** `%d` of a non-negative number. */
  function Decimal(n: nat): string {
    if n < 10 then [('0' as int + n) as char] else Decimal(n / 10) + [('0' as int + n % 10) as char]
  }

  /** `fmt.Sprintf("%d-%s", count, unit)`, as a Stripe price is printed. */
  function Printed(count: nat, unit: string): string {
    Decimal(count) + "-" + unit
  }

  lemma {:induction false} DecimalValue(n: nat)
    ensures Decimal(n) != "" && AllDigits(Decimal(n)) && DigitsValue(Decimal(n)) == n
    ensures n > 0 ==> Decimal(n)[0] != '0'
  {
    if n < 10 {
      assert Decimal(n)[..0] == "";
    } else {
      DecimalValue(n / 10);
      var init := Decimal(n / 10);
      assert Decimal(n)[..|Decimal(n)| - 1] == init;
    }
  }

  lemma {:induction false} ValueDecimal(s: string)
    requires s != "" && AllDigits(s) && s[0] != '0'
    ensures DigitsValue(s) > 0 && Decimal(DigitsValue(s)) == s
  {
    var init, d := s[..|s| - 1], s[|s| - 1] as int - '0' as int;
    assert s == init + [s[|s| - 1]];
    if init == "" {
      assert DigitsValue(s) == d;
    } else {
      ValueDecimal(init);
      assert DigitsValue(s) / 10 == DigitsValue(init) && DigitsValue(s) % 10 == d;
    }
  }

  lemma {:induction false} CutAtFirst(a: string, b: string)
    requires '-' !in a
    ensures Cut(a + "-" + b) == Some((a, b))
  {
    var s := a + "-" + b;
    if a == "" {
      assert s[1..] == b;
    } else {
      assert s[1..] == a[1..] + "-" + b;
      CutAtFirst(a[1..], b);
      assert [s[0]] + a[1..] == a;
    }
  }

  lemma {:induction false} CutSplits(s: string)
    ensures Cut(s).Some? ==> s == Cut(s).value.0 + "-" + Cut(s).value.1 && '-' !in Cut(s).value.0
  {
    if s != "" && s[0] != '-' {
      CutSplits(s[1..]);
      assert s == [s[0]] + s[1..];
    } else if s != "" {
      assert s == "-" + s[1..];
    }
  }

  /** The intervals accepted: a positive 64-bit count, with or without a plus sign, and one of four units. */
  lemma ValidIntervalIff(value: string)
    ensures ValidInterval(value) <==>
              exists sign, digits, unit ::
                && value == sign + digits + "-" + unit
                && (sign == "" || sign == "+") && digits != "" && AllDigits(digits)
                && 0 < DigitsValue(digits) <= 9223372036854775807
                && (unit == "day" || unit == "week" || unit == "month" || unit == "year")
  {
    CutSplits(value);
    if ValidInterval(value) {
      var (count, unit) := Cut(value).value;
      assert '-' !in count;
      var sign, digits := if count[0] == '+' then "+" else "", if count[0] == '+' then count[1..] else count;
      assert value == sign + digits + "-" + unit;
    }
    forall sign, digits, unit |
      && value == sign + digits + "-" + unit
      && (sign == "" || sign == "+") && digits != "" && AllDigits(digits)
      && 0 < DigitsValue(digits) <= 9223372036854775807
      && (unit == "day" || unit == "week" || unit == "month" || unit == "year")
      ensures ValidInterval(value)
    {
      CutAtFirst(sign + digits, unit);
      assert sign == "+" ==> (sign + digits)[1..] == digits;
      assert sign == "" ==> sign + digits == digits;
    }
  }

  /** A printed Stripe interval is accepted by the catalog validator. */
  lemma PrintedIsValid(count: nat, unit: string)
    requires 0 < count <= MAX_INT && IsUnit(unit)
    ensures ValidInterval(Printed(count, unit))
  {
    DecimalValue(count);
    CutAtFirst(Decimal(count), unit);
  }

  /** The printed form determines count and unit, so comparing interval strings compares intervals. */
  lemma PrintedIsInjective(m: nat, u: string, n: nat, v: string)
    requires Printed(m, u) == Printed(n, v)
    ensures m == n && u == v
  {
    DecimalValue(m);
    DecimalValue(n);
    CutAtFirst(Decimal(m), u);
    CutAtFirst(Decimal(n), v);
  }

  /** The validator accepts more than Stripe prints: a valid interval is the printed form of some price
      exactly when its count starts with a digit other than zero. An entry such as `01-month` or `+1-month`
      loads but can never match a price. */
  lemma PrintableIff(value: string)
    requires ValidInterval(value)
    ensures (exists n: nat, u :: 0 < n <= MAX_INT && IsUnit(u) && value == Printed(n, u)) <==> '1' <= value[0] <= '9'
  {
    CutSplits(value);
    var (count, unit) := Cut(value).value;
    if '1' <= value[0] <= '9' {
      assert value[0] == count[0];
      ValueDecimal(count);
      assert value == Printed(DigitsValue(count), unit);
    }
    forall n: nat, u | 0 < n <= MAX_INT && IsUnit(u) && value == Printed(n, u) ensures '1' <= value[0] <= '9' {
      DecimalValue(n);
      assert value[0] == Decimal(n)[0];
    }
  }

  lemma DigitCounts()
    ensures DigitsValue("01") == 1 && DigitsValue("1") == 1
  {
    assert "01"[..1] == "0" && "0"[..0] == "" && "1"[..0] == "";
    assert DigitsValue("0") == 0;
  }

  /** Two entries that load and match no price. */
  lemma UnprintableIntervals(n: nat, u: string)
    ensures ValidInterval("01-month") && ValidInterval("+1-month")
    ensures Printed(n, u) != "01-month" && Printed(n, u) != "+1-month"
  {
    CutAtFirst("01", "month");
    CutAtFirst("+1", "month");
    assert "01" + "-" + "month" == "01-month" && "+1" + "-" + "month" == "+1-month";
    assert "+1"[1..] == "1";
    DigitCounts();
    DecimalValue(n);
    CutAtFirst(Decimal(n), u);
    assert n == 0 ==> Decimal(n) == "0" != "01";
  }
}
