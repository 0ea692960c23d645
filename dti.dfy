/**
 * The quick debt-to-income calculator of the manual evaluation mode (App.tsx):
 * comma stripping, parsing, the clamped ratio, its status and the advice choice.
 *
 * `parseFloat` is not modelled: the calculator takes the parser as a parameter
 * and relies on it only for what `ParseFloatLike` states.
 */
module Dti {
  import opened Wrappers
  import opened Types

  /** A JavaScript number as the calculator can produce it: a value or NaN. */
  datatype JsNumber = Num(value: real) | NaN

  datatype DtiStatus = Neutral | Good | Fair | Risk

  /** Which of the two advice texts is shown; the texts themselves are opaque. */
  datatype AdviceKind = SalariedAdvice | RiskAdvice

  /** What the model needs of `parseFloat`: the empty string is not a number. */
  predicate ParseFloatLike(parse: string -> Option<real>) {
    parse([]) == None
  }

  /** `s.replace(/,/g, '')`: every comma removed, every other character kept. */
  function StripCommas(s: string): (r: string)
    ensures ',' !in r
    ensures |r| <= |s|
    ensures forall c :: c != ',' ==> multiset(r)[c] == multiset(s)[c]
  {
    if s == [] then []
    else
      var rest := StripCommas(s[1..]);
      assert s == [s[0]] + s[1..];
      if s[0] == ',' then rest else [s[0]] + rest
  }

  /** Stripping works piecewise, so the kept characters stay in their order. */
  lemma {:induction false} StripCommasAppend(a: string, b: string)
    ensures StripCommas(a + b) == StripCommas(a) + StripCommas(b)
  {
    if a == [] {
      assert a + b == b;
    } else {
      assert (a + b)[1..] == a[1..] + b;
      StripCommasAppend(a[1..], b);
    }
  }

  /** A string without commas is left as it is; in particular stripping is idempotent. */
  lemma {:induction false} StripCommasIdentity(s: string)
    requires ',' !in s
    ensures StripCommas(s) == s
  {
    if s != [] {
      assert s == [s[0]] + s[1..];
      StripCommasIdentity(s[1..]);
    }
  }

  /** `Math.min(Math.max(x, 0), 100)` on a number that is not NaN. */
  function Clamp(x: real): (r: real)
    ensures 0.0 <= r <= 100.0
    ensures 0.0 <= x <= 100.0 ==> r == x
    ensures x < 0.0 ==> r == 0.0
    ensures x > 100.0 ==> r == 100.0
  {
    if x < 0.0 then 0.0 else if x > 100.0 then 100.0 else x
  }

  /**
   * `calculateDTI`. When income does not parse or is zero the ratio is 0.
   * When income is a non-zero number but debt does not parse, `debt / income`
   * is NaN, which `Math.max` and `Math.min` pass through: the clamp does not hold.
   */
  function CalculateDti(incomeText: string, debtText: string, parse: string -> Option<real>): (r: JsNumber)
    ensures var income := parse(StripCommas(incomeText));
      (income.None? || income.value == 0.0) ==> r == Num(0.0)
    ensures r == NaN <==>
      (var income := parse(StripCommas(incomeText));
       income.Some? && income.value != 0.0 && parse(StripCommas(debtText)).None?)
    ensures r.Num? ==> 0.0 <= r.value <= 100.0
  {
    var income := parse(StripCommas(incomeText));
    var debt := parse(StripCommas(debtText));
    if income.None? || income.value == 0.0 then Num(0.0)
    else if debt.None? then NaN
    else Num(Clamp(debt.value / income.value * 100.0))
  }

  /** When both fields parse and income is non-zero, the ratio is the clamped percentage. */
  lemma RatioWhenBothParse(incomeText: string, debtText: string, parse: string -> Option<real>,
                           income: real, debt: real)
    requires parse(StripCommas(incomeText)) == Some(income) && income != 0.0
    requires parse(StripCommas(debtText)) == Some(debt)
    ensures CalculateDti(incomeText, debtText, parse) == Num(Clamp(debt / income * 100.0))
    ensures 0.0 <= debt / income * 100.0 <= 100.0 ==>
              CalculateDti(incomeText, debtText, parse) == Num(debt / income * 100.0)
  {
  }

  /**
   * `getDTIStatus`: neutral exactly when the ratio is 0 and the income field is
   * empty; otherwise good up to 35, fair up to 50, and risk above 50 or on NaN.
   */
  function GetDtiStatus(dti: JsNumber, incomeText: string): (s: DtiStatus)
    ensures s == Neutral <==> dti == Num(0.0) && incomeText == []
    ensures s == Good <==> dti.Num? && dti.value <= 35.0 && !(dti.value == 0.0 && incomeText == [])
    ensures s == Fair <==> dti.Num? && 35.0 < dti.value <= 50.0
    ensures s == Risk <==> dti == NaN || (dti.Num? && dti.value > 50.0)
  {
    if dti == Num(0.0) && incomeText == [] then Neutral
    else match dti
      case NaN => Risk
      case Num(v) => if v <= 35.0 then Good else if v <= 50.0 then Fair else Risk
  }

  /** An empty income field always gives the neutral status, whatever the debt field holds. */
  lemma EmptyIncomeIsNeutral(debtText: string, parse: string -> Option<real>)
    requires ParseFloatLike(parse)
    ensures CalculateDti([], debtText, parse) == Num(0.0)
    ensures GetDtiStatus(CalculateDti([], debtText, parse), []) == Neutral
  {
  }

  /** A non-empty income field never gives neutral, even when the ratio is 0. */
  lemma NonEmptyIncomeNotNeutral(incomeText: string, debtText: string, parse: string -> Option<real>)
    requires incomeText != []
    ensures GetDtiStatus(CalculateDti(incomeText, debtText, parse), incomeText) != Neutral
  {
  }

  /** The NaN path: a usable income with an unparsable debt is classified as risk. */
  lemma UnparsedDebtIsRisk(incomeText: string, debtText: string, parse: string -> Option<real>)
    requires parse(StripCommas(incomeText)).Some? && parse(StripCommas(incomeText)).value != 0.0
    requires parse(StripCommas(debtText)).None?
    ensures CalculateDti(incomeText, debtText, parse) == NaN
    ensures GetDtiStatus(CalculateDti(incomeText, debtText, parse), incomeText) == Risk
  {
  }

  /** A non-empty income field that does not parse reads as a 0 % ratio and is classified good. */
  lemma UnparsedIncomeIsGood(incomeText: string, debtText: string, parse: string -> Option<real>)
    requires incomeText != [] && parse(StripCommas(incomeText)).None?
    ensures CalculateDti(incomeText, debtText, parse) == Num(0.0)
    ensures GetDtiStatus(CalculateDti(incomeText, debtText, parse), incomeText) == Good
  {
  }

  /** The order of the statuses from best to worst. */
  function StatusRank(s: DtiStatus): nat {
    match s
    case Neutral => 0
    case Good => 0
    case Fair => 1
    case Risk => 2
  }

  /** Once the income field is filled in, a higher ratio never gets a better status. */
  lemma StatusMonotone(a: real, b: real, incomeText: string)
    requires incomeText != [] && a <= b
    ensures StatusRank(GetDtiStatus(Num(a), incomeText)) <= StatusRank(GetDtiStatus(Num(b), incomeText))
    ensures StatusRank(GetDtiStatus(Num(b), incomeText)) <= StatusRank(GetDtiStatus(NaN, incomeText))
  {
  }

  /** `adviceText`: the salaried advice only for a salaried applicant outside risk. */
  function Advice(applicantType: Option<ApplicantType>, status: DtiStatus): (r: AdviceKind)
    ensures r == SalariedAdvice <==> applicantType == Some(Salaried) && status != Risk
  {
    if applicantType == Some(Salaried) then
      (if status == Risk then RiskAdvice else SalariedAdvice)
    else RiskAdvice
  }

  // A concrete parser, not a model of `parseFloat` (it reads no sign, no
  // fraction and no leading space): the longest prefix of ASCII digits, read
  // as a whole number, or None when the text starts with no digit. It shows
  // that `ParseFloatLike` and the premises of the worked scenarios can be met.

  predicate IsDigit(c: char) {
    '0' <= c <= '9'
  }

  function LeadingDigits(s: string): (n: nat)
    ensures n <= |s|
    ensures forall i :: 0 <= i < n ==> IsDigit(s[i])
    ensures n < |s| ==> !IsDigit(s[n])
  {
    if s == [] || !IsDigit(s[0]) then 0 else 1 + LeadingDigits(s[1..])
  }

  function DigitValue(c: char): nat
    requires IsDigit(c)
  {
    (c as int) - ('0' as int)
  }

  function DigitsValue(ds: string): nat
    requires forall i :: 0 <= i < |ds| ==> IsDigit(ds[i])
  {
    if ds == [] then 0
    else DigitsValue(ds[..|ds| - 1]) * 10 + DigitValue(ds[|ds| - 1])
  }

  function DigitPrefixParse(s: string): (r: Option<real>)
    ensures r.None? <==> (s == [] || !IsDigit(s[0]))
    ensures r.Some? ==> r.value >= 0.0
  {
    var n := LeadingDigits(s);
    if n == 0 then None else Some(DigitsValue(s[..n]) as real)
  }

  lemma DigitPrefixParseIsParseFloatLike()
    ensures ParseFloatLike(DigitPrefixParse)
  {
  }

  lemma DigitsValueSnoc(ds: string, c: char)
    requires forall i :: 0 <= i < |ds| ==> IsDigit(ds[i])
    requires IsDigit(c)
    ensures DigitsValue(ds + [c]) == DigitsValue(ds) * 10 + DigitValue(c)
  {
    assert (ds + [c])[..|ds|] == ds;
  }

  /** The digit-prefix parser reads a five-digit amount positionally. */
  lemma ParseFiveDigits(a: char, b: char, c: char, d: char, e: char)
    requires IsDigit(a) && IsDigit(b) && IsDigit(c) && IsDigit(d) && IsDigit(e)
    ensures DigitPrefixParse([a, b, c, d, e]) ==
              Some((DigitValue(a) * 10000 + DigitValue(b) * 1000 + DigitValue(c) * 100 +
                    DigitValue(d) * 10 + DigitValue(e)) as real)
  {
    var s := [a, b, c, d, e];
    assert LeadingDigits(s) == 5 by {
      assert LeadingDigits(s[4..]) == 1;
      assert s[3..][1..] == s[4..];
      assert s[2..][1..] == s[3..];
      assert s[1..][1..] == s[2..];
    }
    assert s[..5] == s;
    DigitsValueSnoc([], a);
    DigitsValueSnoc([a], b);
    DigitsValueSnoc([a, b], c);
    DigitsValueSnoc([a, b, c], d);
    DigitsValueSnoc([a, b, c, d], e);
    assert [] + [a] == [a];
    assert [a] + [b] == [a, b];
    assert [a, b] + [c] == [a, b, c];
    assert [a, b, c] + [d] == [a, b, c, d];
    assert [a, b, c, d] + [e] == s;
  }

  /** Removing the comma of "ab,cde" leaves the five digits. */
  lemma StripThousands(a: char, b: char, c: char, d: char, e: char)
    requires a != ',' && b != ',' && c != ',' && d != ',' && e != ','
    ensures StripCommas([a, b, ',', c, d, e]) == [a, b, c, d, e]
  {
    var t := [a, b, ',', c, d, e];
    assert t[1..] == [b, ',', c, d, e];
    assert t[1..][1..] == [',', c, d, e];
    assert t[1..][1..][1..] == [c, d, e];
    assert [c, d, e][1..] == [d, e];
    assert [d, e][1..] == [e];
    assert [e][1..] == [];
    assert StripCommas([e]) == [e];
    assert StripCommas([d, e]) == [d, e];
    assert StripCommas([c, d, e]) == [c, d, e];
    assert StripCommas([',', c, d, e]) == [c, d, e];
  }

  /** Income "50,000" and debt "15,000", read by a parser that reads the digit strings as written, give 30: good. */
  lemma ScenarioGood(parse: string -> Option<real>)
    requires parse("50000") == Some(50000.0) && parse("15000") == Some(15000.0)
    ensures CalculateDti("50,000", "15,000", parse) == Num(30.0)
    ensures GetDtiStatus(Num(30.0), "50,000") == Good
  {
    assert StripCommas("50,000") == "50000" by { StripThousands('5', '0', '0', '0', '0'); }
    assert StripCommas("15,000") == "15000" by { StripThousands('1', '5', '0', '0', '0'); }
    RatioWhenBothParse("50,000", "15,000", parse, 50000.0, 15000.0);
  }

  /** Income "50,000" and debt "22,500" give 45: fair. */
  lemma ScenarioFair(parse: string -> Option<real>)
    requires parse("50000") == Some(50000.0) && parse("22500") == Some(22500.0)
    ensures CalculateDti("50,000", "22,500", parse) == Num(45.0)
    ensures GetDtiStatus(Num(45.0), "50,000") == Fair
  {
    assert StripCommas("50,000") == "50000" by { StripThousands('5', '0', '0', '0', '0'); }
    assert StripCommas("22,500") == "22500" by { StripThousands('2', '2', '5', '0', '0'); }
    RatioWhenBothParse("50,000", "22,500", parse, 50000.0, 22500.0);
  }

  /** Income "50,000" and debt "30,000" give 60, inside the clamp: risk. */
  lemma ScenarioRisk(parse: string -> Option<real>)
    requires parse("50000") == Some(50000.0) && parse("30000") == Some(30000.0)
    ensures CalculateDti("50,000", "30,000", parse) == Num(60.0)
    ensures GetDtiStatus(Num(60.0), "50,000") == Risk
  {
    assert StripCommas("50,000") == "50000" by { StripThousands('5', '0', '0', '0', '0'); }
    assert StripCommas("30,000") == "30000" by { StripThousands('3', '0', '0', '0', '0'); }
    RatioWhenBothParse("50,000", "30,000", parse, 50000.0, 30000.0);
  }

  /** The digit-prefix parser reads the four amounts of the scenarios as written. */
  lemma DigitParserReadsScenarioAmounts()
    ensures DigitPrefixParse("50000") == Some(50000.0) && DigitPrefixParse("15000") == Some(15000.0)
    ensures DigitPrefixParse("22500") == Some(22500.0) && DigitPrefixParse("30000") == Some(30000.0)
  {
    ParseFiveDigits('5', '0', '0', '0', '0');
    ParseFiveDigits('1', '5', '0', '0', '0');
    ParseFiveDigits('2', '2', '5', '0', '0');
    ParseFiveDigits('3', '0', '0', '0', '0');
  }

  /** With the digit-prefix parser the three worked scenarios hold. */
  lemma ScenariosWithDigitParser()
    ensures CalculateDti("50,000", "15,000", DigitPrefixParse) == Num(30.0)
    ensures CalculateDti("50,000", "22,500", DigitPrefixParse) == Num(45.0)
    ensures CalculateDti("50,000", "30,000", DigitPrefixParse) == Num(60.0)
  {
    DigitParserReadsScenarioAmounts();
    ScenarioGood(DigitPrefixParse);
    ScenarioFair(DigitPrefixParse);
    ScenarioRisk(DigitPrefixParse);
  }

  /** Both fields empty give 0 and neutral, not good. */
  lemma ScenarioEmpty()
    ensures CalculateDti("", "", DigitPrefixParse) == Num(0.0)
    ensures GetDtiStatus(CalculateDti("", "", DigitPrefixParse), "") == Neutral
  {
    EmptyIncomeIsNeutral("", DigitPrefixParse);
  }
}
