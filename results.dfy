/**
 * What the results page (components/AnalysisResults.tsx) derives from an
 * analysis result: the score gauge and its colour, the stability badge, the
 * bank cards' emphasis and the two breakdown sections of the details dialog.
 */
module Results {
  import opened Wrappers
  import opened Types

  /** The three score colours. */
  datatype ScoreBand = GreenBand | AmberBand | RedBand

  function Hex(b: ScoreBand): string {
    match b
    case GreenBand => "#4ade80"
    case AmberBand => "#fbbf24"
    case RedBand => "#f87171"
  }

  /** `getScoreColor`: green from 70, amber from 50, red below. */
  function ScoreColor(score: real): (b: ScoreBand)
    ensures b == GreenBand <==> score >= 70.0
    ensures b == AmberBand <==> 50.0 <= score < 70.0
    ensures b == RedBand <==> score < 50.0
  {
    if score >= 70.0 then GreenBand else if score >= 50.0 then AmberBand else RedBand
  }

  /** The colours tell the bands apart. */
  lemma HexDistinct(a: ScoreBand, b: ScoreBand)
    ensures Hex(a) == Hex(b) <==> a == b
  {
    if a != b {
      assert Hex(a)[2] != Hex(b)[2];
    }
  }

  function BandRank(b: ScoreBand): nat {
    match b
    case RedBand => 0
    case AmberBand => 1
    case GreenBand => 2
  }

  /** A higher score never gets a worse colour. */
  lemma ScoreColorMonotone(a: real, b: real)
    requires a <= b
    ensures BandRank(ScoreColor(a)) <= BandRank(ScoreColor(b))
  {
  }

  /** One slice of the gauge's pie. */
  datatype GaugeSlice = GaugeSlice(name: string, value: real)

  /** `scoreData`: the score and what remains to 100. */
  function ScoreData(score: real): (d: seq<GaugeSlice>)
    ensures |d| == 2
    ensures d[0] == GaugeSlice("Score", score) && d[1].name == "Remaining"
    ensures d[0].value + d[1].value == 100.0
  {
    [GaugeSlice("Score", score), GaugeSlice("Remaining", 100.0 - score)]
  }

  /**
   * Both slices are non-negative exactly when the score lies in the
   * documented 0 to 100 range, which nothing enforces on the model's reply.
   */
  lemma GaugeSlicesNonNegative(score: real)
    ensures (ScoreData(score)[0].value >= 0.0 && ScoreData(score)[1].value >= 0.0) <==> ScoreInDocumentedRange(score)
  {
  }

  /** The stability badge's colour. */
  datatype Badge = GreenBadge | AmberBadge | RedBadge

  /** High is green, Medium amber, anything else red. */
  function StabilityBadge(s: EmploymentStability): (b: Badge)
    ensures b == GreenBadge <==> s == High
    ensures b == AmberBadge <==> s == Medium
    ensures b == RedBadge <==> s != High && s != Medium
  {
    if s == High then GreenBadge else if s == Medium then AmberBadge else RedBadge
  }

  /** How a bank card is emphasised. */
  datatype CardEmphasis = CardEmphasis(accentBar: bool, topPickBadge: bool, strongName: bool, strongScore: bool)

  /** `BankCard`: every emphasis follows `status === 'Recommended'`. */
  function CardEmphasisOf(rec: BankRecommendation): (e: CardEmphasis)
    ensures e.accentBar <==> rec.status == Recommended
    ensures e.topPickBadge == e.accentBar == e.strongName == e.strongScore
  {
    var isRecommended := rec.status == Recommended;
    CardEmphasis(isRecommended, isRecommended, isRecommended, isRecommended)
  }

  /** The recommended banks, in the order of the reply. */
  function RecommendedOnly(recs: seq<BankRecommendation>): (r: seq<BankRecommendation>)
    ensures forall x :: x in r <==> x in recs && x.status == Recommended
  {
    if recs == [] then []
    else
      var rest := RecommendedOnly(recs[1..]);
      assert forall x :: x in recs <==> x == recs[0] || x in recs[1..];
      if recs[0].status == Recommended then [recs[0]] + rest else rest
  }

  /** The number of top-pick badges on the page: one per recommended bank. */
  function TopPicks(recs: seq<BankRecommendation>): (n: nat)
    ensures n == |RecommendedOnly(recs)|
  {
    if recs == [] then 0
    else (if CardEmphasisOf(recs[0]).topPickBadge then 1 else 0) + TopPicks(recs[1..])
  }

  /** The page shows no top pick at all exactly when no bank is recommended. */
  lemma {:induction false} TopPicksCountRecommended(recs: seq<BankRecommendation>)
    ensures TopPicks(recs) == 0 <==> forall i :: 0 <= i < |recs| ==> recs[i].status != Recommended
  {
    if TopPicks(recs) != 0 {
      var x := RecommendedOnly(recs)[0];
      assert x in recs && x.status == Recommended;
    }
  }

  /** The income part of the details dialog. */
  datatype IncomeSection =
    | IncomeRows(base: real, variable: real, haircut: real, total: real, explanation: string)
    | NoIncomeBreakdown

  /** The figures of the breakdown, with the profile's estimate as the total; the fallback when there is no breakdown. */
  function IncomeSectionOf(p: FinancialProfile): (r: IncomeSection)
    ensures r == NoIncomeBreakdown <==> p.incomeBreakdown.None?
    ensures r.IncomeRows? ==>
      && r.base == p.incomeBreakdown.value.baseIncome
      && r.variable == p.incomeBreakdown.value.variableIncome
      && r.haircut == p.incomeBreakdown.value.haircutApplied
      && r.total == p.estimatedMonthlyIncome
  {
    match p.incomeBreakdown
    case None => NoIncomeBreakdown
    case Some(b) => IncomeRows(b.baseIncome, b.variableIncome, b.haircutApplied, p.estimatedMonthlyIncome, b.explanation)
  }

  /**
   * The income total is the reply's estimate as it is: nothing reconciles it
   * with base + variable - haircut, so the dialog can show rows that do not add up.
   */
  lemma IncomeRowsNotReconciled()
    ensures exists p: FinancialProfile ::
      var r := IncomeSectionOf(p);
      r.IncomeRows? && r.total != r.base + r.variable - r.haircut
  {
    var p := FinancialProfile(50000.0, Some(IncomeBreakdown(30000.0, 0.0, 0.0, [])), 0.0, None,
                              Medium, PSalaried, [], []);
    assert IncomeSectionOf(p).total != IncomeSectionOf(p).base + IncomeSectionOf(p).variable - IncomeSectionOf(p).haircut;
  }

  /** The debt part of the details dialog. */
  datatype DebtSection =
    | DebtRows(existing: real, detected: seq<string>, showDetected: bool, installment: real, total: real)
    | NoDebtBreakdown

  /** Displayed total debt: the existing debt plus the new home installment. */
  function TotalDebt(d: DebtBreakdown): (r: real)
    ensures d.totalExistingDebt >= 0.0 && d.estimatedHomeInstallment >= 0.0 ==>
      r >= d.totalExistingDebt && r >= d.estimatedHomeInstallment
    ensures r - d.estimatedHomeInstallment == d.totalExistingDebt
  {
    d.totalExistingDebt + d.estimatedHomeInstallment
  }

  /** The rows of the breakdown, the detected-debt list only when it is non-empty; the fallback when there is no breakdown. */
  function DebtSectionOf(p: FinancialProfile): (r: DebtSection)
    ensures r == NoDebtBreakdown <==> p.debtBreakdown.None?
    ensures r.DebtRows? ==>
      && r.existing == p.debtBreakdown.value.totalExistingDebt
      && r.installment == p.debtBreakdown.value.estimatedHomeInstallment
      && r.detected == p.debtBreakdown.value.detectedDebts
      && (r.showDetected <==> |r.detected| > 0)
      && r.total == r.existing + r.installment
  {
    match p.debtBreakdown
    case None => NoDebtBreakdown
    case Some(d) => DebtRows(d.totalExistingDebt, d.detectedDebts, |d.detectedDebts| > 0,
                             d.estimatedHomeInstallment, TotalDebt(d))
  }
}
