/**
 * The closed enumerations and record shapes of the application (types.ts).
 * Numbers that arrive from the scoring service are modelled as `real`.
 */
module Types {
  import opened Wrappers

  datatype Language = Th | En

  datatype ApplicantType = Salaried | BusinessOwner | Freelance | Farmer | Investor

  datatype EvaluationMode = Manual | Ai

  /** The thirteen document categories; `CategoryValue` gives each one's string value. */
  datatype DocumentCategory =
    | Identity | Income | Banking | Additional | Spouse | Business | Tax
    | Contract | Agriculture | Asset | Land | Investment | Professional

  /** One entry of the document checklist; absent `optional`/`multiple` are `None`. */
  datatype DocumentRequirement = DocumentRequirement(
    id: string,
    displayLabel: string,   // `label` in the source; a reserved word here
    description: string,
    category: DocumentCategory,
    optional: Option<bool>,
    multiple: Option<bool>)

  /** The browser `File` as far as the application looks at it. */
  datatype FileHandle = FileHandle(name: string, size: nat, mimeType: string)

  /** The object URL created for a preview, kept opaque. */
  datatype PreviewToken = PreviewToken(handle: nat)

  datatype UploadedFile = UploadedFile(
    id: string,
    file: FileHandle,
    category: DocumentCategory,
    previewUrl: Option<PreviewToken>,
    base64: Option<string>,
    mimeType: string)

  datatype RecommendationStatus = Recommended | Possible | Unlikely

  datatype BankRecommendation = BankRecommendation(
    bankName: string,
    productName: string,
    matchScore: real,   // documented as 0-100, not enforced
    status: RecommendationStatus,
    reason: string,
    interestRateHighlight: string)

  datatype IncomeBreakdown = IncomeBreakdown(
    baseIncome: real, variableIncome: real, haircutApplied: real, explanation: string)

  datatype DebtBreakdown = DebtBreakdown(
    totalExistingDebt: real, detectedDebts: seq<string>, estimatedHomeInstallment: real)

  datatype EmploymentStability = High | Medium | Low

  /** The profile's occupation set; it differs from `ApplicantType` in spelling `Business Owner`. */
  datatype ProfileApplicantType = PSalaried | PBusinessOwner | PFreelance | PFarmer | PInvestor

  datatype FinancialProfile = FinancialProfile(
    estimatedMonthlyIncome: real,
    incomeBreakdown: Option<IncomeBreakdown>,
    debtServiceRatio: real,
    debtBreakdown: Option<DebtBreakdown>,
    employmentStability: EmploymentStability,
    applicantType: ProfileApplicantType,
    strengths: seq<string>,
    weaknesses: seq<string>)

  datatype AnalysisResult = AnalysisResult(
    creditworthinessScore: real,   // documented as 0-100, not enforced
    profile: FinancialProfile,
    recommendations: seq<BankRecommendation>,
    summary: string)

  /** The documented score range, which nothing in the types enforces. */
  predicate ScoreInDocumentedRange(score: real) {
    0.0 <= score <= 100.0
  }

  const AllCategories: seq<DocumentCategory> :=
    [Identity, Income, Banking, Additional, Spouse, Business, Tax,
     Contract, Agriculture, Asset, Land, Investment, Professional]

  /** The string value of each category: its own member name. */
  function CategoryValue(c: DocumentCategory): string {
    match c
    case Identity => "IDENTITY"
    case Income => "INCOME"
    case Banking => "BANKING"
    case Additional => "ADDITIONAL"
    case Spouse => "SPOUSE"
    case Business => "BUSINESS"
    case Tax => "TAX"
    case Contract => "CONTRACT"
    case Agriculture => "AGRICULTURE"
    case Asset => "ASSET"
    case Land => "LAND"
    case Investment => "INVESTMENT"
    case Professional => "PROFESSIONAL"
  }

  /** Reads a category back from its string value. */
  function ParseCategory(s: string): (r: Option<DocumentCategory>)
    ensures r.Some? ==> CategoryValue(r.value) == s
  {
    if s == "IDENTITY" then Some(Identity)
    else if s == "INCOME" then Some(Income)
    else if s == "BANKING" then Some(Banking)
    else if s == "ADDITIONAL" then Some(Additional)
    else if s == "SPOUSE" then Some(Spouse)
    else if s == "BUSINESS" then Some(Business)
    else if s == "TAX" then Some(Tax)
    else if s == "CONTRACT" then Some(Contract)
    else if s == "AGRICULTURE" then Some(Agriculture)
    else if s == "ASSET" then Some(Asset)
    else if s == "LAND" then Some(Land)
    else if s == "INVESTMENT" then Some(Investment)
    else if s == "PROFESSIONAL" then Some(Professional)
    else None
  }

  /** The position of each category in the declaration. */
  function CategoryIndex(c: DocumentCategory): nat {
    match c
    case Identity => 0
    case Income => 1
    case Banking => 2
    case Additional => 3
    case Spouse => 4
    case Business => 5
    case Tax => 6
    case Contract => 7
    case Agriculture => 8
    case Asset => 9
    case Land => 10
    case Investment => 11
    case Professional => 12
  }

  /** Every category is listed once, and its string value reads back as itself. */
  lemma CategoriesComplete(c: DocumentCategory)
    ensures |AllCategories| == 13
    ensures CategoryIndex(c) < 13 && AllCategories[CategoryIndex(c)] == c
    ensures ParseCategory(CategoryValue(c)) == Some(c)
    ensures forall i, j :: 0 <= i < j < |AllCategories| ==> AllCategories[i] != AllCategories[j]
  {
    forall i | 0 <= i < |AllCategories|
      ensures CategoryIndex(AllCategories[i]) == i
    {
    }
  }

  function ApplicantTypeValue(t: ApplicantType): string {
    match t
    case Salaried => "Salaried"
    case BusinessOwner => "BusinessOwner"
    case Freelance => "Freelance"
    case Farmer => "Farmer"
    case Investor => "Investor"
  }

  function ParseApplicantType(s: string): (r: Option<ApplicantType>)
    ensures r.Some? ==> ApplicantTypeValue(r.value) == s
  {
    if s == "Salaried" then Some(Salaried)
    else if s == "BusinessOwner" then Some(BusinessOwner)
    else if s == "Freelance" then Some(Freelance)
    else if s == "Farmer" then Some(Farmer)
    else if s == "Investor" then Some(Investor)
    else None
  }

  function ProfileApplicantTypeValue(p: ProfileApplicantType): string {
    match p
    case PSalaried => "Salaried"
    case PBusinessOwner => "Business Owner"
    case PFreelance => "Freelance"
    case PFarmer => "Farmer"
    case PInvestor => "Investor"
  }

  /**
   * The applicant type round-trips through its string value, but the profile's
   * `Business Owner` is not an applicant-type value at all: the two sets differ.
   */
  lemma ApplicantTypeSetsDiffer(t: ApplicantType)
    ensures ParseApplicantType(ApplicantTypeValue(t)) == Some(t)
    ensures ParseApplicantType(ProfileApplicantTypeValue(PBusinessOwner)) == None
    ensures ApplicantTypeValue(BusinessOwner) != ProfileApplicantTypeValue(PBusinessOwner)
  {
  }
}
