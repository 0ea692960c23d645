/**
 * The document checklist of each applicant type (constants.ts
 * `getRequiredDocs`) and the list of loan tips. In the source every entry
 * picks its label and description by language (`isTh ? th : en`) and keeps
 * its id, category and flags fixed; here each list is written as a layout
 * (the fixed part) and a wording table (both languages), joined entry by
 * entry by `Localize`.
 */
module Catalogue {
  import opened Wrappers
  import opened Types
  import Uploader

  /** The language-independent part of a checklist entry. */
  datatype Slot = Slot(id: string, category: DocumentCategory, optional: Option<bool>, multiple: Option<bool>)

  /** The label and description of an entry in Thai and in English. */
  datatype Wording = Wording(thLabel: string, enLabel: string, thDescription: string, enDescription: string)

  /** `isTh ? th : en`. */
  function Pick(isTh: bool, th: string, en: string): string {
    if isTh then th else en
  }

  function Localize(isTh: bool, s: Slot, w: Wording): (d: DocumentRequirement)
    ensures Shape(d) == s
    ensures d.displayLabel == (if isTh then w.thLabel else w.enLabel)
    ensures d.description == (if isTh then w.thDescription else w.enDescription)
  {
    DocumentRequirement(s.id, Pick(isTh, w.thLabel, w.enLabel), Pick(isTh, w.thDescription, w.enDescription),
                        s.category, s.optional, s.multiple)
  }

  /** The fields of an entry that do not depend on the language. */
  function Shape(d: DocumentRequirement): Slot {
    Slot(d.id, d.category, d.optional, d.multiple)
  }

  /** Joins a layout with its wording, entry by entry. */
  function Build(isTh: bool, slots: seq<Slot>, words: seq<Wording>): (r: seq<DocumentRequirement>)
    requires |slots| == |words|
    ensures |r| == |slots|
    ensures forall i :: 0 <= i < |r| ==> r[i] == Localize(isTh, slots[i], words[i])
  {
    seq(|slots|, i requires 0 <= i < |slots| => Localize(isTh, slots[i], words[i]))
  }

  // Layouts: id, category and flags of each entry, in list order.

  const CommonSlots: seq<Slot> := [
    Slot("id_card", Identity, None, None),
    Slot("house_reg", Identity, Some(true), None)
  ]

  const SalariedExtra: seq<Slot> := [
    Slot("salary_slip", Income, None, Some(true)),
    Slot("bank_statement_salary", Banking, None, Some(true)),
    Slot("employment_cert", Income, Some(true), None)
  ]

  const BusinessOwnerExtra: seq<Slot> := [
    Slot("dbd_cert", Business, None, None),
    Slot("shareholder_list", Business, None, None),
    Slot("bank_statement_biz", Banking, None, Some(true)),
    Slot("pp30_pp20", Tax, Some(true), None),
    Slot("biz_photos", Additional, None, Some(true))
  ]

  const FreelanceExtra: seq<Slot> := [
    Slot("50bis", Tax, None, Some(true)),
    Slot("bank_statement", Banking, None, Some(true)),
    Slot("professional_license", Professional, Some(true), None),
    Slot("portfolio", Additional, None, Some(true))
  ]

  const FarmerExtra: seq<Slot> := [
    Slot("farmer_book", Agriculture, None, None),
    Slot("land_deed", Land, None, None),
    Slot("bank_statement_baac", Banking, None, Some(true))
  ]

  const InvestorExtra: seq<Slot> := [
    Slot("asset_deed", Asset, None, None),
    Slot("lease_agreement", Contract, None, None),
    Slot("bank_statement_div", Banking, None, Some(true))
  ]

  /** Each list is the two common entries followed by the type's own. */
  const SalariedSlots: seq<Slot> := CommonSlots + SalariedExtra
  const BusinessOwnerSlots: seq<Slot> := CommonSlots + BusinessOwnerExtra
  const FreelanceSlots: seq<Slot> := CommonSlots + FreelanceExtra
  const FarmerSlots: seq<Slot> := CommonSlots + FarmerExtra
  const InvestorSlots: seq<Slot> := CommonSlots + InvestorExtra

  // Wording: label and description of each entry, in the same order.

  const CommonWording: seq<Wording> := [
    Wording("สำเนาบัตรประชาชน (หน้า-หลัง)", "National ID Card (Front-Back)",
            "เพื่อยืนยันตัวตน", "For identity verification"),
    Wording("สำเนาทะเบียนบ้าน (ทุกหน้า)", "House Registration (Tabien Baan)",
            "ของผู้กู้และคู่สมรส (ถ้ามี)", "Borrower and Spouse")
  ]

  const SalariedWording: seq<Wording> := CommonWording + [
    Wording("สลิปเงินเดือน (ย้อนหลัง 3-6 เดือน)", "Salary Slips (3-6 Months)",
            "สำคัญมาก! AI จะเช็คยอดสุทธิและรายการหัก", "Critical for income verification"),
    Wording("รายการเดินบัญชี (บัญชีเงินเดือน)", "Bank Statement (Payroll Account)",
            "ย้อนหลัง 6 เดือน (ต้องมี Code เงินเดือน)", "Last 6 months (Salary Code)"),
    Wording("หนังสือรับรองเงินเดือน", "Employment Certificate",
            "อายุไม่เกิน 30-60 วัน", "Not older than 60 days")
  ]

  const BusinessOwnerWording: seq<Wording> := CommonWording + [
    Wording("หนังสือรับรองบริษัท (DBD)", "DBD Company Certificate",
            "อายุไม่เกิน 3-6 เดือน", "Not older than 3-6 months"),
    Wording("บัญชีรายชื่อผู้ถือหุ้น (บอจ.5)", "Shareholder List (BorOrJor.5)",
            "เพื่อดูสัดส่วนความเป็นเจ้าของ (>20%)", "To verify ownership >20%"),
    Wording("Statement (บัญชีธุรกิจ)", "Bank Statement (Business)",
            "ย้อนหลัง 6-12 เดือน (หมุนเวียน)", "Last 6-12 months (Cash Flow)"),
    Wording("ภพ.20 / ภพ.30 (ถ้ามี)", "VAT Cert (PP20/30)",
            "หลักฐานภาษี เพิ่มความน่าเชื่อถือสูง", "Tax evidence increases score"),
    Wording("รูปถ่ายกิจการ / แผนที่", "Business Photos & Map",
            "4-5 รูป (หน้าร้าน, ป้ายชื่อ, สินค้า)", "4-5 Photos (Storefront, Stock)")
  ]

  const FreelanceWording: seq<Wording> := CommonWording + [
    Wording("หนังสือรับรองหัก ณ ที่จ่าย (ทวิ 50)", "Withholding Tax Cert (50 Bis)",
            "สำคัญที่สุด! ใช้แทนสลิปเงินเดือน", "Most important! Replaces payslip"),
    Wording("Statement (ย้อนหลัง 6-12 เดือน)", "Bank Statement (6-12 Months)",
            "ดูความสม่ำเสมอของรายได้", "Check income consistency"),
    Wording("ใบประกอบวิชาชีพ (แพทย์/วิศวะ)", "Professional License",
            "ถ้ามี ธนาคารจะพิจารณาง่ายขึ้น", "Increases approval chance"),
    Wording("รูปถ่ายผลงาน / เพจ / สัญญาจ้าง", "Portfolio / Contracts",
            "หลักฐานว่าประกอบอาชีพจริง", "Proof of active business")
  ]

  const FarmerWording: seq<Wording> := CommonWording + [
    Wording("สมุดทะเบียนเกษตรกร (เล่มเขียว)", "Farmer Registration Book (Green Book)",
            "ต้องปรับปรุงข้อมูลล่าสุด", "Must be updated"),
    Wording("เอกสารสิทธิ์ที่ดิน (โฉนด/สปก.)", "Land Title Deed",
            "แสดงกรรมสิทธิ์ที่ดินทำกิน", "Ownership proof"),
    Wording("Statement (ธ.ก.ส.)", "Bank Statement (BAAC)",
            "ย้อนหลัง 12 เดือน (รายได้ฤดูกาล)", "Last 12 months (Seasonal)")
  ]

  const InvestorWording: seq<Wording> := CommonWording + [
    Wording("โฉนดที่ดิน/ห้องชุด (ปล่อยเช่า)", "Property Title Deed",
            "แสดงกรรมสิทธิ์ทรัพย์สิน", "Proof of ownership"),
    Wording("สัญญาเช่า (ยังไม่หมดอายุ)", "Active Lease Agreement",
            "ใช้คำนวณรายได้ค่าเช่า", "To calculate rental income"),
    Wording("Statement (รับค่าเช่า/ปันผล)", "Bank Statement (Revenue)",
            "ย้อนหลัง 6-12 เดือน (ต้องตรงกับสัญญา)", "Must match contract")
  ]

  function SlotsFor(t: ApplicantType): seq<Slot> {
    match t
    case Salaried => SalariedSlots
    case BusinessOwner => BusinessOwnerSlots
    case Freelance => FreelanceSlots
    case Farmer => FarmerSlots
    case Investor => InvestorSlots
  }

  function WordingFor(t: ApplicantType): (r: seq<Wording>)
    ensures |r| == |SlotsFor(t)|
  {
    match t
    case Salaried => SalariedWording
    case BusinessOwner => BusinessOwnerWording
    case Freelance => FreelanceWording
    case Farmer => FarmerWording
    case Investor => InvestorWording
  }

  predicate IdsDistinct(slots: seq<Slot>) {
    forall i, j :: 0 <= i < j < |slots| ==> slots[i].id != slots[j].id
  }

  /** No id is a prefix of another id of the same category. */
  predicate NoSameCategoryPrefix(slots: seq<Slot>) {
    forall i, j :: 0 <= i < |slots| && 0 <= j < |slots| && i != j && slots[i].category == slots[j].category ==>
      !(slots[i].id <= slots[j].id)
  }

  /** Every list opens with the national ID (required) and the house registration (optional). */
  predicate OpensWithIdentity(slots: seq<Slot>) {
    && |slots| >= 2
    && slots[0].id == "id_card" && slots[0].category == Identity && !Uploader.Flag(slots[0].optional)
    && slots[1].id == "house_reg" && slots[1].category == Identity && Uploader.Flag(slots[1].optional)
  }

  /** Exactly one bank-statement entry, and it accepts several files. */
  predicate OneMultiFileBanking(slots: seq<Slot>) {
    exists b :: 0 <= b < |slots| && slots[b].category == Banking && slots[b].multiple == Some(true) &&
      forall i :: 0 <= i < |slots| && slots[i].category == Banking ==> i == b
  }

  predicate WellFormedLayout(slots: seq<Slot>) {
    && OpensWithIdentity(slots)
    && OneMultiFileBanking(slots)
    && IdsDistinct(slots)
    && NoSameCategoryPrefix(slots)
  }

  /** The language-independent part of a whole list. */
  function Shapes(docs: seq<DocumentRequirement>): (r: seq<Slot>)
    ensures |r| == |docs|
    ensures forall i :: 0 <= i < |r| ==> r[i] == Shape(docs[i])
  {
    seq(|docs|, i requires 0 <= i < |docs| => Shape(docs[i]))
  }

  /** The length of each applicant type's list. */
  function ExpectedCount(t: ApplicantType): nat {
    match t
    case Salaried => 5
    case BusinessOwner => 7
    case Freelance => 6
    case Farmer => 5
    case Investor => 5
  }

  /**
   * `getRequiredDocs`: nothing without an applicant type; otherwise the
   * type's layout in the chosen language, which opens with the identity
   * documents, has distinct ids, one multi-file bank statement and no id
   * prefixing another of its category.
   */
  function GetRequiredDocs(lang: Language, t: Option<ApplicantType>): (r: seq<DocumentRequirement>)
    ensures t.None? ==> r == []
    ensures t.Some? ==> Shapes(r) == SlotsFor(t.value)
    ensures t.Some? ==> |r| == ExpectedCount(t.value)
    ensures t.Some? ==> WellFormedLayout(Shapes(r))
  {
    match t
    case None => []
    case Some(ty) =>
      var r := Build(lang == Th, SlotsFor(ty), WordingFor(ty));
      assert Shapes(r) == SlotsFor(ty);
      LayoutFacts(ty);
      r
  }

  lemma LayoutFacts(t: ApplicantType)
    ensures |SlotsFor(t)| == ExpectedCount(t)
    ensures WellFormedLayout(SlotsFor(t))
  {
    match t
    case Salaried => SalariedLayout();
    case BusinessOwner => BusinessOwnerLayout();
    case Freelance => FreelanceLayout();
    case Farmer => FarmerLayout();
    case Investor => InvestorLayout();
  }

  /** Two entries that may share a list: different, non-empty ids, with different initials when they share a category. */
  predicate Compatible(x: Slot, y: Slot) {
    x.id != [] && y.id != [] && (x.id[0] != y.id[0] || (x.category != y.category && x.id != y.id))
  }

  /** Every pair of entries of a list is compatible. */
  predicate AllCompatible(slots: seq<Slot>) {
    forall i, j :: 0 <= i < j < |slots| ==> Compatible(slots[i], slots[j])
  }

  /** `x` is compatible with each entry of `rest`, checked entry by entry. */
  predicate CompatibleWithAll(x: Slot, rest: seq<Slot>) {
    rest == [] || (Compatible(x, rest[0]) && CompatibleWithAll(x, rest[1..]))
  }

  /** `AllCompatible`, checked entry by entry. */
  predicate PairwiseCompatible(slots: seq<Slot>) {
    slots == [] || (CompatibleWithAll(slots[0], slots[1..]) && PairwiseCompatible(slots[1..]))
  }

  lemma {:induction false} CompatibleWithAllSound(x: Slot, rest: seq<Slot>)
    requires CompatibleWithAll(x, rest)
    ensures forall i :: 0 <= i < |rest| ==> Compatible(x, rest[i])
  {
    if rest != [] {
      CompatibleWithAllSound(x, rest[1..]);
      assert forall i :: 1 <= i < |rest| ==> rest[i] == rest[1..][i - 1];
    }
  }

  /** The entry-by-entry check establishes `AllCompatible`. */
  lemma {:induction false} PairwiseCompatibleSound(slots: seq<Slot>)
    requires PairwiseCompatible(slots)
    ensures AllCompatible(slots)
  {
    if slots != [] {
      CompatibleWithAllSound(slots[0], slots[1..]);
      PairwiseCompatibleSound(slots[1..]);
      forall i, j | 0 <= i < j < |slots|
        ensures Compatible(slots[i], slots[j])
      {
        if i > 0 {
          assert slots[i] == slots[1..][i - 1] && slots[j] == slots[1..][j - 1];
        } else {
          assert slots[j] == slots[1..][j - 1];
        }
      }
    }
  }

  /** Pairwise compatible entries have distinct ids, none a prefix of another in its category. */
  lemma CompatibleIds(slots: seq<Slot>)
    requires AllCompatible(slots)
    ensures IdsDistinct(slots) && NoSameCategoryPrefix(slots)
  {
    forall i, j | 0 <= i < |slots| && 0 <= j < |slots| && i != j && slots[i].category == slots[j].category
      ensures !(slots[i].id <= slots[j].id)
    {
      if i < j {
        assert Compatible(slots[i], slots[j]);
      } else {
        assert Compatible(slots[j], slots[i]);
      }
      assert slots[i].id[0] != slots[j].id[0];
    }
  }

  /**
   * The two common entries in front of a type's own entries give a
   * well-formed list when the own entries are compatible with each other and
   * with the common ones and hold the single multi-file bank statement.
   */
  lemma CommonPlusExtra(extra: seq<Slot>)
    requires PairwiseCompatible(extra)
    requires CompatibleWithAll(CommonSlots[0], extra) && CompatibleWithAll(CommonSlots[1], extra)
    requires OneMultiFileBanking(extra)
    ensures |CommonSlots + extra| == |extra| + 2
    ensures WellFormedLayout(CommonSlots + extra)
  {
    var s := CommonSlots + extra;
    assert forall i :: 2 <= i < |s| ==> s[i] == extra[i - 2];
    assert s[0] == CommonSlots[0] && s[1] == CommonSlots[1];
    var b :| 0 <= b < |extra| && extra[b].category == Banking && extra[b].multiple == Some(true) &&
      forall i :: 0 <= i < |extra| && extra[i].category == Banking ==> i == b;
    assert s[b + 2] == extra[b];
    assert OneMultiFileBanking(s);
    PairwiseCompatibleSound(extra);
    CompatibleWithAllSound(CommonSlots[0], extra);
    CompatibleWithAllSound(CommonSlots[1], extra);
    forall i, j | 0 <= i < j < |s|
      ensures Compatible(s[i], s[j])
    {
      if i >= 2 {
        assert s[i] == extra[i - 2] && s[j] == extra[j - 2];
      } else if j >= 2 {
        assert s[j] == extra[j - 2];
      }
    }
    CompatibleIds(s);
  }

  lemma SalariedLayout()
    ensures |SalariedSlots| == 5
    ensures WellFormedLayout(SalariedSlots)
  {
    SalariedPairwise();
    SalariedAfterCommon();
    SalariedBanking();
    CommonPlusExtra(SalariedExtra);
  }

  /** The salaried entries pass the entry-by-entry compatibility check among themselves ... */
  lemma SalariedPairwise()
    ensures PairwiseCompatible(SalariedExtra)
  {
  }

  /** ... and against the common ones. */
  lemma SalariedAfterCommon()
    ensures CompatibleWithAll(CommonSlots[0], SalariedExtra) && CompatibleWithAll(CommonSlots[1], SalariedExtra)
  {
  }

  lemma SalariedBanking()
    ensures OneMultiFileBanking(SalariedExtra)
  {
    assert SalariedExtra[1].category == Banking;
  }

  lemma BusinessOwnerLayout()
    ensures |BusinessOwnerSlots| == 7
    ensures WellFormedLayout(BusinessOwnerSlots)
  {
    BusinessOwnerPairwise();
    BusinessOwnerAfterCommon();
    BusinessOwnerBanking();
    CommonPlusExtra(BusinessOwnerExtra);
  }

  /** The business-owner entries pass the entry-by-entry compatibility check among themselves ... */
  lemma BusinessOwnerPairwise()
    ensures PairwiseCompatible(BusinessOwnerExtra)
  {
  }

  /** ... and against the common ones. */
  lemma BusinessOwnerAfterCommon()
    ensures CompatibleWithAll(CommonSlots[0], BusinessOwnerExtra) && CompatibleWithAll(CommonSlots[1], BusinessOwnerExtra)
  {
  }

  lemma BusinessOwnerBanking()
    ensures OneMultiFileBanking(BusinessOwnerExtra)
  {
    assert BusinessOwnerExtra[2].category == Banking;
  }

  lemma FreelanceLayout()
    ensures |FreelanceSlots| == 6
    ensures WellFormedLayout(FreelanceSlots)
  {
    FreelancePairwise();
    FreelanceAfterCommon();
    FreelanceBanking();
    CommonPlusExtra(FreelanceExtra);
  }

  /** The freelance entries pass the entry-by-entry compatibility check among themselves ... */
  lemma FreelancePairwise()
    ensures PairwiseCompatible(FreelanceExtra)
  {
  }

  /** ... and against the common ones. */
  lemma FreelanceAfterCommon()
    ensures CompatibleWithAll(CommonSlots[0], FreelanceExtra) && CompatibleWithAll(CommonSlots[1], FreelanceExtra)
  {
  }

  lemma FreelanceBanking()
    ensures OneMultiFileBanking(FreelanceExtra)
  {
    assert FreelanceExtra[1].category == Banking;
  }

  lemma FarmerLayout()
    ensures |FarmerSlots| == 5
    ensures WellFormedLayout(FarmerSlots)
  {
    FarmerPairwise();
    FarmerAfterCommon();
    FarmerBanking();
    CommonPlusExtra(FarmerExtra);
  }

  /** The farmer entries pass the entry-by-entry compatibility check among themselves ... */
  lemma FarmerPairwise()
    ensures PairwiseCompatible(FarmerExtra)
  {
  }

  /** ... and against the common ones. */
  lemma FarmerAfterCommon()
    ensures CompatibleWithAll(CommonSlots[0], FarmerExtra) && CompatibleWithAll(CommonSlots[1], FarmerExtra)
  {
  }

  lemma FarmerBanking()
    ensures OneMultiFileBanking(FarmerExtra)
  {
    assert FarmerExtra[2].category == Banking;
  }

  lemma InvestorLayout()
    ensures |InvestorSlots| == 5
    ensures WellFormedLayout(InvestorSlots)
  {
    InvestorPairwise();
    InvestorAfterCommon();
    InvestorBanking();
    CommonPlusExtra(InvestorExtra);
  }

  /** The investor entries pass the entry-by-entry compatibility check among themselves ... */
  lemma InvestorPairwise()
    ensures PairwiseCompatible(InvestorExtra)
  {
  }

  /** ... and against the common ones. */
  lemma InvestorAfterCommon()
    ensures CompatibleWithAll(CommonSlots[0], InvestorExtra) && CompatibleWithAll(CommonSlots[1], InvestorExtra)
  {
  }

  lemma InvestorBanking()
    ensures OneMultiFileBanking(InvestorExtra)
  {
    assert InvestorExtra[2].category == Banking;
  }

  /** The salaried checklist's fourth entry is the payroll bank statement. */
  lemma SalariedBankStatement(lang: Language)
    ensures |GetRequiredDocs(lang, Some(Salaried))| == 5
    ensures GetRequiredDocs(lang, Some(Salaried))[3].id == "bank_statement_salary"
    ensures GetRequiredDocs(lang, Some(Salaried))[3].category == Banking
  {
    var docs := GetRequiredDocs(lang, Some(Salaried));
    assert Shape(docs[3]) == Shapes(docs)[3] == SalariedExtra[1];
  }

  /** The freelance checklist's fourth entry is the bank statement. */
  lemma FreelanceBankStatement(lang: Language)
    ensures |GetRequiredDocs(lang, Some(Freelance))| == 6
    ensures GetRequiredDocs(lang, Some(Freelance))[3].id == "bank_statement"
    ensures GetRequiredDocs(lang, Some(Freelance))[3].category == Banking
  {
    var docs := GetRequiredDocs(lang, Some(Freelance));
    assert Shape(docs[3]) == Shapes(docs)[3] == FreelanceExtra[1];
  }

  /** The bank statement's id is a prefix of the payroll statement's. */
  lemma BankStatementPrefixesPayroll()
    ensures "bank_statement" <= "bank_statement_salary"
  {
    var short := "bank_statement";
    assert "bank_statement_salary" == short + "_salary";
  }

  /** The language changes labels and descriptions only. */
  lemma LanguageChangesOnlyText(t: Option<ApplicantType>)
    ensures Shapes(GetRequiredDocs(Th, t)) == Shapes(GetRequiredDocs(En, t))
  {
  }

  /**
   * The prefix rule places each new record under one uploader: among the
   * entries of a list without same-category prefixes, a record created by
   * entry k belongs to entry k and to no other.
   */
  lemma RecordBelongsToOneUploader(docs: seq<DocumentRequirement>, k: nat,
                                   file: FileHandle, stamp: Uploader.FreshValues)
    requires NoSameCategoryPrefix(Shapes(docs))
    requires k < |docs|
    ensures forall j :: 0 <= j < |docs| ==>
      (Uploader.BelongsTo(Uploader.MakeRecord(docs[k].id, docs[k].category, file, stamp), docs[j].id, docs[j].category)
       <==> j == k)
  {
    var f := Uploader.MakeRecord(docs[k].id, docs[k].category, file, stamp);
    forall j | 0 <= j < |docs| && j != k
      ensures !Uploader.BelongsTo(f, docs[j].id, docs[j].category)
    {
      assert Shapes(docs)[j] == Shape(docs[j]) && Shapes(docs)[k] == Shape(docs[k]);
    }
  }

  /** For the lists the application shows, each created record has exactly one uploader. */
  lemma CatalogueRecordsHaveOneUploader(lang: Language, t: ApplicantType, k: nat,
                                        file: FileHandle, stamp: Uploader.FreshValues)
    requires k < |GetRequiredDocs(lang, Some(t))|
    ensures var docs := GetRequiredDocs(lang, Some(t));
      forall j :: 0 <= j < |docs| ==>
        (Uploader.BelongsTo(Uploader.MakeRecord(docs[k].id, docs[k].category, file, stamp), docs[j].id, docs[j].category)
         <==> j == k)
  {
    RecordBelongsToOneUploader(GetRequiredDocs(lang, Some(t)), k, file, stamp);
  }

  /** The icon of each loan tip, and whether it carries a highlight line. */
  datatype LoanTip = LoanTip(icon: string, hasHighlight: bool)

  const LoanTips: seq<LoanTip> := [
    LoanTip("calculator", true),
    LoanTip("piggy", false),
    LoanTip("statement", false),
    LoanTip("clock", false),
    LoanTip("debt", false),
    LoanTip("card", false),
    LoanTip("docs", false)
  ]

  /** The number the knowledge-section titles announce ("7 tips"). */
  const AnnouncedTipCount: nat := 7

  /** The titles' count matches the list, and only the first tip has a highlight. */
  lemma LoanTipsMatchTitle()
    ensures |LoanTips| == AnnouncedTipCount
    ensures forall i :: 0 <= i < |LoanTips| ==> (LoanTips[i].hasHighlight <==> i == 0)
  {
  }
}
