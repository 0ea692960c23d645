/**
 * The application's session (App.tsx): the uploaded files, the analysis
 * result and error, the language, the chosen applicant type, the evaluation
 * mode and the manual calculator inputs, changed by the page's handlers.
 *
 * `AppState` is a snapshot of all of it and the functions below say what each
 * handler makes of a snapshot; the class `AppSession` holds the same fields
 * and its methods are proved to move its snapshot exactly as those functions
 * say.
 */
module Session {
  import opened Wrappers
  import opened Types
  import Dti
  import Gemini
  import Uploader
  import Catalogue

  /** The error banner's text: one of the two translated messages, or a thrown message as it is. */
  datatype ErrorText = NoFileText(lang: Language) | GenericText(lang: Language) | Raw(text: string)

  datatype AppState = AppState(
    files: seq<UploadedFile>,
    isAnalyzing: bool,
    analysisResult: Option<AnalysisResult>,
    error: Option<ErrorText>,
    lang: Language,
    applicantType: Option<ApplicantType>,
    loadingStep: nat,
    showLongWait: bool,
    evaluationMode: EvaluationMode,
    manualIncome: string,
    manualDebt: string)

  /** The state the page starts in: Thai, manual mode, nothing chosen or uploaded. */
  const Initial: AppState :=
    AppState([], false, None, None, Th, None, 0, false, Manual, [], [])

  /** `prev.filter(f => f.id !== fileId)`. */
  function RemoveById(files: seq<UploadedFile>, fileId: string): (r: seq<UploadedFile>)
    ensures |r| <= |files|
    ensures forall f :: f in r <==> f in files && f.id != fileId
  {
    if files == [] then []
    else
      var rest := RemoveById(files[1..], fileId);
      assert forall f :: f in files <==> f == files[0] || f in files[1..];
      if files[0].id != fileId then [files[0]] + rest else rest
  }

  /** Removal works piecewise, so the files kept stay in their order. */
  lemma {:induction false} RemoveByIdAppend(a: seq<UploadedFile>, b: seq<UploadedFile>, fileId: string)
    ensures RemoveById(a + b, fileId) == RemoveById(a, fileId) + RemoveById(b, fileId)
  {
    if a == [] {
      assert a + b == b;
    } else {
      assert (a + b)[1..] == a[1..] + b;
      RemoveByIdAppend(a[1..], b, fileId);
    }
  }

  /** Removing an id no file carries leaves the list as it is. */
  lemma {:induction false} RemoveUnknownId(files: seq<UploadedFile>, fileId: string)
    requires forall i :: 0 <= i < |files| ==> files[i].id != fileId
    ensures RemoveById(files, fileId) == files
  {
    if files != [] {
      RemoveUnknownId(files[1..], fileId);
    }
  }

  /**
   * Removing a file from the session removes it from every uploader's view
   * and changes nothing else there: filtering by uploader and removing by id
   * commute.
   */
  lemma {:induction false} RemoveThenShow(files: seq<UploadedFile>, fileId: string,
                                          id: string, category: DocumentCategory)
    ensures Uploader.AssociatedFiles(RemoveById(files, fileId), id, category) ==
            RemoveById(Uploader.AssociatedFiles(files, id, category), fileId)
  {
    if files != [] {
      RemoveThenShow(files[1..], fileId, id, category);
    }
  }

  /** `prev === 'th' ? 'en' : 'th'`. */
  function Toggle(l: Language): (r: Language)
    ensures r != l
  {
    if l == Th then En else Th
  }

  lemma ToggleTwice(l: Language)
    ensures Toggle(Toggle(l)) == l
  {
  }

  /** `currentAppStep`: 3 with a result, else 2 with a chosen type, else 1. */
  function CurrentAppStep(s: AppState): (step: nat)
    ensures 1 <= step <= 3
    ensures step == 3 <==> s.analysisResult.Some?
    ensures step == 2 <==> s.analysisResult.None? && s.applicantType.Some?
  {
    if s.analysisResult.Some? then 3 else if s.applicantType.Some? then 2 else 1
  }

  /**
   * The checklist the upload step shows for the session's language and type:
   * empty exactly when no type is chosen, the type's layout otherwise, and
   * the same ids, categories and flags in the other language.
   */
  function RequiredDocs(s: AppState): (r: seq<DocumentRequirement>)
    ensures r == [] <==> s.applicantType.None?
    ensures s.applicantType.Some? ==>
      Catalogue.Shapes(r) == Catalogue.SlotsFor(s.applicantType.value) &&
      |r| == Catalogue.ExpectedCount(s.applicantType.value)
    ensures Catalogue.Shapes(r) == Catalogue.Shapes(Catalogue.GetRequiredDocs(Toggle(s.lang), s.applicantType))
  {
    Catalogue.LanguageChangesOnlyText(s.applicantType);
    Catalogue.GetRequiredDocs(s.lang, s.applicantType)
  }

  /**
   * The guard of `handleAnalyze`: files and an applicant type are both
   * needed, so an analysis only starts from a page past step 1 that shows a
   * checklist.
   */
  function CanAnalyze(s: AppState): (b: bool)
    ensures b <==> |s.files| > 0 && s.applicantType.Some?
    ensures b ==> CurrentAppStep(s) >= 2 && |RequiredDocs(s)| >= 5
  {
    s.files != [] && s.applicantType.Some?
  }

  /** The catch block: `err.message || t.errorGeneric`, in the language the handler was created with. */
  function ErrorFromThrown(e: Gemini.Thrown, callLang: Language): (r: ErrorText)
    ensures r.Raw? <==> e.ErrorValue? && e.message != []
    ensures r.Raw? ==> r.text == e.message
    ensures r.GenericText? ==> r.lang == callLang
  {
    if e.ErrorValue? && e.message != [] then Raw(e.message) else GenericText(callLang)
  }

  /**
   * The guard failing: the no-file error is shown and nothing else changes
   * (in particular no analysis starts and the result stays).
   */
  function Rejected(s: AppState): (r: AppState)
    requires !CanAnalyze(s)
    ensures r.error == Some(NoFileText(s.lang))
    ensures r.(error := s.error) == s
  {
    s.(error := Some(NoFileText(s.lang)))
  }

  /**
   * The guard passing: busy, no error; the loading effect restarts the step
   * counter and hides the long-wait note. Files, result and inputs stay.
   */
  function Started(s: AppState): (r: AppState)
    requires CanAnalyze(s)
    ensures r.isAnalyzing && r.error.None? && r.loadingStep == 0 && !r.showLongWait
    ensures r.(isAnalyzing := s.isAnalyzing, error := s.error, loadingStep := s.loadingStep,
               showLongWait := s.showLongWait) == s
  {
    s.(isAnalyzing := true, error := None, loadingStep := 0, showLongWait := false)
  }

  /**
   * The analysis settling: a success replaces the result, a failure keeps
   * the old result and shows the error; either way the page is no longer busy.
   */
  function Completed(s: AppState, outcome: Result<AnalysisResult, Gemini.Thrown>, callLang: Language): (r: AppState)
    ensures !r.isAnalyzing
    ensures outcome.Success? ==> r.analysisResult == Some(outcome.value) && r.error == s.error
    ensures outcome.Failure? ==> r.analysisResult == s.analysisResult && r.error == Some(ErrorFromThrown(outcome.error, callLang))
    ensures r.(isAnalyzing := s.isAnalyzing, analysisResult := s.analysisResult, error := s.error) == s
  {
    match outcome
    case Success(result) => s.(analysisResult := Some(result), isAnalyzing := false)
    case Failure(e) => s.(error := Some(ErrorFromThrown(e, callLang)), isAnalyzing := false)
  }

  /**
   * `handleAnalyze` run to completion without other handlers in between:
   * whatever the service does, a started analysis never leaves the page
   * busy, a rejected one changes neither the busy flag nor the result, and
   * neither touches the files or the language.
   */
  function Analyze(s: AppState, readOf: UploadedFile -> Gemini.ReadOutcome, remote: Gemini.RemoteOutcome): (r: AppState)
    ensures CanAnalyze(s) ==> !r.isAnalyzing
    ensures !CanAnalyze(s) ==> r.isAnalyzing == s.isAnalyzing && r.analysisResult == s.analysisResult
    ensures r.files == s.files && r.lang == s.lang
  {
    if !CanAnalyze(s) then Rejected(s)
    else Completed(Started(s), Gemini.AnalyzeDocuments(s.files, readOf, remote), s.lang)
  }

  /** The banner is clear after the handler exactly when the guard passed and the service succeeded; then the service's result is shown. */
  lemma AnalyzeStoresResult(s: AppState, readOf: UploadedFile -> Gemini.ReadOutcome, remote: Gemini.RemoteOutcome)
    ensures var r := Analyze(s, readOf, remote);
      r.error.None? <==> CanAnalyze(s) && Gemini.AnalyzeDocuments(s.files, readOf, remote).Success?
    ensures var r := Analyze(s, readOf, remote);
      r.error.None? ==> r.analysisResult == Some(Gemini.AnalyzeDocuments(s.files, readOf, remote).value)
  {
  }

  /** `handleReset`: everything back to the start except the language and the busy flag. */
  function ResetState(s: AppState): (r: AppState)
    ensures r == Initial.(lang := s.lang, isAnalyzing := s.isAnalyzing)
  {
    s.(files := [], analysisResult := None, error := None, loadingStep := 0, showLongWait := false,
       evaluationMode := Manual, manualIncome := [], manualDebt := [], applicantType := None)
  }

  /** Resetting twice is resetting once, and a reset page is on step 1 with an empty checklist. */
  lemma ResetIdempotent(s: AppState)
    ensures ResetState(ResetState(s)) == ResetState(s)
    ensures CurrentAppStep(ResetState(s)) == 1
    ensures RequiredDocs(ResetState(s)) == []
  {
  }

  /**
   * The back button only clears the applicant type: files uploaded for one
   * type stay in the session and are shown by any later type's uploader of
   * the same category whose id prefixes theirs. A payroll statement uploaded
   * by the salaried checklist's bank-statement entry (`AddFiles`), followed by
   * the back button (`SelectApplicantType(None)`) and the freelance card
   * (`SelectApplicantType(Some(Freelance))`), is shown by the freelance
   * checklist's bank-statement entry, a different entry.
   */
  lemma StaleFilesAfterBack(s: AppState, file: FileHandle, stamp: Uploader.FreshValues)
    requires s.applicantType == Some(Salaried)
    ensures |RequiredDocs(s)| == 5 && |RequiredDocs(s.(applicantType := Some(Freelance)))| == 6
    ensures
      var d := RequiredDocs(s)[3];
      var f := Uploader.MakeRecord(d.id, d.category, file, stamp);
      var later := s.(files := s.files + [f]).(applicantType := None).(applicantType := Some(Freelance));
      var e := RequiredDocs(later)[3];
      && d.id != e.id
      && f in Uploader.AssociatedFiles(later.files, e.id, e.category)
  {
    Catalogue.SalariedBankStatement(s.lang);
    Catalogue.FreelanceBankStatement(s.lang);
    Catalogue.BankStatementPrefixesPayroll();
    var d := RequiredDocs(s)[3];
    var f := Uploader.MakeRecord(d.id, d.category, file, stamp);
    var later := s.(files := s.files + [f]).(applicantType := None).(applicantType := Some(Freelance));
    assert RequiredDocs(later)[3].id <= d.id + "-" <= f.id;
    assert f in later.files;
  }

  /**
   * The remove button of the k-th shown record removes it from every
   * uploader's view, and every other record each uploader showed stays.
   */
  lemma RemovedRecordNotShown(files: seq<UploadedFile>, id: string, category: DocumentCategory, k: nat,
                              otherId: string, otherCategory: DocumentCategory)
    requires k < |Uploader.AssociatedFiles(files, id, category)|
    ensures
      var shown := Uploader.AssociatedFiles(files, id, category);
      var kept := RemoveById(files, Uploader.RemoveRequest(shown, k));
      && shown[k] !in Uploader.AssociatedFiles(kept, otherId, otherCategory)
      && forall f :: f in Uploader.AssociatedFiles(kept, otherId, otherCategory) <==>
           f in Uploader.AssociatedFiles(files, otherId, otherCategory) && f.id != shown[k].id
  {
    var shown := Uploader.AssociatedFiles(files, id, category);
    RemoveThenShow(files, Uploader.RemoveRequest(shown, k), otherId, otherCategory);
  }

  /** The page's state, changed in place by the handlers. */
  class AppSession {
    var files: seq<UploadedFile>
    var isAnalyzing: bool
    var analysisResult: Option<AnalysisResult>
    var error: Option<ErrorText>
    var lang: Language
    var applicantType: Option<ApplicantType>
    var loadingStep: nat
    var showLongWait: bool
    var evaluationMode: EvaluationMode
    var manualIncome: string
    var manualDebt: string

    function Snapshot(): AppState
      reads this
    {
      AppState(files, isAnalyzing, analysisResult, error, lang, applicantType,
               loadingStep, showLongWait, evaluationMode, manualIncome, manualDebt)
    }

    /** The `useState` initial values. */
    constructor()
      ensures Snapshot() == Initial
    {
      files := [];
      isAnalyzing := false;
      analysisResult := None;
      error := None;
      lang := Th;
      applicantType := None;
      loadingStep := 0;
      showLongWait := false;
      evaluationMode := Manual;
      manualIncome := [];
      manualDebt := [];
    }

    /** `handleFilesAdded`: the batch goes after the files already there. */
    method AddFiles(batch: seq<UploadedFile>)
      modifies this
      ensures Snapshot() == old(Snapshot()).(files := old(files) + batch)
    {
      files := files + batch;
    }

    /** `handleFileRemove`. */
    method RemoveFile(fileId: string)
      modifies this
      ensures Snapshot() == old(Snapshot()).(files := RemoveById(old(files), fileId))
    {
      files := RemoveById(files, fileId);
    }

    /** A career card (Some) or the back button (None); the files are kept either way. */
    method SelectApplicantType(t: Option<ApplicantType>)
      modifies this
      ensures Snapshot() == old(Snapshot()).(applicantType := t)
    {
      applicantType := t;
    }

    method SetEvaluationMode(m: EvaluationMode)
      modifies this
      ensures Snapshot() == old(Snapshot()).(evaluationMode := m)
    {
      evaluationMode := m;
    }

    method SetManualIncome(text: string)
      modifies this
      ensures Snapshot() == old(Snapshot()).(manualIncome := text)
    {
      manualIncome := text;
    }

    method SetManualDebt(text: string)
      modifies this
      ensures Snapshot() == old(Snapshot()).(manualDebt := text)
    {
      manualDebt := text;
    }

    method ToggleLanguage()
      modifies this
      ensures Snapshot() == old(Snapshot()).(lang := Toggle(old(lang)))
    {
      lang := Toggle(lang);
    }

    method Reset()
      modifies this
      ensures Snapshot() == ResetState(old(Snapshot()))
    {
      files := [];
      analysisResult := None;
      error := None;
      loadingStep := 0;
      showLongWait := false;
      evaluationMode := Manual;
      manualIncome := [];
      manualDebt := [];
      applicantType := None;
    }

    /** The synchronous part of `handleAnalyze`, up to the `await`. */
    method BeginAnalyze() returns (started: bool)
      modifies this
      ensures started == CanAnalyze(old(Snapshot()))
      ensures started ==> Snapshot() == Started(old(Snapshot()))
      ensures !started ==> Snapshot() == Rejected(old(Snapshot()))
    {
      if files == [] || applicantType.None? {
        error := Some(NoFileText(lang));
        return false;
      }
      isAnalyzing := true;
      error := None;
      loadingStep := 0;
      showLongWait := false;
      return true;
    }

    /** The part after the `await`: store the result or the error, then leave the busy state. */
    method FinishAnalyze(outcome: Result<AnalysisResult, Gemini.Thrown>, callLang: Language)
      modifies this
      ensures Snapshot() == Completed(old(Snapshot()), outcome, callLang)
    {
      match outcome {
        case Success(result) =>
          analysisResult := Some(result);
        case Failure(e) =>
          error := Some(ErrorFromThrown(e, callLang));
      }
      isAnalyzing := false;
    }

    /**
     * `handleAnalyze` with no other handler running while the service works;
     * `called` says whether the service was asked at all.
     */
    method HandleAnalyze(readOf: UploadedFile -> Gemini.ReadOutcome, remote: Gemini.RemoteOutcome)
      returns (called: bool)
      modifies this
      ensures called == CanAnalyze(old(Snapshot()))
      ensures Snapshot() == Analyze(old(Snapshot()), readOf, remote)
    {
      var callLang := lang;
      called := BeginAnalyze();
      if called {
        var outcome := Gemini.AnalyzeDocuments(files, readOf, remote);
        FinishAnalyze(outcome, callLang);
      }
    }
  }
}
