# Loan-verify: a Dafny model of the mortgage pre-screening logic

Loan-verify is a React page that pre-screens Thai mortgage applicants. The
applicant picks an occupation type. They can then use a manual
debt-to-income (DTI) calculator, or upload the documents of a per-type
checklist and send them to a Gemini model. The page then shows the returned
credit score, financial profile and bank recommendations.

This project models the deterministic rules of that page and proves them:

- `types.dfy` (module `Types`): the data types, the thirteen document
  categories and their string values, and the two applicant-type spellings.
- `dti.dfy` (module `Dti`): the quick calculator. It covers comma
  stripping, the clamped ratio with its NaN path, the four-way status and
  the advice choice. `parseFloat` is a parameter. A digit-prefix parser,
  which is not `parseFloat`, shows that the worked examples' premises can
  be met.
- `catalogue.dfy` (module `Catalogue`): the document checklist of each
  applicant type in both languages, and the list of loan tips.
- `uploader.dfy` (module `Uploader`): one uploader. It covers which
  session files the uploader shows, the records it creates for a selection
  or a drop, its prompt, and its remove button.
- `gemini.dfy` (module `Gemini`): the service around the model call. It
  covers MIME resolution, base64 extraction from a data URL, the per-file
  checks, `Promise.all` over the files, the empty-response check and the
  "no pages" error rewrite.
- `session.dfy` (module `Session`): the page's state as a class,
  `AppSession`, with one method per handler. Each method is proved to move
  the state's snapshot (`AppState`) as a pure function says. The lemmas
  about those functions state what the handlers promise.
- `results.dfy` (module `Results`): what the results page derives from a
  result. It covers the score colour and gauge, the stability badge, the
  bank-card emphasis and the breakdown sections.

Two behaviours of the code are worth knowing. Both are proved as lemmas:

- The back button clears only the applicant type. Files uploaded for one
  type stay in the session. A later type's uploader shows them whenever it
  has their category and its id is a prefix of theirs. For example, a salaried applicant's
  `bank_statement_salary-…` record shows in the freelance `bank_statement`
  uploader (`Session.StaleFilesAfterBack`).
- Removing a file only filters it out of the list. Its object URL is not
  revoked. The model therefore has no "release preview" step.

## Model

| member | source | states |
|---|---|---|
| Types.CategoriesComplete | types.ts:8-22 | there are exactly thirteen categories, each listed once, and each one's string value parses back to it |
| Types.ParseCategory | types.ts:8-22 | a category read from a string has that string as its value |
| Types.ParseApplicantType | types.ts:4 | an applicant type read from a string has that string as its value |
| Types.ApplicantTypeSetsDiffer | types.ts:70 | applicant types round-trip through their strings, but the profile's `Business Owner` is not an applicant-type value |
| Dti.StripCommas | App.tsx:130-131 | the text passed to the parser holds no comma, and every other character keeps its count |
| Dti.StripCommasAppend | App.tsx:130-131 | stripping works piecewise over concatenation, so the order of the other characters is kept |
| Dti.StripCommasIdentity | App.tsx:130-131 | a text without commas is passed on unchanged |
| Dti.Clamp | App.tsx:134 | the result lies in [0,100]; it equals the input inside the range, 0 below it and 100 above it |
| Dti.CalculateDti | App.tsx:129-135 | an income that does not parse or is 0 gives 0 whatever the debt; the ratio is NaN exactly when the income is usable and the debt does not parse; every numeric ratio lies in [0,100] |
| Dti.RatioWhenBothParse | App.tsx:133-134 | when both fields parse and the income is nonzero, the ratio is `min(max(debt/income*100, 0), 100)` |
| Dti.GetDtiStatus | App.tsx:139-146 | neutral iff the ratio is 0 and the income field is empty; otherwise good up to 35, fair up to 50, and risk above 50 or on NaN |
| Dti.EmptyIncomeIsNeutral | App.tsx:140 | an empty income field gives ratio 0 and the neutral status, whatever the debt field holds |
| Dti.NonEmptyIncomeNotNeutral | App.tsx:140-145 | a non-empty income field never gives neutral |
| Dti.UnparsedDebtIsRisk | App.tsx:132-145 | a usable income with a debt that does not parse gives NaN and risk |
| Dti.UnparsedIncomeIsGood | App.tsx:132-143 | a non-empty income that does not parse reads as 0 % and is classified good |
| Dti.StatusMonotone | App.tsx:143-145 | with the income filled in, a higher ratio never gets a better status, and NaN is the worst |
| Dti.Advice | App.tsx:149-151 | the salaried advice is given iff the type is Salaried and the status is not risk |
| Dti.DigitPrefixParseIsParseFloatLike | App.tsx:130 | the one fact the model uses about `parseFloat`, that it reads nothing from an empty text, can be met: a concrete digit-prefix parser meets it |
| Dti.ScenarioGood | App.tsx:129-146 | with a parser that reads "50000" and the debt's digits as those numbers, income "50,000" with debt "15,000" gives 30 % and good |
| Dti.ScenarioFair | App.tsx:129-146 | with a parser that reads "50000" and the debt's digits as those numbers, income "50,000" with debt "22,500" gives 45 % and fair |
| Dti.ScenarioRisk | App.tsx:129-146 | with a parser that reads "50000" and the debt's digits as those numbers, income "50,000" with debt "30,000" gives 60 % and risk |
| Dti.ScenarioEmpty | App.tsx:129-146 | empty fields give 0 and neutral |
| Dti.DigitParserReadsScenarioAmounts | App.tsx:130 | the concrete digit-prefix parser reads "50000", "15000", "22500" and "30000" as those numbers, so the scenarios' premises can be met |
| Dti.ScenariosWithDigitParser | App.tsx:129-135 | with that parser, "50,000" against "15,000", "22,500" and "30,000" gives 30, 45 and 60 |
| Catalogue.Localize | constants.ts:299-310 | an entry keeps its id, category and flags and takes the label and description of the chosen language |
| Catalogue.Build | constants.ts:313-338 | a list holds one entry per layout slot, in order, each localised |
| Catalogue.WordingFor | constants.ts:313-457 | each type's wording table has as many entries as its layout |
| Catalogue.Shapes | constants.ts:313-457 | the language-free view of a list has one slot per entry, in order |
| Catalogue.GetRequiredDocs | constants.ts:292-462 | no applicant type gives the empty list; a type gives its layout in the chosen language: of the fixed length, opening with `id_card` (IDENTITY, required) and `house_reg` (IDENTITY, optional), with distinct ids, exactly one BANKING entry that accepts several files, and no id prefixing another of its category |
| Catalogue.LayoutFacts | constants.ts:313-457 | every type's layout has the properties above and lengths 5, 7, 6, 5 and 5 |
| Catalogue.SalariedLayout | constants.ts:314-338 | the salaried list has 5 entries and the properties above |
| Catalogue.BusinessOwnerLayout | constants.ts:340-376 | the business-owner list has 7 entries and the properties above |
| Catalogue.FreelanceLayout | constants.ts:378-409 | the freelance list has 6 entries and the properties above |
| Catalogue.SalariedBankStatement | constants.ts:314-338 | in either language the fourth salaried entry is the banking entry `bank_statement_salary` |
| Catalogue.FreelanceBankStatement | constants.ts:378-409 | in either language the fourth freelance entry is the banking entry `bank_statement` |
| Catalogue.FarmerLayout | constants.ts:411-433 | the farmer list has 5 entries and the properties above |
| Catalogue.InvestorLayout | constants.ts:435-457 | the investor list has 5 entries and the properties above |
| Catalogue.CompatibleWithAllSound | constants.ts:313-457 | the entry-by-entry check of one entry against a list makes that entry compatible with each entry of the list |
| Catalogue.PairwiseCompatibleSound | constants.ts:313-457 | the entry-by-entry check of a list makes every pair of its entries compatible |
| Catalogue.CompatibleIds | constants.ts:313-457 | pairwise compatible entries have distinct ids, and no id is a prefix of another id of its category |
| Catalogue.CommonPlusExtra | constants.ts:297-310 | the two common entries in front of a type's own entries give a well-formed list when the type's entries pass the check among themselves and against the common entries and hold the one multi-file bank statement |
| Catalogue.LanguageChangesOnlyText | constants.ts:293-457 | Thai and English lists agree on every id, category, `optional` and `multiple`, entry by entry |
| Catalogue.RecordBelongsToOneUploader | components/FileUploader.tsx:31 | in a list without same-category prefixes, a record created by entry k is shown by entry k's uploader and by no other |
| Catalogue.CatalogueRecordsHaveOneUploader | constants.ts:313-457 | on every checklist the page shows, each new record appears under exactly one uploader |
| Catalogue.LoanTipsMatchTitle | constants.ts:232-290 | there are seven tips, the number the "7 tips" titles announce, and only the first has a highlight |
| Uploader.Flag | components/FileUploader.tsx:26-27 | an absent `multiple`/`optional` counts as false |
| Uploader.BelongsTo | components/FileUploader.tsx:31 | a file belongs to an uploader iff it has the uploader's category and its id is the uploader's id followed by some text |
| Uploader.AssociatedFiles | components/FileUploader.tsx:31 | the shown files are exactly the session files of the uploader's category whose id starts with the uploader's id |
| Uploader.AssociatedFilesAppend | components/FileUploader.tsx:31 | filtering works piecewise over concatenation, so the shown files keep the session order |
| Uploader.AssociatedFilesAll | components/FileUploader.tsx:31 | a list whose files all belong to the uploader is shown whole |
| Uploader.NewFileId | components/FileUploader.tsx:45 | a new record's id begins with the uploader id and a dash |
| Uploader.MakeRecord | components/FileUploader.tsx:44-50 | a new record belongs to the uploader that made it |
| Uploader.ProcessFiles | components/FileUploader.tsx:43-52 | one record per input file, in input order, each with the uploader's category, the file's own type, an id starting with `id-`, the preview the supply gives for its position, and no base64 |
| Uploader.CreatedFilesAreShown | components/FileUploader.tsx:31-51 | once the session appends a batch an uploader created, that uploader shows what it showed before followed by the whole batch |
| Uploader.OnFileChange | components/FileUploader.tsx:36-41 | nothing is added iff the selection is absent or empty; otherwise the batch is added and the input cleared |
| Uploader.OnDrop | components/FileUploader.tsx:54-60 | nothing is added iff the drop is absent or empty; otherwise every dropped file is added |
| Uploader.DropIgnoresMultiple | components/FileUploader.tsx:54-60 | a single-file uploader still adds every file of a multi-file drop |
| Uploader.PromptFor | components/FileUploader.tsx:94 | the prompt is "add file" iff `multiple` is true |
| Uploader.RemoveRequest | components/FileUploader.tsx:122-126 | the remove button of the k-th shown record passes exactly that record's id |
| Gemini.LastSegment | services/geminiService.ts:17 | the result is the longest separator-free suffix of the name |
| Gemini.LastSegmentAfter | services/geminiService.ts:17 | the text after the last dot is read back whole |
| Gemini.LastSegmentWhole | services/geminiService.ts:17 | a name without a dot is its own extension |
| Gemini.ToLower | services/geminiService.ts:17 | lowercasing keeps the length and maps each character |
| Gemini.MimeForExtension | services/geminiService.ts:18-25 | every known extension maps to a non-empty type |
| Gemini.GetMimeType | services/geminiService.ts:10-28 | a stored type other than empty and octet-stream is kept; otherwise the lowercased last extension is looked up, and an unknown one falls back to the stored type, or to PDF when that is empty; the result is never empty |
| Gemini.MimeByExtension | services/geminiService.ts:17-26 | for `base.ext`, the lookup goes by `ext` lowercased |
| Gemini.MimeUpperCaseExample | services/geminiService.ts:17-19 | `SCAN.PDF` resolves to application/pdf |
| Gemini.MimeLastSegmentExample | services/geminiService.ts:17-21 | `photo.final.JPEG` with a stored octet-stream resolves to image/jpeg |
| Gemini.MimeByWholeName | services/geminiService.ts:17-26 | for a name without a dot, the lookup goes by the whole name lowercased |
| Gemini.MimeDotlessExample | services/geminiService.ts:17-22 | a file named `png` resolves to image/png |
| Gemini.MimeUnknownExtension | services/geminiService.ts:26 | an unknown extension keeps a stored octet-stream and gives PDF when nothing was stored |
| Gemini.Split | services/geminiService.ts:47 | splitting gives at least one piece, no piece holds the separator, joining the pieces gives the text back, and there are two or more pieces iff the separator occurs |
| Gemini.ExtractBase64 | services/geminiService.ts:47 | a text without a comma is kept whole; otherwise the result is the comma-free text between the first comma and the next comma or the end |
| Gemini.SplitSecondField | services/geminiService.ts:47 | the second piece of a split at commas is the text between the first comma and the next comma or the end |
| Gemini.SplitJoin | services/geminiService.ts:47 | splitting a joined list of separator-free pieces gives the list back |
| Gemini.ExtractFromDataUrl | services/geminiService.ts:47 | a data URL `header,payload` yields its payload |
| Gemini.FileToPart | services/geminiService.ts:31-60 | a zero-byte file is rejected with the "is empty (0 bytes)" error before any read; a conversion succeeds iff the file is non-empty and the read yields a non-empty result; a success carries the extracted payload and the resolved type |
| Gemini.ConvertAll | services/geminiService.ts:65 | all files convert iff each does; then the parts come in file order; otherwise the error is that of a failing file |
| Gemini.Contains | services/geminiService.ts:164 | `includes` holds iff the searched text occurs at some position of the text |
| Gemini.MapError | services/geminiService.ts:161-168 | an `Error` whose message contains "no pages" becomes the unreadable-PDF error; every other value is rethrown unchanged |
| Gemini.AnalyzeDocuments | services/geminiService.ts:62-169 | a conversion failure, a thrown model call and a failed parse each fail the analysis with the rewritten error; an empty answer fails with "No response from AI"; the analysis succeeds iff every file converts, the model answers with non-empty text and that text parses, and then the parsed result is returned |
| Gemini.OneBadFileFailsAll | services/geminiService.ts:65 | one file that cannot be converted fails the whole analysis, whatever the model would answer |
| Gemini.MapErrorIdempotent | services/geminiService.ts:164-167 | rewriting an already rewritten error changes nothing |
| Gemini.NoPagesNotInRewrite | services/geminiService.ts:165 | the replacement message does not itself mention "no pages" |
| Gemini.NoPagesNotInNoResponse | services/geminiService.ts:158-165 | "No response from AI" does not mention "no pages", so the empty-answer error passes the rewrite unchanged |
| Session.RemoveById | App.tsx:54-56 | the kept files are exactly those whose id differs from the removed one |
| Session.RemoveByIdAppend | App.tsx:54-56 | removal works piecewise over concatenation, so the kept files stay in order |
| Session.RemoveUnknownId | App.tsx:54-56 | removing an id that no file carries leaves the list unchanged |
| Session.RemoveThenShow | App.tsx:54-56 | removing a file from the session removes it from every uploader's view and changes nothing else there |
| Session.Toggle | App.tsx:113-115 | toggling always changes the language |
| Session.ToggleTwice | App.tsx:113-115 | toggling twice restores the language |
| Session.CurrentAppStep | App.tsx:210 | the step is 3 iff there is a result, 2 iff there is no result but a type, else 1 |
| Session.RequiredDocs | App.tsx:444 | the checklist is empty iff no type is chosen; otherwise it is the type's layout with its fixed length; the other language gives the same ids, categories and flags |
| Session.CanAnalyze | App.tsx:59 | the guard passes iff there are files and a type; then the page is past step 1 and shows a checklist of at least five entries |
| Session.ErrorFromThrown | App.tsx:94-95 | a thrown `Error` with a non-empty message is shown as it is; anything else shows the generic error of the handler's language |
| Session.Rejected | App.tsx:59-62 | without files or a type, the no-file error is shown and nothing else changes |
| Session.Started | App.tsx:28-64 | once the guard passes, the handler (lines 63-64) makes the page busy with no error and the loading effect (lines 28-31) sets the step to 0 and hides the long-wait note; nothing else changes |
| Session.Completed | App.tsx:72-98 | a success stores the result; a failure keeps the old result and shows the error; either way the page is no longer busy, and nothing else changes |
| Session.Analyze | App.tsx:58-98 | a started analysis never leaves the page busy; a rejected one changes neither the busy flag nor the result; files and language are untouched |
| Session.AnalyzeStoresResult | App.tsx:58-98 | after the handler the error banner is clear iff the guard passed and the service succeeded, and then the service's result is shown |
| Session.ResetState | App.tsx:101-111 | reset empties files, result, error and both inputs, zeroes the loading step, hides the long-wait note, selects manual mode, clears the type, and keeps the language and the busy flag |
| Session.ResetIdempotent | App.tsx:101-111 | resetting twice is resetting once, and a reset page is on step 1 with an empty checklist |
| Session.StaleFilesAfterBack | App.tsx:331 | a record added by the salaried checklist's bank-statement entry is, after the back button and the freelance card, shown by the freelance checklist's bank-statement entry, a different entry |
| Session.RemovedRecordNotShown | components/FileUploader.tsx:122-126 | after the remove button of a shown record, no uploader shows that record, and every uploader still shows every other record it showed whose id differs |
| Session.AppSession.constructor | App.tsx:11-23 | the page starts in Thai and manual mode, with nothing chosen, uploaded or shown |
| Session.AppSession.AddFiles | App.tsx:50-52 | the batch is appended after the existing files and nothing else changes |
| Session.AppSession.RemoveFile | App.tsx:54-56 | the files become `RemoveById` of the old files and nothing else changes |
| Session.AppSession.SelectApplicantType | App.tsx:306 | only the applicant type changes; the back button's `null` keeps the files |
| Session.AppSession.SetEvaluationMode | App.tsx:350 | only the mode changes |
| Session.AppSession.SetManualIncome | App.tsx:379 | only the income text changes |
| Session.AppSession.SetManualDebt | App.tsx:389 | only the debt text changes |
| Session.AppSession.ToggleLanguage | App.tsx:113-115 | only the language changes, to the other one |
| Session.AppSession.Reset | App.tsx:101-111 | the new state is `ResetState` of the old one |
| Session.AppSession.BeginAnalyze | App.tsx:58-64 | the service is asked iff there are files and a type; the state moves as `Started` or `Rejected` says |
| Session.AppSession.FinishAnalyze | App.tsx:66-98 | the state moves as `Completed` says |
| Session.AppSession.HandleAnalyze | App.tsx:58-99 | the service is called iff the guard passes, and the state ends as `Analyze` says |
| Results.ScoreColor | components/AnalysisResults.tsx:23-27 | green iff the score is at least 70, amber iff it is from 50 to below 70, red iff it is below 50 |
| Results.HexDistinct | components/AnalysisResults.tsx:24-26 | the three colour codes are pairwise different |
| Results.ScoreColorMonotone | components/AnalysisResults.tsx:23-27 | a higher score never gets a worse colour |
| Results.ScoreData | components/AnalysisResults.tsx:18-21 | the gauge has two slices, the score and the remainder, and they sum to 100 |
| Results.GaugeSlicesNonNegative | components/AnalysisResults.tsx:18-21 | both slices are non-negative iff the score is in the documented 0 to 100 range |
| Results.StabilityBadge | components/AnalysisResults.tsx:129-133 | High is green, Medium amber, anything else red |
| Results.CardEmphasisOf | components/AnalysisResults.tsx:297-317 | the accent bar, the top-pick badge and the strong name and score all appear iff the status is Recommended |
| Results.RecommendedOnly | components/AnalysisResults.tsx:297 | the recommended banks, those a card marks as recommended, are exactly the banks whose status is `Recommended` |
| Results.TopPicks | components/AnalysisResults.tsx:184-186 | there are as many top-pick badges as recommended banks |
| Results.TopPicksCountRecommended | components/AnalysisResults.tsx:313-317 | no top-pick badge appears iff no bank is recommended |
| Results.IncomeSectionOf | components/AnalysisResults.tsx:227-250 | the fallback is shown iff there is no income breakdown; otherwise the rows show its figures, with the profile's estimate as the total |
| Results.IncomeRowsNotReconciled | components/AnalysisResults.tsx:241-244 | the income total is not checked against base + variable - haircut, so the rows can fail to add up |
| Results.TotalDebt | components/AnalysisResults.tsx:280 | the total is the existing debt plus the new installment, and with non-negative parts it is at least each part |
| Results.DebtSectionOf | components/AnalysisResults.tsx:258-283 | the fallback is shown iff there is no debt breakdown; otherwise the rows show its figures, the detected-debt list appears iff it is non-empty, and the total is the sum |

## Left out

- Rendering, Tailwind classes, icons, the preview dialog, the drag-hover state and the details-dialog toggle are presentation only.
- The loading-step timers, the long-wait timer, the artificial one-second delay and the confetti (App.tsx:28-48, 70, 75-93) depend on the clock and on randomness. The model keeps only the effect's reset of the step and of the long-wait flag when an analysis starts.
- The Gemini SDK client, the `generateContent` call, its schema, temperature and system prompt are a remote call whose behaviour cannot be seen. Its outcome is a parameter: an answer text with its parse result, or a thrown value.
- `JSON.parse(...) as AnalysisResult` performs no validation. The parse result is part of that parameter.
- `FileReader` is asynchronous. Each file's read outcome is a parameter (a result text, or a failure).
- `parseFloat` is a parameter. The only fact used about it is that it reads nothing from an empty text. `toFixed` and `toLocaleString` formatting is left out.
- `Date.now()`, `Math.random()` and `URL.createObjectURL` become a supply of arbitrary values, one per position in the batch. Neither freshness nor id uniqueness is modelled; in the source, uniqueness is only probable.
- Translation and advice texts are named, not spelled out. The error banner keeps the language of the message it shows.
- Label and description texts of the checklists are spelled out. Labels, descriptions and contents of the loan tips are not: each tip keeps only its icon and whether it has a highlight.
- The `default` branch of `getRequiredDocs` (constants.ts:459-460) cannot be reached with the closed applicant-type datatype.
- Numbers are reals, not IEEE doubles. Rounding and infinities are not modelled. The NaN of an unparsable debt is modelled by `Dti.JsNumber`.
- Gemini.ConvertAll: reports the error of the first failing file in list order. In the browser `Promise.all` rejects with the first rejection in time, which depends on read timing.
- Gemini.ToLower: lowercases ASCII letters only. For matching the known extensions this is exact.
- Session.AppSession.HandleAnalyze: runs the handler with no other handler in between. `BeginAnalyze` and `FinishAnalyze` are the two halves for runs where the user acts while the service works.
- Results.StabilityBadge: the "anything else" case is the value Low. A reply outside the declared three values cannot be represented.
