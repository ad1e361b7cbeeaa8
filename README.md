# debt_scraper core, modelled in Dafny

debt_scraper collects a person's debts from Norwegian creditor and debt-collection
sites, saves what the sites return, and adds it up. This project models the parts
of the scraper that transform data, step by step and without a browser, file system
or PDF library:

- the two JSON field finders (`find_field` in test.py and `findField` in
  src/json-searcher.mjs), and the per-file loops around them;
- the case segmentation and the transforms of the two PDF extractors for
  debt-collection statements (Kredinor and the structured variant), including the
  `DD.MM.YYYY` date scanner and the pairing of dates into invoices;
- the debt reader: it folds SI, Intrum, Kredinor and PRA Group files into one
  running `{totalDebt, debtsByCreditor, detailedDebts}` result and picks the latest
  date folder;
- the CSV exporter, the export-path builders and the URL-stem sanitiser;
- the small validators and lookups: the national-ID check, the Norwegian amount
  cleanup, the kravtype description, and URL shortening and exclusion;
- the SI krav fold of `read_json`;
- the UI state: the unpaid and paid debt trackers and the session record, their
  resets, `displayDebtData`, `loadSavedDebtData` and `handleScrapingResult`;
- the error record of `handleError`, the attempt and delay schedule of
  `retryOperation`, and `safeFileOperation`;
- the new-download detection of `waitForNewDownloadedFile`.

Mutable state is modelled as classes whose methods change it:

- `DebtResult` is the debt reader's accumulator.
- `DebtTracker`, `SessionState` and `AppState` are the UI's module-level objects.
- `Button` is a button's class list.

Loops in the source are `while` loops with invariants, and each is proved against a
function of its inputs. Pure code is functions. Lemmas state what the source
promises about those functions.

Modules, one per source file, plus shared ones:

| module | file | models |
|---|---|---|
| `Strings` | strings.dfy | `indexOf`, `includes`, `endsWith`, `trim`/`strip`, `toLowerCase` (ASCII and Latin-1), `split`, `join` |
| `Json` | json.dfy | JSON values, property reads, JavaScript truthiness, `String(v)`, and the pre-order member list the finders are proved against |
| `FieldFinder` | field_finder.dfy | test.py |
| `JsonSearcher` | json_searcher.dfy | src/json-searcher.mjs |
| `PdfText` | pdf_text.dfy | the date scanner and the raw case records both PDF extractors share |
| `Kredinor` | kredinor.dfy | src/services/extract_kredinor.mjs |
| `StructuredDebt` | structured_debt.dfy | src/services/extract_structured_debt.mjs |
| `DebtReader` | debt_reader.dfy | src/utils/debtReader.mjs |
| `ExportDebtCsv` | export_debt_csv.dfy | src/utils/exportDebtCSV.mjs |
| `FileOperations` | file_operations.dfy | src/utils/fileOperations.mjs |
| `Formatters` | formatters.dfy | src/utils/formatters.mjs |
| `Validation` | validation.dfy | src/validation.mjs |
| `KravtypeMapping` | kravtype_mapping.dfy | src/kravtypeMapping.mjs |
| `Kladd` | kladd.dfy | src/kladd/kladd.js |
| `JsonReader` | json_reader.dfy | src/json_reader.mjs |
| `UiState` | ui_state.dfy | src/ui/uiState.mjs |
| `UiNotifications` | ui_notifications.dfy | src/ui/uiNotifications.mjs |
| `DataLoader` | data_loader.dfy | src/services/dataLoader.mjs |
| `ScrapingService` | scraping_service.dfy | src/services/scrapingService.mjs |
| `ErrorHandler` | error_handler.dfy | src/utils/errorHandler.mjs |
| `PageHelpers` | page_helpers.dfy | src/utils/pageHelpers.mjs |

**Amounts and numbers.**
- Amounts read from PDFs are whole øre (`int`). The regular expressions only capture `digits,dd`.
- Amounts in JSON are `real`.
- `parseFloat`, `Number` on a string and number-to-string are not defined in the
  model. They are fields of an `Env` value that every caller passes in. NaN is `None`.

**Regular-expression extractors.** The extractors other than the date scanner and the
case-number scanner are fields of an `Extractors` value.

**Code followed over intent.** Where the code and its comments or documentation
disagree, the model follows the code:
- The Kredinor and structured fallback cases store their due date under `forfallsDato`, while the transforms read `forfallsdato`, so a fallback case never has a due date.
- The `kr|NOK` removal is a single pass.
- The CSV quoting doubles quotes but does nothing about commas or newlines, though the comment speaks of commas.

`dataLoader.mjs` imports `readAllDebtForPerson` from src/utils/utilities.mjs, which re-exports the one in src/utils/debtReader.mjs (src/utils/utilities.mjs:38-40); the model calls `DebtReader.ReadAllDebtForPerson` directly.

## Model

| member | source | states |
|---|---|---|
| Json.UnwrapOnce | test.py:24-28 | a file's parsed text is parsed once more exactly when its root is a string; a syntax error gives nothing |
| Json.UnwrapNeverTwice | src/json-searcher.mjs:32-37 | a doubly string-encoded document decodes to a string: the unwrapping happens once, never twice |
| FieldFinder.FindField | test.py:47-64 | the returned list is the passed accumulator (a fresh one for `None`) extended by the hits in the tree, in traversal order |
| FieldFinder.FoundIsStringsUnderKey | test.py:54-62 | the hits are exactly the string values of the members whose key is the field, in pre-order over all members (objects in member order, lists in index order), at any depth |
| FieldFinder.MemberContribution | test.py:55-59 | a member whose key matches and whose value is a string contributes that string; any other member contributes the hits inside its value |
| FieldFinder.ScalarRootFindsNothing | test.py:54-64 | a scalar, null or string root yields an empty list |
| FieldFinder.DeepHits | test.py:56-62 | a concrete tree: hits at several depths are found in traversal order, and a matching key with a non-string value is searched into |
| FieldFinder.ExtractFieldFromJsonFiles | test.py:4-45 | a missing directory gives `[]`; otherwise the records are those of the files in order, one per file with at least one hit |
| FieldFinder.ScanAppend | test.py:18-43 | files are processed independently, so a file that fails leaves the others' records intact |
| FieldFinder.ScanSound | test.py:33-37 | every record names a scanned file and carries exactly that file's hits, which are never empty |
| FieldFinder.ScanComplete | test.py:33-37 | every file with at least one hit has a record pairing its path with its hits |
| JsonSearcher.FindField | src/json-searcher.mjs:72-89 | the returned array is the accumulator extended by the hits in the tree, in order |
| JsonSearcher.FindInItems | src/json-searcher.mjs:74-77 | the array loop extends the accumulator by each element's hits, element after element |
| JsonSearcher.FindInMembers | src/json-searcher.mjs:78-84 | the object loop pushes a member's value when its key is the field, then that value's own hits, member after member |
| JsonSearcher.JsFoundIsValuesUnderKey | src/json-searcher.mjs:73-84 | the hits are exactly the values, of any type, of the members whose key is the field, in pre-order, so a hit nested inside a hit comes right after it; scalars and null contribute nothing |
| JsonSearcher.PythonHitsAreStringHits | src/json-searcher.mjs:79-84 | the Python finder's hits are exactly the strings among the JavaScript finder's hits, in the same order |
| JsonSearcher.FlattenWithoutArrays | src/json-searcher.mjs:43-49 | hits that are not arrays are appended as they are, in order |
| JsonSearcher.FlattenOneLevel | src/json-searcher.mjs:44-45 | an array hit is spliced one level deep only: an inner array stays one value |
| JsonSearcher.JsonFilesFilter | src/json-searcher.mjs:20-21 | exactly the top-level entries named `*.json` are read |
| JsonSearcher.NonJsonEntryIgnored | src/json-searcher.mjs:21 | an entry not ending in `.json` changes nothing |
| JsonSearcher.ExtractFieldFromJsonFiles | src/json-searcher.mjs:11-63 | a missing directory gives `[]`; otherwise the values are each JSON file's hits, flattened one level, file after file |
| JsonSearcher.GatheredAppend | src/json-searcher.mjs:51-59 | what one file yields, or fails to yield, leaves the values gathered from the other files unchanged |
| PdfText.DatePositionsFrom | src/services/extract_kredinor.mjs:14 | the matches of the global date pattern lie inside the text and do not overlap |
| PdfText.DatePositionsAreDates | src/services/extract_kredinor.mjs:14 | every match is a `DD.MM.YYYY` date |
| PdfText.DatePositionsAreLeftmost | src/services/extract_kredinor.mjs:14 | no date is skipped: none before the first match, between two matches, or after the last |
| PdfText.Dates | src/services/extract_kredinor.mjs:92 | `match` with the global date pattern: one ten-character text per match, taken at the match |
| PdfText.DatesAreDates | src/services/extract_kredinor.mjs:92 | every date found is written `DD.MM.YYYY` |
| PdfText.DateFound | src/services/extract_kredinor.mjs:14 | a date written `DD.MM.YYYY` is found as itself |
| PdfText.AfterGrunnlag | src/services/extract_kredinor.mjs:89-91 | the text after "Grunnlaget for saken" exists exactly when the marker occurs, and is a suffix of the case text |
| PdfText.CaseDates | src/services/extract_kredinor.mjs:85-100 | invoice and due date are both present or both absent; present exactly when the marker occurs and at least two dates follow; then they are the first two dates after it |
| PdfText.ExtractDatesFromCase | src/services/extract_structured_debt.mjs:88-103 | the imperative `let` updates compute `CaseDates` (the function is the same in both extractors) |
| PdfText.FallbackDates | src/services/extract_kredinor.mjs:252-256 | the fallback takes the fourth and the fifth date of the Totalbeløp page, each absent when the page has fewer |
| PdfText.CasesOnly | src/services/extract_kredinor.mjs:145 | the filter keeps only cases, never more entries than it was given |
| PdfText.CasesOnlyDropsGrandTotal | src/services/extract_kredinor.mjs:143-146 | the grand total is dropped and every case is kept, in order |
| PdfText.OrZero | src/services/extract_kredinor.mjs:165-166 | `x \|\| 0`: a present non-zero amount is kept, anything else is 0 |
| PdfText.NonZero | src/services/extract_structured_debt.mjs:289-292 | `x \|\| undefined`: an amount is kept exactly when it is present and non-zero |
| PdfText.NonEmpty | src/services/extract_structured_debt.mjs:295-297 | `s \|\| undefined`: a text is kept exactly when it is present and non-empty |
| Kredinor.ExtractCases | src/services/extract_kredinor.mjs:210-269 | `allCases` starts with the grand total, then holds one case per case-number match, case i cut from match i to match i+1 (the last to the end); the fallback case is added only with no match and the Totalbeløp page last |
| Kredinor.SegmentsTile | src/services/extract_kredinor.mjs:217-222 | for matches from a left-to-right scan, the case texts concatenate to the text from the first match to the end |
| Kredinor.SumOfFour | src/services/extract_kredinor.mjs:148-154 | the four optional amounts sum to the sum of the present ones |
| Kredinor.ToDebt | src/services/extract_kredinor.mjs:146-174 | collector "Kredinor"; interestAndFines is the sum of the present renter, gebyrer, inkasso and renterAvOmkostninger, absent exactly when that sum is 0; caseID and originalCreditorName fall back as written; totalAmount and originalAmount are `totalbeløp \|\| 0` and `restHovedstol \|\| 0`; a due date is present exactly when `forfallsdato` is non-empty, and is then `ReorderDate` of it |
| Kredinor.TransformToDebtSchema | src/services/extract_kredinor.mjs:143-175 | one debt per case, every one with collector "Kredinor" |
| Kredinor.TransformDropsGrandTotal | src/services/extract_kredinor.mjs:143-146 | the grand total followed by cases gives `allCases.length - 1` debts, the k-th from the k-th case |
| Kredinor.ExtractFields | src/services/extract_kredinor.mjs:182-272 | one debt per case-number match, each from its own segment; with no match, the single fallback debt exactly when the Totalbeløp page is the last page, otherwise none |
| Kredinor.FallbackLosesDueDate | src/services/extract_kredinor.mjs:158 | the fallback's due date is stored under `forfallsDato` and the transform reads `forfallsdato`, so the fallback debt never has a due date |
| Kredinor.ReorderDateOfDate | src/services/extract_kredinor.mjs:158-160 | a `DD.MM.YYYY` due date becomes `YYYY-MM-DD` |
| Kredinor.DueDateReordered | src/services/extract_kredinor.mjs:157-160 | a case whose `forfallsdato` is a `DD.MM.YYYY` date gets the debt due date `YYYY-MM-DD` |
| Kredinor.CaseDueDateReordered | src/services/extract_kredinor.mjs:157-160 | a due date read from a case text is always such a date, so the case's debt carries it reordered to `YYYY-MM-DD` |
| StructuredDebt.SearchText | src/services/extract_structured_debt.mjs:113-130 | invoices are searched from "Referanse til saken" when it follows "Grunnlaget for saken", otherwise in everything after that marker; none without it |
| StructuredDebt.InvoiceForFields | src/services/extract_structured_debt.mjs:142-191 | an invoice carries the two dates it was made from, a number only when it is non-empty, and an amount only when 0 < amount < 1 000 000 000 |
| StructuredDebt.PairedDates | src/services/extract_structured_debt.mjs:140-143 | dates are paired (0,1), (2,3), ...: there are ⌊n/2⌋ invoices, invoice k made of dates 2k and 2k+1, a trailing date ignored |
| StructuredDebt.InvoicesPairDates | src/services/extract_structured_debt.mjs:113-116 | no invoices without "Grunnlaget for saken"; otherwise the pairing of the search text's dates |
| StructuredDebt.ExtractInvoicesFromCase | src/services/extract_structured_debt.mjs:110-196 | the step-2 loop pushes exactly `InvoicesOf` the case text |
| StructuredDebt.DetectDebtCollector | src/services/extract_structured_debt.mjs:254-264 | each name is returned exactly when the lower-cased text mentions it and no name of higher priority (Kredinor, Intrum, PRA Group, SI, Zolva AS); otherwise 'Unknown Debt Collector' |
| StructuredDebt.DetectIgnoresCase | src/services/extract_structured_debt.mjs:255 | detection ignores letter case |
| StructuredDebt.CollectorName | src/services/extract_structured_debt.mjs:337 | a non-empty `options.debtCollectorName` overrides detection |
| StructuredDebt.NextDifferent | src/services/extract_structured_debt.mjs:371-387 | the inner search finds the first later match with a different case number, every match before it sharing the number; or none |
| StructuredDebt.CaseEnd | src/services/extract_structured_debt.mjs:371-387 | the case ends where the next match with a different case number starts, or at the end of the text when there is none |
| StructuredDebt.CollectCases | src/services/extract_structured_debt.mjs:358-454 | the loop with its nested search and `continue` builds exactly `AllCasesOf`: grand total, one case per run, and the fallback case only with no case and the Totalbeløp page last |
| StructuredDebt.SkipRun | src/services/extract_structured_debt.mjs:389-396 | inside a run of equal case numbers, the matches after the first emit nothing |
| StructuredDebt.SegmentsTile | src/services/extract_structured_debt.mjs:371-398 | the emitted case texts tile the text from the first match to the end |
| StructuredDebt.CaseIdsAreRuns | src/services/extract_structured_debt.mjs:389-396 | one case per run of equal consecutive case numbers: the emitted numbers are the matched ones with adjacent repeats removed |
| StructuredDebt.NonAdjacentRepeatsKept | src/services/extract_structured_debt.mjs:391 | A, B, A gives three cases (no global de-duplication), A, A, B gives two |
| StructuredDebt.ToStructured | src/services/extract_structured_debt.mjs:275-315 | caseNumber defaults to "", total and principal to 0, the collector is the one given; `details` is present exactly when the case has at least one invoice, and then holds them |
| StructuredDebt.TransformToStructuredCases | src/services/extract_structured_debt.mjs:272-316 | one structured case per case, all with the given collector |
| StructuredDebt.StructuredCasesOf | src/services/extract_structured_debt.mjs:273-274 | after the grand total, each case is transformed in its place |
| StructuredDebt.ExtractStructuredDebt | src/services/extract_structured_debt.mjs:326-472 | `numberOfCases` equals the number of cases; one case per emitted segment, or the single fallback case; the grand total and collector name are carried |
| StructuredDebt.FallbackLosesDueDate | src/services/extract_structured_debt.mjs:296 | the fallback case loses its due date (stored under `forfallsDato`), keeps its issue date, and has no invoice details |
| DebtReader.CreditorOrderIsKeys | src/utils/debtReader.mjs:62 | the key order of `debtsByCreditor` lists every creditor with a debt exactly once, and only those |
| DebtReader.ByCreditorIsCreditorTotal | src/utils/debtReader.mjs:62 | each creditor's entry is the sum of that creditor's debts |
| DebtReader.SumInOrderInside | src/utils/debtReader.mjs:62 | adding to one creditor's entry adds the same amount to the sum over all creditors |
| DebtReader.CreditorSumsAddUp | src/utils/debtReader.mjs:60-62 | the per-creditor sums, over the creditors in key order, add up to the total of the detailed debts |
| DebtReader.Conservation | src/utils/debtReader.mjs:60-62 | a result built by the processors balances: total = sum of detailed amounts = sum of `debtsByCreditor` |
| DebtReader.DebtResult.constructor | src/utils/debtReader.mjs:212-216 | a fresh result is empty and balanced |
| DebtReader.DebtResult.Record | src/utils/debtReader.mjs:60-74 | the three updates for an accepted debt keep the result balanced and push exactly that debt |
| DebtReader.SIOutcome | src/utils/debtReader.mjs:42-77 | the SI debts of one file and whether it throws; `ProcessSIData` gains exactly these and `SIDebtsAreUnpaidKravs` states what they are |
| DebtReader.DebtResult.ProcessSIData | src/utils/debtReader.mjs:42-77 | the result stays balanced and gains exactly the SI debts of the unpaid kravs, in order; a null krav or forfall entry throws |
| DebtReader.DebtResult.RecordKrav | src/utils/debtReader.mjs:46-75 | one krav is recorded exactly when its scan finds it unpaid |
| DebtReader.ScanRemainders | src/utils/debtReader.mjs:49-57 | the `for ... of` loop with `break` computes `ScanForfall` |
| DebtReader.ScanForfallMeans | src/utils/debtReader.mjs:50-57 | unpaid exactly when some entry has a truthy remainder ≠ 0 and every entry before is readable; throws exactly when a null entry comes first; paid otherwise |
| DebtReader.SIDebtsAreUnpaidKravs | src/utils/debtReader.mjs:45-75 | every SI debt comes from an unpaid krav, in krav order, under creditor "SI", with amount `belop \|\| 0` |
| DebtReader.DebtResult.RecordFirstOfEachKey | src/utils/debtReader.mjs:88-96 | the `forEach` with its `seen` set records exactly `Dedup` of the elements |
| DebtReader.DedupSeenGrows | src/utils/debtReader.mjs:93-94 | the keys recorded in the `seen` set only grow |
| DebtReader.DedupCovered | src/utils/debtReader.mjs:93 | once every key is in the set, the same elements again add nothing |
| DebtReader.RepeatedListCountsOnce | src/utils/debtReader.mjs:88-96 | a list followed by a copy of itself yields the debts of the list once |
| DebtReader.IntrumEntries | src/utils/debtReader.mjs:89-95 | one classified entry per Intrum case, in order |
| DebtReader.IntrumOutcome | src/utils/debtReader.mjs:85-116 | the de-duplicated Intrum debts of one file; `ProcessIntrumData` gains exactly these |
| DebtReader.DebtResult.ProcessIntrumData | src/utils/debtReader.mjs:85-116 | the result stays balanced and gains exactly the first Intrum case per `caseNumber-totalAmount` key that has the three fields and a number amount |
| DebtReader.KredinorEntries | src/utils/debtReader.mjs:129-173 | one classified entry per Kredinor item, in order |
| DebtReader.KredinorWrapperIsTransparent | src/utils/debtReader.mjs:125 | the bare array and the `{ value: [...] }` wrapper are processed alike |
| DebtReader.KredinorAmountsPositive | src/utils/debtReader.mjs:136-161 | every Kredinor debt has an amount above zero, and creditor `debtCollectorName \|\| 'Kredinor'` (old format: "Kredinor") |
| DebtReader.KredinorOutcome | src/utils/debtReader.mjs:124-175 | the de-duplicated Kredinor debts of one file, wrapper or bare array; `ProcessKredinorData` gains exactly these |
| DebtReader.DebtResult.ProcessKredinorData | src/utils/debtReader.mjs:124-175 | the result stays balanced and gains exactly the de-duplicated Kredinor debts |
| DebtReader.PRAOutcome | src/utils/debtReader.mjs:184-187 | at most one PRA Group debt, only when accountReference and amountNumber are truthy, with an amount above zero |
| DebtReader.DebtResult.ProcessPRAGroupData | src/utils/debtReader.mjs:183-204 | the result stays balanced and gains exactly the PRA Group debt, if any |
| DebtReader.FileDebts | src/utils/debtReader.mjs:247-252 | the debts of one parsed file: SI, Intrum, Kredinor, PRA Group in that order, stopping after the processor that throws; `ProcessFile` gains exactly these |
| DebtReader.DebtResult.ProcessFile | src/utils/debtReader.mjs:248-252 | one parsed file goes through the four processors in order; a throw ends that file, keeping what was pushed |
| DebtReader.DebtResult.ProcessFiles | src/utils/debtReader.mjs:243-257 | each file is read, parsed and processed; a file that fails adds nothing and stops nothing |
| DebtReader.FilesDebtsAppend | src/utils/debtReader.mjs:243-252 | `seen` sets are per call, so identical cases in different files are both counted: the debts of two file lists are the debts of each |
| DebtReader.DateFoldersFilter | src/utils/debtReader.mjs:226-228 | exactly the directories named like `^\d{4}_\d{2}_\d{2}$` are candidates |
| DebtReader.Latest | src/utils/debtReader.mjs:229-236 | nothing for an empty list, otherwise one of the names |
| DebtReader.LatestIsGreatest | src/utils/debtReader.mjs:229-236 | the folder chosen is the lexicographic maximum |
| DebtReader.StrLessTotal | src/utils/debtReader.mjs:229 | the default sort order compares any two different names |
| DebtReader.StrLessTrans | src/utils/debtReader.mjs:229 | the default sort order is transitive |
| DebtReader.ExtractedDataFilesFilter | src/utils/debtReader.mjs:26 | exactly the files whose name ends in `_extracted_data.json` are read |
| DebtReader.PersonDebts | src/utils/debtReader.mjs:217-257 | the debts of every extracted-data file in the latest date folder, none when a folder is missing; `ReadAllDebtForPerson` returns exactly these |
| DebtReader.ReadAllDebtForPerson | src/utils/debtReader.mjs:211-263 | a fresh, balanced result holding the debts of the files of the latest date folder; empty when the person's folder or a date folder is missing |
| ExportDebtCsv.Records | src/utils/exportDebtCSV.mjs:13 | one record per detailed debt, in order |
| ExportDebtCsv.FirstSeenIsHeader | src/utils/exportDebtCSV.mjs:19-21 | the header holds every key exactly once, only keys that occur, ordered by first occurrence |
| ExportDebtCsv.QuoteRoundTrip | src/utils/exportDebtCSV.mjs:28-31 | quoting a string (inner quotes doubled) is undone by reading the field back |
| ExportDebtCsv.UnescapeEscape | src/utils/exportDebtCSV.mjs:30 | undoubling the quotes recovers the original string |
| ExportDebtCsv.Cells | src/utils/exportDebtCSV.mjs:26-33 | one field per header key, in header order |
| ExportDebtCsv.FieldsFollowHeader | src/utils/exportDebtCSV.mjs:27-32 | a missing key or a null value gives an empty field, and a string field reads back as the string |
| ExportDebtCsv.BuildRows | src/utils/exportDebtCSV.mjs:24-35 | the loop yields the header line then one line per debt, in input order: 1 + n lines |
| ExportDebtCsv.ExportDebtsAsCsv | src/utils/exportDebtCSV.mjs:10-38 | an empty debt list is the error "Ingen gjeld funnet for " + personId, and nothing is written; otherwise the text is the lines joined with newlines |
| FileOperations.SavePage | src/utils/fileOperations.mjs:29-36 | false exactly for "bankid" and "id-porten" |
| FileOperations.NatString | src/utils/fileOperations.mjs:44-45 | `toString` of a natural number is a non-empty digit string |
| FileOperations.NatStringValue | src/utils/fileOperations.mjs:44-45 | and it reads back as the number |
| FileOperations.TwoDigits | src/utils/fileOperations.mjs:44-45 | `padStart(2, "0")` makes month and day two digits that read back as the number |
| FileOperations.DateString | src/utils/fileOperations.mjs:42-48 | the folder name of a date, year, month and day padded and joined by `_`; `DateStringIsDateName` proves its shape and read-back |
| FileOperations.DateStringIsDateName | src/utils/fileOperations.mjs:42-48 | the date string is `YYYY_MM_DD`, its fields reading back as year, 1-based month and day; the debt reader accepts it as a date folder |
| FileOperations.DateOrderIsStringOrder | src/utils/fileOperations.mjs:42-48 | string order of date strings is calendar order, so the reader's latest folder is the most recent date |
| FileOperations.DigitsOrder | src/utils/fileOperations.mjs:44-47 | equal-length digit strings compare as the numbers they spell |
| FileOperations.Defaulted | src/utils/fileOperations.mjs:69-71 | `if (!x) x = d`: a non-empty string is kept, a missing or empty one becomes the default |
| FileOperations.Underscored | src/utils/fileOperations.mjs:85 | every character outside `[A-Za-z0-9.]` becomes "_", the others are kept |
| FileOperations.UrlStem | src/utils/fileOperations.mjs:82-86 | the stem holds only `[a-z0-9._]` |
| FileOperations.ExportPath | src/utils/fileOperations.mjs:59-100 | the path `createFoldersAndGetName` returns, with the defaults applied; `ExportPathShape` proves where each kind of capture lands |
| FileOperations.CreateFoldersAndGetName | src/utils/fileOperations.mjs:59-100 | the parameter reassignments and `+=` build exactly `ExportPath` |
| FileOperations.ExportPathShape | src/utils/fileOperations.mjs:69-89 | with the defaults, JSON goes to `<base>/<stem>.json` and anything else to `<base>/not_json/<stem>.txt` |
| FileOperations.ExtractedPath | src/utils/fileOperations.mjs:108-118 | the extracted-data path `createExtractedFoldersAndGetName` returns; `ExtractedPathIsRead` proves the debt reader finds it |
| FileOperations.ExtractedPathIsRead | src/utils/fileOperations.mjs:108-118 | the extracted-data path is `./extracted_data/<name>/<date>/<site>_extracted_data.json`, inside the person's folder, in a date folder the reader accepts, with the suffix it collects |
| FileOperations.FileKnownToContainName | src/utils/fileOperations.mjs:232-236 | a name is known to hold the user's name exactly when it contains the basisinfo file name; `KnownNameInPath` applies it to paths |
| FileOperations.KnownNameInPath | src/utils/fileOperations.mjs:232-236 | any name containing the basisinfo file name, such as a path ending in it, is known to contain the user's name |
| Formatters.RemoveCurrency | src/utils/formatters.mjs:22 | removing the labels never lengthens the text |
| Formatters.LabelFreePrefix | src/utils/formatters.mjs:22 | text where no label starts is kept as it is, and every later label is still found |
| Formatters.NoLabelLetters | src/utils/formatters.mjs:22 | text without a k or n (any case) is unchanged |
| Formatters.SinglePassLeavesLabel | src/utils/formatters.mjs:22 | the `/kr\|NOK/gi` pass is single: "kkrr" becomes "kr" |
| Formatters.RemoveSpaces | src/utils/formatters.mjs:23 | afterwards no white space remains |
| Formatters.SpacelessUnchanged | src/utils/formatters.mjs:23 | only white space is removed |
| Formatters.CleanedShape | src/utils/formatters.mjs:21-25 | the cleaned text has no white space, and only the first comma became a point |
| Formatters.ParseNorwegianAmount | src/utils/formatters.mjs:16-18 | undefined, null and "" give 0; a number is returned unchanged |
| Formatters.UnparseableIsZero | src/utils/formatters.mjs:27-28 | text that cannot be a number, including text that cleans to nothing, gives 0 |
| Formatters.DecimalLiteralIsRead | src/utils/formatters.mjs:21-28 | a plain decimal literal such as "1234.56" is read as its exact value |
| Formatters.CleanedDecimalIsRead | src/utils/formatters.mjs:21-28 | text that cleans to a decimal literal reads as its value |
| Formatters.GroupedAmount | src/utils/formatters.mjs:12-14 | "a b,c" and "a b,c kr" both read as the number ab.c, as the documented "1 234,56" and "1 234,56 kr" examples show |
| Formatters.CleanedKr | src/utils/formatters.mjs:21-22 | a trailing " kr" after digits, spaces and commas disappears |
| Validation.ValidateNationalId | src/validation.mjs:10-22 | valid exactly when the trimmed length is 11 (no digit check), valid exactly when there is no error; empty means "påkrevd", any other invalid input the length message |
| Validation.SurroundingSpaceIsIgnored | src/validation.mjs:11 | validate(trim(s)) = validate(s) |
| Validation.BlankIsRequired | src/validation.mjs:13-15 | empty or all-space input is invalid with the "påkrevd" message |
| Validation.ElevenCharactersPass | src/validation.mjs:17-21 | any 11 characters without surrounding space pass, digits or not |
| KravtypeMapping.Describe | src/kravtypeMapping.mjs:19-25 | a non-empty kravtypetekst is returned verbatim; otherwise the table entry for a known code; otherwise the code |
| KravtypeMapping.DescriptionNonEmpty | src/kravtypeMapping.mjs:5-11 | with a non-empty code, the description is never empty |
| KravtypeMapping.DescriptionOrigin | src/kravtypeMapping.mjs:19-25 | the result is the API text, a table entry or the code |
| KravtypeMapping.StudyLoanExample | src/kravtypeMapping.mjs:10 | "627" gives "Studielån - oppsagt studielån"; an unknown code gives itself |
| Kladd.ShortenUrl | src/kladd/kladd.js:6-8 | the shortened URL holds no '?'; `ShortenUrlIsPath` shows it is the prefix before the first one |
| Kladd.ShortenUrlIsPath | src/kladd/kladd.js:6-8 | the prefix before the first '?', or the whole URL; it contains no '?', and shortening twice is shortening once |
| Kladd.EndsWithAny | src/kladd/kladd.js:12-28 | true only when some listed suffix ends the URL; `EndsWithAnyMeans` gives the converse |
| Kladd.EndsWithAnyMeans | src/kladd/kladd.js:12-28 | the chain of suffix tests is true exactly when some listed suffix ends the URL |
| Kladd.ExcludeUrl | src/kladd/kladd.js:10-31 | a missing or non-string URL and the empty string are excluded; `ExcludeUrlMeans` characterises every case |
| Kladd.ExcludeUrlMeans | src/kladd/kladd.js:10-31 | excluded exactly when not a string, ending in a listed suffix, mentioning google-analytics, or empty |
| Kladd.SuffixesEndInNonDigits | src/kladd/kladd.js:12-28 | every listed suffix except ".woff2" ends in something other than a digit |
| Kladd.NumericEndingIsKept | src/kladd/kladd.js:10-31 | a non-empty URL ending in a digit, not a ".woff2" font and not mentioning google-analytics, is kept |
| JsonReader.ReadJson | src/json_reader.mjs:17-36 | throws at the first krav without a readable `forfall[0]`; otherwise the collection is not current, belongs to `creditSite`, totals every `belop`, and holds one debt per krav, in order, with id and amount copied |
| JsonReader.FirstUnreadable | src/json_reader.mjs:32 | the krav that throws is the first one whose due date cannot be read |
| JsonReader.TotalIsSumOfDebts | src/json_reader.mjs:28-31 | the total equals the sum of the amounts of the debts held |
| UiState.EmptyIsConsistent | src/ui/uiState.mjs:24-34 | the initial tracker lists no creditor, stores nothing and totals 0 |
| UiState.SumStoredOutside | src/ui/uiNotifications.mjs:94 | storing under an unlisted creditor leaves the sum over the listed ones alone |
| UiState.DebtTracker.constructor | src/ui/uiState.mjs:24-28 | a tracker starts empty with total 0 |
| UiState.DebtTracker.Clear | src/ui/uiState.mjs:40-42 | the three assignments leave the tracker empty |
| UiState.SessionState.constructor | src/ui/uiState.mjs:15-21 | the session starts with no site, no user, total 0 and no callbacks |
| UiState.AppState.constructor | src/ui/uiState.mjs:15-34 | both trackers start empty and distinct, and the session as above |
| UiState.AppState.ResetDebtState | src/ui/uiState.mjs:39-49 | both trackers emptied and the session total zeroed; site, user and callbacks unchanged |
| UiState.AppState.ResetSessionState | src/ui/uiState.mjs:54-59 | site, user and both callbacks nulled; the session total and both trackers unchanged |
| UiNotifications.RecordKeepsConsistent | src/ui/uiNotifications.mjs:88-114 | recording keeps a tracker consistent; a new site is listed once, its amount added and its collection stored; recording it again changes nothing |
| UiNotifications.DisplayDebtData | src/ui/uiNotifications.mjs:83-115 | a total ≤ 0 changes nothing; a current collection updates only the unpaid tracker, a non-current one only the paid tracker (whether or not paid debts are shown) |
| UiNotifications.RecordAllKeepsConsistent | src/ui/uiNotifications.mjs:92-108 | from a reset, any sequence of reports leaves each tracker without duplicate creditors and with a total equal to the sum of its stored collections |
| DataLoader.Standardize | src/services/dataLoader.mjs:39-47 | the standardised form of one loaded debt; `StandardizedIsDefined` proves its defaults |
| DataLoader.StandardizedIsDefined | src/services/dataLoader.mjs:39-47 | no standardised field is undefined; caseID defaults to 'Unknown', originalCreditorName to the creditor, the amount is copied |
| DataLoader.OfCreditorIsFilter | src/services/dataLoader.mjs:36 | the filter keeps exactly the debts of the creditor |
| DataLoader.StandardizeAll | src/services/dataLoader.mjs:39-47 | one standardised debt per debt, in order |
| DataLoader.CollectionAddsUp | src/services/dataLoader.mjs:49-54 | a stored collection's debts add up to its `totalAmount`, which is `debtsByCreditor[c]` |
| DataLoader.LoadedStateConsistent | src/services/dataLoader.mjs:24-57 | the rebuilt tracker lists each creditor once, stores exactly their collections, and totals `totalDebt` = the sum of the stored totals |
| DataLoader.LoadKeepsConsistent | src/services/dataLoader.mjs:17-76 | loading keeps a consistent tracker consistent |
| DataLoader.Rebuild | src/services/dataLoader.mjs:24-61 | the reset and the `forEach` over creditors leave the tracker at `LoadedState`: creditors in key order, total `totalDebt`, one standardised collection per creditor |
| DataLoader.LoadSavedDebtData | src/services/dataLoader.mjs:17-76 | no change unless the ID has 11 characters and the saved total is above 0; otherwise the tracker is rebuilt from the saved debts |
| ScrapingService.Classify | src/services/scrapingService.mjs:26-68 | each case label is selected exactly by its string; anything else is the default |
| ScrapingService.SuccessNames | src/services/scrapingService.mjs:31-46 | a result is a success exactly for DEBT_FOUND, NO_DEBT_FOUND and MESSAGES_PROCESSED |
| ScrapingService.MessageNamesSite | src/services/scrapingService.mjs:29-65 | every error message names the site it is about |
| ScrapingService.WithoutMembers | src/services/scrapingService.mjs:73-76 | `classList.remove` drops exactly the token and keeps every other class |
| ScrapingService.ClassesAfterMeans | src/services/scrapingService.mjs:71-79 | afterwards the button has exactly one of btn-visited / btn-visit-failed, matching success, and its other classes are unchanged |
| ScrapingService.Button.Remove | src/services/scrapingService.mjs:73-76 | the class list becomes `Without` the token |
| ScrapingService.Button.Add | src/services/scrapingService.mjs:74-77 | the token is appended unless present |
| ScrapingService.HandleScrapingResult | src/services/scrapingService.mjs:23-82 | returns true exactly for the three success results; a failure shows the notice of its case and a success none; saved data is loaded only for DEBT_FOUND with a person ID and a summary container, otherwise the tracker is unchanged; the button gets `ClassesAfter` |
| ErrorHandler.NorwegianMessage | src/utils/errorHandler.mjs:42 | `norwegianMessages[errorType] \|\| norwegianMessages.UNKNOWN`: never empty and always one of the table's messages; `MessageForType` says which |
| ErrorHandler.HandleError | src/utils/errorHandler.mjs:40-53 | the error record always carries a Norwegian message, and a stack only at CRITICAL severity; `RecordCopiesItsInputs` states every field |
| ErrorHandler.MessageForType | src/utils/errorHandler.mjs:23-43 | a known type gets its own Norwegian message, any other type the UNKNOWN one; never empty |
| ErrorHandler.RecordCopiesItsInputs | src/utils/errorHandler.mjs:45-53 | type, severity, message, context and timestamp are copied; the stack is included exactly for CRITICAL |
| ErrorHandler.RetryOperation | src/utils/errorHandler.mjs:76-93 | at most maxRetries calls; returns exactly when some attempt in 1..maxRetries succeeds, and then the first success, all earlier attempts having failed; otherwise throws the last error (undefined when no attempt was made); after failed attempt k it waits delayMs·k, with no wait after the last |
| ErrorHandler.SafeFileOperation | src/utils/errorHandler.mjs:101-108 | the operation's value on success; null and one error record on failure |
| ErrorHandler.FailureIsFileSystemError | src/utils/errorHandler.mjs:105 | a failure is recorded as FILE_SYSTEM / ERROR with the file message, the path as context and no stack |
| PageHelpers.Timestamps | src/utils/pageHelpers.mjs:54-63 | the recorded modification times of the first listing, empty when the directory is missing; `RecordTimestamps` is proved equal to it |
| PageHelpers.RecordTimestamps | src/utils/pageHelpers.mjs:54-63 | the `forEach` records a time for exactly the names whose `stat` succeeds, and records their times |
| PageHelpers.NewFiles | src/utils/pageHelpers.mjs:74-82 | one poll's filter, or the name on which its `stat` throws; `NewFilesThrows`, `NewFilesKeeps` and `NewFilesFirst` characterise it |
| PageHelpers.NewFilesThrows | src/utils/pageHelpers.mjs:80-81 | the filter throws exactly when a name it must `stat` cannot be read |
| PageHelpers.NewFilesKeeps | src/utils/pageHelpers.mjs:74-82 | otherwise it keeps exactly the non-temporary names that are new, or pre-existing with a truthy recorded time and a strictly later current one |
| PageHelpers.NewFilesFirst | src/utils/pageHelpers.mjs:84-87 | the name returned is the first qualifying name in listing order |
| PageHelpers.TemporaryNeverKept | src/utils/pageHelpers.mjs:76-78 | `.tmp`, `.crdownload` and `.part` names are never kept |
| PageHelpers.PollFrom | src/utils/pageHelpers.mjs:66-91 | the polls from a given attempt on; `PollFromMeans` characterises the result |
| PageHelpers.PollFromMeans | src/utils/pageHelpers.mjs:66-91 | a name is returned only from a poll within the bound after every earlier poll was empty (a missing directory counts as empty); null exactly when every poll was empty |
| PageHelpers.WaitForNewDownloadedFile | src/utils/pageHelpers.mjs:47-92 | the loop computes `PollFrom` from the first listing, with at most maxAttempts polls |
| PageHelpers.ReturnedQualifies | src/utils/pageHelpers.mjs:74-87 | what is returned is a non-temporary name some poll listed, new or modified since the first listing |
| PageHelpers.NewNameIsFound | src/utils/pageHelpers.mjs:80-87 | a non-temporary name absent from the first listing and seen by the first poll (with no `stat` failure) makes the call return a name |

## Left out

- File system I/O (`readFileSync`, `writeFile`, `mkdirSync`, `readdirSync`, `statSync`, `existsSync`, `rename`) and the recursive directory walks.
  - Their results are inputs: file lists, a `Disk` of texts and directory flags, and listings with modification times.
  - Directory creation in `createFoldersAndGetName` and `createExtractedFoldersAndGetName` is not modelled, nor is `path.join` normalisation of `.` and `..`.
  - test.py's `**/*.json` glob becomes a given list of files.
- JSON parsing is a function parameter (`parse`), with `None` for a syntax error. JavaScript's ordering of integer-like keys and duplicate keys happen at parse time and are not modelled; objects keep member order.
- The PDF layer: document and page loading, `findTotalbeløpPage`, page text joining and the no-break-space normalisation. The page texts, page numbers and grand total are inputs.
- The regular-expression field extractors (amounts, creditor names, identifiers, invoice numbers, the amount after a due date) are functions of an `Extractors` value. Only the date scanner and the case-number matches' order are modelled.
- `parseFloat`, `Number` beyond plain decimal literals, and number-to-string are functions of an `Env` value, because floating point is not modelled.
  - The same applies to `toLocaleString`/`toFixed` and `formatNorwegianCurrency` (display only).
  - `new Date(...)` of a reordered due date is kept as its `YYYY-MM-DD` text.
- `new Date()` and `toISOString()`: the date and the timestamp are parameters.
- The Zod schema validation of both PDF extractors (`safeParse`), which leaves the data unchanged in either branch, and the schema files.
- Logging (`console.*`), the demo block of src/json-searcher.mjs and the example usage in test.py.
- The DOM and UI:
  - not modelled: `visualizeDebt`, `summaryDiv.append`/`innerHTML`, `updateTotalDebtDisplay`, `showScrapeDebtError` rendering, and `showValidationError`;
  - the error notice a failing scrape shows is returned as a value;
  - the summary container is only tested for presence.
- `config.showPaidDebts` only decides whether a paid collection is drawn, so it is not modelled. The paid tracker is updated either way.
- Timers:
  - the delays of `retryOperation` are returned as a list rather than waited for;
  - `pollInterval` and the `FILE_DOWNLOAD_FINALIZE_DELAY_MS` wait of `waitForNewDownloadedFile` are not modelled;
  - `FILE_DOWNLOAD_MAX_ATTEMPTS` (src/utils/constants.mjs:15) is `PageHelpers.FileDownloadMaxAttempts`.
- Async orchestration is not modelled: `createDebtCollectorButtonHandler`, `createVisitAllButtonHandler`, the debounce in `setupDataLoadListeners`, `loadOfflineData` and the `process.on` handlers.
- Browser automation (src/pages/*, src/scraper.mjs, src/services/pageHandlerSetup.mjs) and the Electron setup in src/main.mjs are not part of this model.
- The `try`/`catch` of `loadSavedDebtData` is not modelled: the model's reader does not throw.
- The broken src/utilities.mjs and src/utilies.mjs, and the superseded src/extract_kredinor.js and src/extract_kredinor.mjs scripts, are not part of this model.
- ScrapingService.HandleScrapingResult: only string results are modelled. A non-string result falls to the `default` case in the source, as any unknown string does here.
- ErrorHandler.HandleError: a thrown value that is not an object (whose `.message` would be undefined or throw) is not modelled; the thrown error is a record of its `message` and `stack`.
- ErrorHandler.RetryOperation: an operation that rejects with null or undefined makes `error.message` (src/utils/errorHandler.mjs:84) throw inside the `catch`, so the source rejects at once with a TypeError and does not retry. The model's failures are always records, so it keeps retrying.
- ErrorHandler.SafeFileOperation: for the same reason, a null or undefined rejection makes the source's `handleError` throw instead of returning null; the model always returns null and a record.
- DebtReader.NumberOr0: `krav.belop || 0` (src/utils/debtReader.mjs:46) is narrowed to numbers. A truthy `belop` that is not a number (a string such as "100", `true`, an object) reads as 0 here; the source keeps the raw value and pushes it as `amount` and `totalAmount`. JavaScript's mixed-type `+` is not modelled.
- DebtReader.SIDebtsAreUnpaidKravs: the amount it states is `belop` only when `belop` is a number, because of the narrowing on the line above. With a non-number `belop`, the source's `totalDebt += amount` and `debtsByCreditor['SI'] + amount` (lines 60-62) concatenate strings. Neither this lemma nor DebtReader.Conservation describes such files.
- DebtReader.KredinorEntry: the creditor is `String(item.debtCollectorName)` when that is truthy. The source stores the raw value (src/utils/debtReader.mjs:141), so a non-string collector such as 5 is keyed "5" in `debtsByCreditor` but stored as the number 5 in the debt. Creditors are modelled as strings only.
- DebtReader.KredinorAmountsPositive: the creditor it states is the string form of `debtCollectorName || 'Kredinor'`, for the reason on the line above.
- DataLoader.Rebuild: the creditors are visited in insertion order (`DebtReader.CreditorOrder`), and every creditor is a string.
  - `Object.entries` (src/services/dataLoader.mjs:35) lists integer-like keys such as "5" or "2024" first, in numeric order, whatever the insertion order; the model does not.
  - A non-string creditor fails `debt.creditor === creditor` (line 36) in the source, so its collection would be empty; the model has none.
  - A creditor named "constructor" or "__proto__" would read an inherited value at src/utils/debtReader.mjs:62 and 141; the model has no inherited keys.
- DataLoader.CollectionAddsUp: holds for string creditors only, for the reasons on the line above.
- Strings.ToLower: lower-cases A-Z and the Latin-1 capitals U+00C0-U+00DE (except U+00D7) only. JavaScript's `toLowerCase` applies full Unicode case mapping; other scripts and special mappings are not modelled.
- StructuredDebt.DetectIgnoresCase: letter case is ignored only for the characters Strings.ToLower lowers. For example, "\u212AREDINOR" (the Kelvin sign U+212A, which `toLowerCase` maps to "k") is detected as Kredinor by the source but not by the model.
- StructuredDebt.DetectDebtCollector: the text is lower-cased by Strings.ToLower, with the gap on the line above.
- Validation.ValidateNationalId: strings are sequences of Unicode characters, while JavaScript's `.length` (src/validation.mjs:17) counts UTF-16 code units. A character outside the Basic Multilingual Plane counts 2 in the source and 1 here; the same applies to the length check of src/services/dataLoader.mjs:18 in DataLoader.LoadSavedDebtData.
- FileOperations.Underscored: the non-Unicode `/[^a-zA-Z0-9.]/g` (src/utils/fileOperations.mjs:85) replaces each UTF-16 code unit, so a character outside the Basic Multilingual Plane becomes "__" in the source and "_" here.
- ErrorHandler.NorwegianMessage and KravtypeMapping.Describe: lookups of inherited prototype keys such as "constructor" are not modelled; such keys are treated as absent.
- Formatters.ParseNorwegianAmount: `Number` is modelled exactly for plain decimal literals. Other numeric forms (hexadecimal, exponents, "Infinity") go through `Env`, and the result for them is only constrained to be 0 when the text cannot be a number.
- DebtReader.DebtResult.ProcessIntrumData: `parseFloat` is an `Env` function. NaN is modelled; `parseFloat`'s prefix parsing is whatever that function says.
