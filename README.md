# CV analyser core in Dafny

This project models the part of the SmartCV analyser that checks and
transforms data. The repository has two Python files with logic.

- scripts/app.py is the Streamlit application. It reads an uploaded PDF or
  text file without cleaning the text. It offers analysis when the text is
  long enough and asks a language model for a JSON analysis. It accepts the
  answer when it holds the seven required keys. It then shows scores,
  banners and two reports it writes itself.
- scripts/utils.py is a library of helpers that the application does not
  import:
  - text cleaning;
  - upload and content validation;
  - score display and final recommendation;
  - a full schema check of the analysis;
  - two report generators;
  - content statistics.

Both files are modelled. Each module below says which file it follows.

The modules:

- `PyText` holds the Python string operations both files rely on:
  - `isspace`, `strip`, `split(sep)`, `sep.join`;
  - slicing with truncation;
  - decimal rendering of integers.
- `JsonModel` is the value `json.loads` produces, for both files:
  - objects, lists, strings, integers, floats, booleans and `null`;
  - Python's `key in x` and `x[key]` on such a value, including the
    `TypeError` raised for a scalar;
  - `str()` of a value, and the `repr()` that `str()` uses for a value
    nested in a container.
- `TextCleaner` is `clean_extracted_text` (scripts/utils.py). It is a method with the source's
  line loop, proved against a specification function, and the cleaned
  text's shape is proved as lemmas.
- `InputChecks` is `validate_file` and `validate_content` (scripts/utils.py). Each reports the
  first check that fails.
- `ScoreTiers` is `format_score_display` and `get_final_recommendation`
  (scripts/utils.py),
  the three display bands and the five inclusive tiers (90/80/70/60).
- `ResponseCheck` is `validate_analysis_response` (scripts/utils.py):
  - the code-fence strip;
  - the ordered schema checks (keys, sections, scores, arrays);
  - imperative loops for each, proved equal to the specification
    functions.
- `ContentStats` is `get_content_statistics` (scripts/utils.py): words, sentences,
  paragraphs and reading time.
- `Reports` is `generate_report_text` (scripts/utils.py), detailed and summary. Each report is
  built from a wording record (the fixed text) and a fill record (the
  values taken from the analysis). The proofs show which values appear in
  the text.
- `AppFlow` is the logic of scripts/app.py:
  - the score colour, class and level;
  - the fence strip and required-key check in `analyze_cv`, as a method;
  - the upload screen: size refusal, name truncation, the content gate,
    word count, estimated time and preview;
  - the context banner, the in-app detailed report and the in-app summary.

Three quirks of the code are stated as lemmas, not corrected:

- `validate_content` applies the 50-character minimum to the trimmed text
  (scripts/utils.py:137) but the 50000-character maximum to the text as
  given (scripts/utils.py:141), so trailing whitespace counts towards the
  maximum. See `InputChecks.PaddingCountsTowardsMaximum`.

- The app offers analysis only when the trimmed text has more than 50
  characters, but `validate_content` accepts exactly 50. The warning the
  app then shows says "Mínimo: 50". See `AppFlow.FiftyCharactersRefused`.
- `analyze_cv` tests required keys with `in`. On a JSON list of the seven
  key names, every test succeeds and the list is returned as the
  analysis, while `validate_analysis_response` rejects it. See
  `AppFlow.KeyNameListAccepted`.

## Model

| member | source | states |
|---|---|---|
| TextCleaner.CleanExtractedText | scripts/utils.py:62-92 | The result is the cleaning function of the input. Empty input gives "". The output has none of the removed control characters. Every line of a non-empty output is stripped and longer than 2 characters, so no line is blank. |
| TextCleaner.KeepLongLines | scripts/utils.py:85-92 | The loop keeps exactly the stripped lines longer than 2 characters, in order. The loop invariant ties each prefix of the input to the lines kept so far. |
| TextCleaner.RemoveControlChars | scripts/utils.py:76 | No character in \x00-\x08, \x0b, \x0c, \x0e-\x1f, \x7f-\x84 or \x86-\x9f is left. Every other character keeps its count, so \n, \t and \x85 survive. |
| TextCleaner.CollapseSpaces | scripts/utils.py:82 | No two spaces are adjacent. Only characters of the input occur and the first character is kept. Every character other than the space keeps its count. |
| TextCleaner.CollapseBlankLinesChars | scripts/utils.py:79 | Collapsing whitespace-only lines into one blank line introduces no new character. |
| TextCleaner.CollapseBlankLinesFixedPoint | scripts/utils.py:79 | Text with no newline followed by whitespace and another newline is unchanged by the blank-line pass. |
| TextCleaner.CollapseSpacesFixedPoint | scripts/utils.py:82 | Text with no double space is unchanged by the space pass. |
| TextCleaner.KeptLines | scripts/utils.py:85-92 | Every kept line is stripped and longer than 2 characters, and no more lines come out than went in. |
| TextCleaner.KeptLinesFixedPoint | scripts/utils.py:85-92 | Lines that are all already stripped and long enough are all kept unchanged. |
| TextCleaner.KeptLinesOccur | scripts/utils.py:85-92 | Every kept line occurs in the text the lines were split from. |
| TextCleaner.KeptLinesHaveNoNewline | scripts/utils.py:85-90 | No kept line contains a newline. |
| TextCleaner.CleanedTextShape | scripts/utils.py:62-92 | The cleaned text has no removed control character and no double space. Each newline is followed by text. Every line is kept-line shaped. |
| TextCleaner.KeptLinesInherit | scripts/utils.py:76-92 | Lines kept from a text without control characters or double spaces have neither, and have no newline. |
| TextCleaner.CleanedTextIdempotent | scripts/utils.py:62-92 | Cleaning already-cleaned text changes nothing. |
| TextCleaner.JoinKeepsNewlinesBeforeText | scripts/utils.py:92 | Joining non-empty stripped lines with "\n" gives text where each newline is followed by text. |
| PyText.SplitJoin | scripts/utils.py:85 | Splitting lines joined with a separator they do not contain gives the lines back. |
| PyText.JoinSplit | scripts/utils.py:85 | Joining the pieces of a split with its separator gives the text back. |
| PyText.Strip | scripts/utils.py:88 | The result is stripped and is the input with its leading and trailing whitespace runs removed. |
| PyText.Take | scripts/app.py:324 | A slice `s[:n]` has length min(n, len(s)) and is a prefix of `s`. |
| InputChecks.ValidateFile | scripts/utils.py:94-121 | The file is accepted iff it is present, its type is application/pdf or text/plain, and its size is in 1..10·1024·1024. Each error holds exactly when the earlier checks pass and its own check fails: no file, then type, then size over the limit, then empty. Errors carry the offending type or size. |
| InputChecks.JustOverLimitMessage | scripts/utils.py:114-115 | One byte over the limit is reported as "10.0" MB. |
| InputChecks.TieMessage | scripts/utils.py:114-115 | A size of exactly 10.25 MB (41·2^18 bytes) is a tie and is reported as "10.2" MB. |
| InputChecks.RoundHalfEven | scripts/utils.py:115 | The result is within half a unit of the exact quotient. On an exact tie (the remainder is half the divisor) it is the even one of the two neighbours, as `:.1f` rounds. |
| InputChecks.ValidateContent | scripts/utils.py:123-149 | The text is accepted iff: its trimmed length is at least 50; its untrimmed length is at most 50000; and, once non-word non-space characters are dropped, at least 30 trimmed characters remain. Each error holds exactly when the earlier checks pass and its own fails: empty or whitespace only, too short, too long, insufficient text. |
| InputChecks.LetterRunVerdict | scripts/utils.py:133-149 | A run of n letters is refused as empty (n = 0), too short (n < 50) or too long (n > 50000), and accepted otherwise. |
| InputChecks.PaddingCountsTowardsMaximum | scripts/utils.py:141 | 50 letters followed by 50000 spaces is refused as too long, although its trimmed length is 50. |
| InputChecks.PunctuationOnlyRefused | scripts/utils.py:145-147 | Fifty dashes are refused as insufficient text. |
| ScoreTiers.TierOf | scripts/utils.py:161-200 | Every score falls in the tier this picks. |
| ScoreTiers.TierIsUnique | scripts/utils.py:161-200 | A score is in a tier iff that tier is the one picked, so exactly one tier applies. |
| ScoreTiers.AllTiersUnique | scripts/utils.py:161-200 | Every tier a score is in is the tier picked. |
| ScoreTiers.ThresholdsAreInclusive | scripts/utils.py:161-200 | Each lower bound 90, 80, 70 and 60 falls in its own, higher tier. |
| ScoreTiers.TierIsMonotone | scripts/utils.py:161-200 | A higher score never gets a lower tier. |
| ScoreTiers.FormatScoreDisplay | scripts/utils.py:151-200 | The display is the one of the score's tier. The class is score-excellent iff score ≥ 80, score-good iff 60 ≤ score < 80, and score-poor iff score < 60. The emoji follows the class. |
| ScoreTiers.LevelNamesDistinct | scripts/utils.py:161-200 | Two tiers have the same level name iff they are the same tier. |
| ScoreTiers.GetFinalRecommendation | scripts/utils.py:411-440 | The recommendation is the one for the score's tier. |
| ScoreTiers.RecommendationFollowsLevel | scripts/utils.py:411-440 | Two scores with the same displayed level get the same recommendation. |
| JsonModel.PyContains | scripts/utils.py:226-228 | `key in x` on an object tests the keys. It raises exactly when x is not an object, list or string. |
| JsonModel.PyGetItem | scripts/utils.py:232-268 | `x[key]` succeeds iff x is an object holding the key, and then gives that key's value. |
| JsonModel.Lookup | scripts/utils.py:232-268 | The value found belongs to a member with that key. |
| JsonModel.NumericValue | scripts/utils.py:258 | A boolean counts as 1 or 0 and an integer as itself. |
| JsonModel.Display | scripts/utils.py:306-352 | `str()` of a string is the string, of a non-negative integer its decimal digits, and of a boolean True or False. |
| JsonModel.StrRepr | scripts/utils.py:321-352 | `repr()` of a string is quoted with the same character at both ends. |
| ResponseCheck.StripCodeFence | scripts/utils.py:214-219 | The result is stripped. |
| ResponseCheck.FencedBodyRecovered | scripts/utils.py:214-219 | A body wrapped in "```json" and "```" comes back trimmed. |
| ResponseCheck.UnfencedTextOnlyTrimmed | scripts/utils.py:214-219 | Unfenced text is only trimmed. |
| ResponseCheck.BareFenceKept | scripts/utils.py:214-219 | A fence that does not start with "```json" is not removed at the start. |
| ResponseCheck.ValidateParsed | scripts/utils.py:224-273 | On success the data is the parsed value, unchanged. |
| ResponseCheck.ValidateParsedCorrect | scripts/utils.py:224-273 | The parsed value passes iff it has the 7 keys, the 3 section objects with their sub-keys, the 4 scores numeric in [0,100] and the 7 arrays as lists. Success returns that value. |
| ResponseCheck.KeysErrorIff | scripts/utils.py:226-228 | The key check passes iff all 7 required keys are present. |
| ResponseCheck.KeysPresentIff | scripts/utils.py:226-228 | The first-missing-key search finds nothing iff every key of the list is present. |
| ResponseCheck.FirstAbsentKeyIff | scripts/utils.py:226-228 | The search reports key k iff k is the first key whose `in` test is false, all earlier tests being true. |
| ResponseCheck.MissingKeyIsFirst | scripts/utils.py:226-228 | The response is rejected for missing key k iff k is the first required key absent. |
| ResponseCheck.SubKeysPresentIff | scripts/utils.py:236-247 | A section passes its sub-key check iff all its sub-keys are present. |
| ResponseCheck.SectionIff | scripts/utils.py:231-247 | A section check passes iff the section is an object holding all its sub-keys. |
| ResponseCheck.SectionsIff | scripts/utils.py:231-247 | The section checks pass iff every listed section is such an object. |
| ResponseCheck.ScoresIff | scripts/utils.py:251-259 | The score checks pass iff every score field is present and numeric in [0,100]. |
| ResponseCheck.ArraysIff | scripts/utils.py:263-271 | The array checks pass iff every array field is present and a list. |
| ResponseCheck.NonObjectRejected | scripts/utils.py:224-278 | A parsed value that is not an object is always rejected. |
| ResponseCheck.MissingSubKeyShape | scripts/utils.py:236-247 | A failing sub-key search reports a missing sub-key. |
| ResponseCheck.SectionNoMissingKey | scripts/utils.py:231-247 | A section check never reports a missing top-level key. |
| ResponseCheck.SectionsNoMissingKey | scripts/utils.py:231-247 | The section checks never report a missing top-level key. |
| ResponseCheck.ScoresNoMissingKey | scripts/utils.py:251-259 | The score checks never report a missing top-level key. |
| ResponseCheck.ArraysNoMissingKey | scripts/utils.py:263-271 | The array checks never report a missing top-level key. |
| ResponseCheck.ScalarDocumentRejected | scripts/utils.py:226-278 | A bare integer is rejected with Python's "not iterable" TypeError message. |
| ResponseCheck.KeyNameListRejected | scripts/utils.py:226-278 | A list of the 7 key names passes the `in` tests and is then rejected with the list-index TypeError message. |
| ResponseCheck.AllContainedPass | scripts/utils.py:226-228 | When every `in` test is true, no key failure is reported. |
| ResponseCheck.BooleanScoreAccepted | scripts/utils.py:258 | A boolean score passes the numeric range check, and a string does not. |
| ResponseCheck.FirstBadScoreReported | scripts/utils.py:251-259 | When the earlier checks pass, the first score field out of range is the one reported. |
| ResponseCheck.FirstFailingField | scripts/utils.py:251-259 | The score check reports the first failing field of its list. |
| ResponseCheck.FirstNonListReported | scripts/utils.py:262-271 | When the earlier checks pass, the first array field that is not a list is the one reported, under its dotted name. |
| ResponseCheck.FirstNonListField | scripts/utils.py:263-271 | The array check reports the first field of its list that is not a list. |
| ResponseCheck.FirstBadSectionDecides | scripts/utils.py:231-238 | When the key test passes, the first of clarity and structure that fails its check decides the error. |
| ResponseCheck.NonObjectSectionReported | scripts/utils.py:231-233 | The first section that is present but not a dict is reported as not an object, by name. |
| ResponseCheck.MissingSubKeyReported | scripts/utils.py:231-238 | In the first deficient section, the first sub-key missing is reported with the section name. |
| ResponseCheck.MissingKeywordsKeyReported | scripts/utils.py:240-247 | Once both sections pass, the first sub-key missing from keywords is reported. |
| ResponseCheck.FirstMissingSubKeyAt | scripts/utils.py:236-238 | The sub-key search reports the first sub-key, in list order, that the dict lacks. |
| ResponseCheck.ValidateAnalysisResponse | scripts/utils.py:202-278 | The returned triple is that of the response validation. It is valid iff data is returned. When valid, the message is empty and the data is well formed. |
| ResponseCheck.CleanFence | scripts/utils.py:214-219 | The reassignment steps give the fence-stripped text. |
| ResponseCheck.FirstErrorLoop | scripts/utils.py:224-271 | The sequence of early-return checks gives the first schema error. |
| ResponseCheck.CheckKeysLoop | scripts/utils.py:226-228 | The loop over the required keys gives the key check's result. |
| ResponseCheck.CheckSectionLoop | scripts/utils.py:231-247 | The loop over a section's sub-keys gives the section check's result. |
| ResponseCheck.CheckScoresLoop | scripts/utils.py:251-259 | The loop over the score fields gives the score check's result. |
| ResponseCheck.CheckArraysLoop | scripts/utils.py:263-271 | The loop over the array fields gives the array check's result. |
| ContentStats.ContentStatistics | scripts/utils.py:442-467 | The empty text has no statistics. Otherwise: characters is the length; characters without spaces is the length minus the spaces; words is the count of `split()` pieces, at most the non-whitespace characters. Sentences and paragraphs are the counts of non-blank pieces of the two splits, and sentences are at most the terminators plus one. Reading time is `max(1, words // 200)`. |
| ContentStats.Words | scripts/utils.py:455 | Every piece is a non-empty run of non-whitespace. |
| ContentStats.WordsAreTheSolidText | scripts/utils.py:455 | Concatenated, the words are exactly the non-whitespace characters in order. |
| ContentStats.WordCountBound | scripts/utils.py:455 | There are no more words than non-whitespace characters. |
| ContentStats.WordsOfJoin | scripts/utils.py:455 | Splitting words joined with single spaces gives them back. |
| ContentStats.WordsAndSpaceFillText | scripts/utils.py:455 | The word characters and the whitespace add up to the whole text. |
| ContentStats.SentencePieces | scripts/utils.py:456 | There is at least one piece and no piece holds a terminator. |
| ContentStats.SentencePiecesCoverText | scripts/utils.py:456 | Concatenated, the pieces are the text without its terminators. There are at most as many pieces as terminators plus one. |
| ContentStats.ParagraphPieces | scripts/utils.py:457 | There is at least one piece, no piece holds a blank line, and the text starts with the first piece. |
| ContentStats.JoinParagraphPieces | scripts/utils.py:457 | Joining the pieces with "\n\n" gives the text back. |
| ContentStats.SpacesRemovedCount | scripts/utils.py:461 | Removing spaces shortens the text by the number of spaces. |
| ContentStats.CountWhere | scripts/utils.py:463-464 | The result is the number of positions whose element passes the filter, as the length of the list comprehension is; the statistics use it with `NonBlank` (`p.strip()` is truthy). It is at most the number of elements. |
| ContentStats.ReadingTime | scripts/utils.py:466 | At least one minute. From 200 words up, it is the whole number of 200-word minutes. Under 400 words, it is one minute. |
| Reports.AnalysisOf | scripts/utils.py:306-360 | A validated analysis has its four scores numeric and in [0,100]. |
| Reports.LevelIsFormatted | scripts/utils.py:306-332 | The level printed in the report is the one `format_score_display` gives. |
| Reports.RecommendationIsFinal | scripts/utils.py:360 | The recommendation printed is the one `get_final_recommendation` gives. |
| Reports.FileLabel | scripts/utils.py:301 | An empty filename is shown as "Não especificado", any other as itself. |
| Reports.Texts | scripts/utils.py:321-352 | Each item is shown as its `str()`, one line per item. |
| Reports.FillOf | scripts/utils.py:292-360 | The report values are the analysis values as text: the file label; the overall score, its level and the summary. For each section: the score, level, feedback and every suggestion. Also every strength, improvement and present or missing keyword, and the final recommendation for the overall score. |
| Reports.BulletListOrShows | scripts/utils.py:321-342 | An empty list shows the fallback line. Otherwise every item appears after the bullet. |
| Reports.BulletListHasLine | scripts/utils.py:321-342 | Every item appears after its prefix. |
| Reports.DetailedTextNamesFile | scripts/utils.py:301 | The detailed text shows the file heading followed by the file label. |
| Reports.DetailedTextLists | scripts/utils.py:344-352 | The detailed text shows every strength after "✅ " and every improvement after "🔧 ". |
| Reports.DetailedTextKeywords | scripts/utils.py:335-339 | The detailed text shows every present and missing keyword, or the placeholder line when a list is empty. |
| Reports.DetailedTextRecommends | scripts/utils.py:355-382 | The detailed text shows the recommendation. |
| Reports.DetailedTextSuggestions | scripts/utils.py:320-342 | The detailed text shows every clarity, structure and keywords suggestion after the bullet. |
| Reports.DetailedReportNamesFile | scripts/utils.py:292-301 | The detailed report has the line "Arquivo: " with the label; "Não especificado" when no name is given. |
| Reports.DetailedReportListsStrengthsAndImprovements | scripts/utils.py:344-352 | Every strength of the analysis appears after "✅ " and every improvement after "🔧 ". |
| Reports.DetailedReportListsSuggestions | scripts/utils.py:320-342 | Every clarity, structure and keywords suggestion of the analysis appears after "   • ". |
| Reports.DetailedReportKeywords | scripts/utils.py:335-339 | Every present and every missing keyword appears after the bullet. An empty list prints its placeholder line instead. |
| Reports.DetailedReportRecommends | scripts/utils.py:358-360 | The detailed report contains the final recommendation for the overall score. |
| Reports.SummaryTextShows | scripts/utils.py:384-409 | The summary text shows the file label, the first 5 improvements and the first 3 strengths. |
| Reports.SummaryReportShows | scripts/utils.py:384-409 | The summary report of an analysis names the file and lists its first 5 improvements and first 3 strengths. |
| Reports.SummaryIgnoresLaterItems | scripts/utils.py:393-405 | Two analyses that agree on the four scores, the first 5 improvements and the first 3 strengths give the same summary report, whatever their feedback, suggestions, keywords and summary. |
| Reports.TakeOfTexts | scripts/utils.py:402-405 | Lists with the same first n items show the same first n lines. |
| AppFlow.GetScoreColor | scripts/app.py:211-218 | 🟢 iff score ≥ 80, 🟡 iff 60 ≤ score < 80, 🔴 iff score < 60. |
| AppFlow.GetScoreClass | scripts/app.py:220-227 | Each class holds iff the colour of the same band does. The class agrees with `format_score_display`. |
| AppFlow.GetScoreLevel | scripts/app.py:229-240 | The level is the one of the score's tier. Excelente or Muito Bom iff score-excellent; Bom or Regular iff score-good; Precisa Melhorar iff score-poor. |
| AppFlow.AnalyzeCv | scripts/app.py:115-209 | The method's result (analysis and error messages) is the outcome function of configuration, reply and decoding. The required-key loop keeps the first failure. |
| AppFlow.NoKeyFailureIff | scripts/app.py:195-199 | No key failure iff every `in` test is true. |
| AppFlow.AnalyzeAcceptsIff | scripts/app.py:117-209 | An analysis comes back iff the service is configured, answered, the fence-stripped reply decodes, and every required key passes `in`. When it does, it is the decoded value. Otherwise, when configured, an error is reported. |
| AppFlow.MissingKeyNamed | scripts/app.py:195-199 | For an object, the single error names key k iff k is the first required key absent. |
| AppFlow.ObjectKeyTestsNeverRaise | scripts/app.py:195-199 | The key tests on an object never raise. |
| AppFlow.MissingKeyTextInjective | scripts/app.py:197-199 | Different missing keys give different error texts. |
| AppFlow.CheckedResponseAccepted | scripts/app.py:181-199 | A reply that `validate_analysis_response` accepts is accepted by the app with the same data. |
| AppFlow.KeyNameListAccepted | scripts/app.py:195-199 | A list of the 7 key names is accepted by the app and rejected by `validate_analysis_response`. |
| AppFlow.AfterAnalysis | scripts/app.py:393-411 | Success is reported iff an analysis came back and it is truthy. |
| AppFlow.AcceptedAnalysisSucceeds | scripts/app.py:393-411 | Every analysis that passes the key checks is truthy, so success is reported iff an analysis came back. |
| AppFlow.Truncated | scripts/app.py:324 | Text within the limit is kept. Longer text becomes its first `limit` characters followed by "...". |
| AppFlow.TruncatedIdempotent | scripts/app.py:354 | Truncating twice is the same as once. |
| AppFlow.EstimatedSeconds | scripts/app.py:349 | At least 10 seconds, exactly 10 for under 1100 words, otherwise the whole hundreds of words. |
| AppFlow.UploadScreenOf | scripts/app.py:315-421 | An oversized file is refused. Otherwise the name is truncated at 20 and the format is PDF iff the type is application/pdf. Analysis is offered iff the content is non-empty with more than 50 trimmed characters. It then shows the word and character counts, the estimated time and the preview truncated at 1500. Non-empty content otherwise gets the too-short warning, empty content the extraction error. |
| AppFlow.GatePassesContentMinimum | scripts/app.py:338 | Content the app lets through is never empty or too short for `validate_content`. |
| AppFlow.FiftyCharactersRefused | scripts/app.py:338 | Fifty letters pass `validate_content` but get the app's too-short warning. |
| AppFlow.ContextBanner | scripts/app.py:444-449 | Success, info and warning banners follow the excellent, good and poor classes. |
| AppFlow.ClosingRemark | scripts/app.py:636-640 | The closing remark has three bands that follow the excellent, good and poor classes. |
| AppFlow.InAppFill | scripts/app.py:575-640 | The in-app report shows: the file name as given; the overall score, summary and section scores as text; levels from `get_score_level`; each section's feedback and every suggestion; every list item as text; the closing remark for the overall score. |
| AppFlow.InAppFillMatchesDownload | scripts/app.py:575-640 | The in-app values equal the downloadable report's except for the file label and the closing text. |
| AppFlow.InAppReportNamesFile | scripts/app.py:581 | The in-app report has the line "Arquivo Analisado: " with the file name. |
| AppFlow.InAppReportLists | scripts/app.py:620-628 | Every strength and every improvement appears in the in-app report. |
| AppFlow.InAppReportSuggestions | scripts/app.py:598-618 | Every clarity, structure and keywords suggestion appears in the in-app report after "   • ". |
| AppFlow.InAppReportKeywords | scripts/app.py:611-615 | Every present and missing keyword appears in the in-app report, or its placeholder. |
| AppFlow.InAppReportCloses | scripts/app.py:636-640 | The in-app report contains the closing remark for the overall score. |
| AppFlow.InAppSummaryShows | scripts/app.py:679-695 | The in-app summary names the file and lists the first 3 improvements. |
| AppFlow.InAppSummaryDependsOn | scripts/app.py:679-695 | Two analyses that agree on the four scores and the first 3 improvements give the same in-app summary. |

## Left out

- PDF text extraction (scripts/utils.py:13-60, scripts/app.py:97-113) calls PyPDF2 and Streamlit widgets, which are foreign libraries. The extracted text is an input.
- `json.loads` is a decoding function passed as a parameter. It yields a JSON value or an error message. No JSON parser is modelled.
- The Gemini client (`setup_gemini`, `generate_content`) is network code. Its outcome is the `Reply` parameter, either an answer text or an exception message. Whether a client is configured is a boolean parameter.
- The prompt sent to the model is left out. Only the external service reads it.
- Streamlit rendering is left out: widgets, CSS, the metric cards' HTML, progress bars, balloons and session state. The screen is modelled only as the notices and values it shows.
- Floating-point outputs are left out: `avg_words_per_sentence`, the `score / 100` progress value and the file size in KB.
- AppFlow.UploadScreenOf: the word and character counts are the numbers, not the text with `:,` thousands separators.
- The current time is a timestamp parameter of the report functions.
- The rate-limit value and the other constants in scripts/config.py are used only as the Dafny constants they define.
- Decoding the text file as UTF-8 is left out. The content is already a string.
- The exception handler around the analysis button (scripts/app.py:413-416) and its message are left out.
- The default filename 'currículo' for a missing session entry is left out. The filename is always given.
- Floats in JSON carry their own `repr` text from the decoder, because Python's shortest float repr is not modelled. NaN and infinities are not representable.
- JsonModel.StrRepr: above U+00FF, `repr()` escapes only U+1680, U+2000-U+200F, U+2028-U+202F, U+205F-U+2064, U+3000 and U+FEFF. Other non-printable characters there stay unescaped, because CPython's full printable table is not modelled.
- InputChecks.IsWordChar: `\w` is modelled for ASCII, Latin-1 and Latin Extended-A and -B (up to U+024F) only. Other scripts' letters count as non-word characters.
- JSON objects are member lists with distinct keys, as `json.loads` builds a dict. Lookup takes the first match.
- InputChecks.MegabytesText: assumes the two float divisions are exact, which holds for any realistic file size.
- Reports.AnalysisOf: requires a value that passes the schema check. `generate_report_text` also accepts other dicts with scores out of [0,100], or a string where a list belongs, and iterates such a string character by character. The model's analysis fields are lists, so those inputs are outside the model. The in-app reports of scripts/app.py can receive such values, because `analyze_cv` tests only the seven keys.
- Reports.FillOf, Reports.SummaryReport: require all four scores to be numbers (HasNumericScores). Python fails on a non-numeric score only where it compares that score with the tier bounds. The summary branch formats only the overall score's level (scripts/utils.py:394). It prints the section scores whatever they are, so non-numeric section scores are outside the summary model.
- The TypeScript front end (app/page.tsx) and API route (app/api/analyze-cv/route.ts) are a React component and a network client. Their score bands repeat the ones modelled from scripts/app.py.
