# CodeTestGuard analysis core in Dafny

CodeTestGuard checks whether the test cases of a Java project cover the methods
changed between two versions of its sources. The backend takes three inputs:

- a JSON document of current and historical file contents;
- a CSV "mapping" from fully qualified method names to functional descriptions;
- a CSV or Excel sheet of test cases.

From these it:

- extracts the changed methods with a Java parser;
- matches each method's description against the test cases' function texts;
- scores the test suite on four weighted dimensions (coverage, completeness,
  clarity, boundary cases) and grades it A to F;
- optionally asks the DeepSeek chat API for suggestions and records the cost.

This project models that analysis core: the services `coverage_analyzer`,
`scoring_model`, `diff_analyzer`, `ast_parser`, `file_parser` and
`deepseek_client`, and the helpers of the HTTP layer in `api/index.py`.

Modules (one file each):

| module | file | models |
|---|---|---|
| `Results`, `Rows`, `JsonData` | `results.dfy`, `rows.dfy`, `json_data.dfy` | `Option`/`Result`, a parsed CSV row (`map<string,string>`), JSON values |
| `Text` | `text.dfy` | Python's `strip`, `rstrip`, `lower`, `split`, `join` and `in`, on ASCII |
| `Seqs` | `seqs.dfy` | filter-map (`Select`), `MapSeq`, sums, counts, subsequences, concatenation of blocks |
| `Coverage` | `coverage.dfy` | `coverage_analyzer.py` |
| `Scoring` | `scoring.dfy` | `scoring_model.py` |
| `Diff` | `diff.dfy` | `diff_analyzer.py` |
| `JavaMethods` | `java_methods.dfy` | `ast_parser.py` |
| `Upload` | `upload.dfy` | `file_parser.py` |
| `AiClient` | `ai_client.dfy` | `deepseek_client.py` |
| `Api` | `api.dfy` | the helpers and decision logic of `api/index.py` |

Each loop in the source is a `method` with a loop and invariants: a
`for` loop where the source walks a whole list, a `while` loop with an
early `return` where it stops at the first hit (`Diff.FindPackagePath`
and `Diff.ScanLines` for the line scan of `extract_package_path`). Its
`ensures` ties the result to a specification function (for that scan the
recursive `Diff.FirstPath`), and the properties are proved as lemmas about
that function. Code that only builds a value is a function.

The libraries the source calls are parameters of the model, so every
property holds for any behaviour of them:

- `parse` stands for javalang;
- `unifiedDiff` stands for `difflib.unified_diff` on split lines;
- `loads` stands for `json.loads`;
- `decode` stands for `bytes.decode`;
- `readRows` stands for `csv.DictReader`;
- `load` stands for `openpyxl.load_workbook`;
- `respond` stands for one chat-completion request;
- `formatSize` stands for the `{size_mb:.1f}` formatting and `formatLimit`
  for the plain `{max_size_mb}` interpolation (`str` of a float, "10.0" for
  the default limit).

Python floats are modelled as reals. Each `round(...)` is kept as the exact
value it rounds.

Three behaviours of the code are followed as written, where the comments
or docstrings say something else:

- `_fuzzy_match` (`api/services/coverage_analyzer.py:204-205`) needs
  `max(1, n // 2)` keyword hits, although the comment says "at least
  half". For an odd count `n // 2` rounds down, so fewer than half is
  enough: 1 hit of 3, 2 of 5. For an even count the two agree. With one to
  three keywords a single hit is enough; `Coverage.FewKeywords` states the
  rule as coded.
- `extract_changed_methods` (`api/services/ast_parser.py:165-194`) compares
  signatures only. A method whose body changed but whose signature did not
  is not reported, although the docstring speaks of new or modified
  methods. `JavaMethods.ChangedExact` states the rule as coded.
- The final fallback error of `call_deepseek`
  (`api/services/deepseek_client.py:173`) cannot be reached: every pass of
  the loop returns or retries, and the last pass always returns.
  `AiClient.CallBounds` proves this.

## Model

| member | source | states |
|---|---|---|
| Text.Strip | api/services/coverage_analyzer.py:57-60 | the stripped text is a contiguous slice of the input, neither of its ends is whitespace |
| Text.StripDropsOnlySpace | api/services/coverage_analyzer.py:57-60 | every character before and after the stripped slice is whitespace, so only whitespace is dropped and the slice is the largest with non-space ends |
| Text.StripEmptyIffBlank | api/services/ast_parser.py:65-66 | `strip()` yields the empty string exactly when the text is all whitespace |
| Text.RStrip | api/services/diff_analyzer.py:203 | `rstrip()` keeps a prefix, drops only whitespace and leaves no trailing whitespace |
| Text.RStripChar | api/services/diff_analyzer.py:85 | `rstrip(";")` keeps a prefix and removes only trailing semicolons |
| Text.LowerIdempotent | api/services/file_parser.py:146 | lower-casing twice is lower-casing once |
| Text.ContainsAt | api/services/coverage_analyzer.py:157-158 | Python's `in` on strings holds exactly when the needle occurs at some offset |
| Text.SplitOn | api/services/diff_analyzer.py:81 | `split` yields at least one piece and no piece contains a separator |
| Text.JoinSplit | api/services/diff_analyzer.py:81 | joining the pieces of `split("\n")` with `"\n"` gives back the text |
| Text.JoinInjective | api/services/ast_parser.py:184 | `",".join` of non-empty, comma-free parts determines the parts |
| Text.WordsEmptyIff | api/services/coverage_analyzer.py:199-201 | the keyword split is empty exactly when the description is made only of separators |
| Text.DecimalRoundTrip | api/services/file_parser.py:87 | the decimal rendering of a column index reads back as that index |
| Text.DottedNameInjective | api/services/coverage_analyzer.py:19-21 | `package.class.method` determines its three parts when class and method contain no dot |
| Coverage.ParseMappingData | api/services/coverage_analyzer.py:44-70 | the loop returns the specification list of mapping entries |
| Coverage.MappingEntriesExact | api/services/coverage_analyzer.py:54-70 | an entry is produced exactly when some row with non-blank package, class and method yields it |
| Coverage.MappingEntriesAll | api/services/coverage_analyzer.py:54-70 | when every row qualifies, there is one entry per row, in row order |
| Coverage.MappingEntriesStripped | api/services/coverage_analyzer.py:57-62 | every entry has stripped fields, with package, class and method non-empty |
| Coverage.KeptRowWellFormed | api/services/coverage_analyzer.py:57-62 | a kept row yields a stripped entry |
| Coverage.ParseTestCases | api/services/coverage_analyzer.py:73-98 | the loop returns the specification list of test cases |
| Coverage.TestCasesExact | api/services/coverage_analyzer.py:83-98 | a test case is produced exactly when some row with a non-blank id and function text yields it |
| Coverage.TestCasesNamed | api/services/coverage_analyzer.py:85-90 | every test case has a non-empty id and function text |
| Coverage.TestCasesEmptyIff | api/services/coverage_analyzer.py:83-98 | no test case is produced exactly when no row qualifies |
| Coverage.HitCount | api/services/coverage_analyzer.py:204 | the hit count never exceeds the number of keywords |
| Coverage.FuzzyMatchBounds | api/services/coverage_analyzer.py:187-205 | an all-separator description never matches; one whose every keyword occurs always matches |
| Coverage.AllHit | api/services/coverage_analyzer.py:204 | when every keyword occurs, every keyword is counted |
| Coverage.FewKeywords | api/services/coverage_analyzer.py:204-205 | with 1 to 3 keywords, one hit is enough and is needed |
| Coverage.HitCountPositive | api/services/coverage_analyzer.py:204 | the hit count is positive exactly when some keyword occurs |
| Coverage.MappingIndexLastWins | api/services/coverage_analyzer.py:123-127 | a name is indexed exactly when some entry has it, and maps to the description of the last such entry |
| Coverage.BuildMappingIndex | api/services/coverage_analyzer.py:124-127 | the loop builds the specification index |
| Coverage.MatchTests | api/services/coverage_analyzer.py:149-161 | the loop returns the ids of the matching tests in order, and reports covered exactly when that list is non-empty |
| Coverage.MatchedIdsExact | api/services/coverage_analyzer.py:152-161 | an id is listed exactly when some test with that id matches; the list is empty exactly when no test matches |
| Coverage.CoveredIff | api/services/coverage_analyzer.py:146-171 | a method is covered exactly when it has a description and some test's function text matches it; without a description it is uncovered and marked unmapped |
| Coverage.DescribeMethod | api/services/coverage_analyzer.py:139-173 | one pass of the loop body builds the specification detail row of a method |
| Coverage.Details | api/services/coverage_analyzer.py:139-173 | one detail row per changed method |
| Coverage.AnalyzeCoverage | api/services/coverage_analyzer.py:101-184 | the analysis returns the specification coverage result |
| Coverage.NoChangesIsError | api/services/coverage_analyzer.py:120-121 | no changed methods gives the "no changes" error with empty lists and a zero total |
| Coverage.CoverageCounts | api/services/coverage_analyzer.py:135-181 | with changes, there is no error, one detail per method, and the covered and uncovered lists together are a permutation of the changed names |
| Coverage.DetailsByName | api/services/coverage_analyzer.py:139-173 | rows with the same method name get the same verdict |
| Coverage.VerdictByName | api/services/coverage_analyzer.py:163-166 | when names determine verdicts, a row is covered exactly when its name is in the covered list, and uncovered exactly when it is in the uncovered list |
| Coverage.CoverageDetailsAgree | api/services/coverage_analyzer.py:163-173 | the i-th detail names the i-th method, and its verdict agrees with the covered and uncovered lists |
| Coverage.CoverageDisjoint | api/services/coverage_analyzer.py:163-166 | no name is both covered and uncovered |
| Coverage.FractionBounds | api/services/coverage_analyzer.py:176 | a ratio of counts lies in [0, 1] and is 1 exactly when the counts are equal |
| Coverage.CoverageRateBounds | api/services/coverage_analyzer.py:175-182 | the coverage rate is in [0, 1], and with changes it is 1 exactly when nothing is uncovered |
| Scoring.WeightsSumToOne | api/services/scoring_model.py:16-21 | the four dimension weights sum to 1 |
| Scoring.ScoreCoverage | api/services/scoring_model.py:44-73 | the score is in [0, 100], is 100 exactly when every changed method is covered, and is otherwise the covered share times 100 |
| Scoring.CountSteps | api/services/scoring_model.py:313-331 | the step counter returns the specification count |
| Scoring.StepCountPositiveIff | api/services/scoring_model.py:313-331 | at least one step is counted exactly when the text has a non-blank character |
| Scoring.NumberedHasContent | api/services/scoring_model.py:318-324 | a numbered step marker is only found in text with content |
| Scoring.StepMarkHasContent | api/services/scoring_model.py:319-324 | a `步骤N` marker is only found in text with content |
| Scoring.PiecesHaveContent | api/services/scoring_model.py:326-329 | the line/semicolon split has a non-blank piece exactly when the text has content |
| Scoring.CaseCompletenessRange | api/services/scoring_model.py:101-123 | a case scores 0 exactly when it has no steps, at least 30 when it has steps, and 100 exactly when it has 3 or more steps and an action word |
| Scoring.ScoreCompleteness | api/services/scoring_model.py:76-134 | the loop returns the specification completeness dimension |
| Scoring.AverageBound | api/services/scoring_model.py:125 | the average of per-case scores of at most 100 is in [0, 100] |
| Scoring.CompletenessBounds | api/services/scoring_model.py:91-134 | completeness is in [0, 100], carries its weight, and is 0 with a note when there are no cases |
| Scoring.CaseClarityRange | api/services/scoring_model.py:161-183 | a case scores 0 exactly when it has no expected result, at least 40 when it has one, and 100 exactly when it has 2 or more verification words and 10 or more characters |
| Scoring.ScoreClarity | api/services/scoring_model.py:137-194 | the loop returns the specification clarity dimension |
| Scoring.ClarityBounds | api/services/scoring_model.py:151-194 | clarity is in [0, 100], carries its weight, and is 0 with a note when there are no cases |
| Scoring.ScoreBoundary | api/services/scoring_model.py:197-273 | the counting loop returns the specification boundary dimension |
| Scoring.ShareBonusZeroIff | api/services/scoring_model.py:241-248 | the share bonus is 0 exactly when no case mentions a boundary keyword |
| Scoring.BoundaryBounds | api/services/scoring_model.py:213-273 | with cases, the boundary score is the share bonus plus the per-method bonus, within [10, 100]; without cases it is 0 with a note |
| Scoring.BonusBounds | api/services/scoring_model.py:237-262 | the share bonus is at most 50 and the per-method bonus is within [10, 50] |
| Scoring.Grade | api/services/scoring_model.py:334-345 | the grade is one of A, B, C, D, F |
| Scoring.GradeBands | api/services/scoring_model.py:334-345 | each grade is given exactly on its score band (90, 80, 60, 40) |
| Scoring.GradeMonotone | api/services/scoring_model.py:334-345 | a higher score never gets a worse grade |
| Scoring.Summary | api/services/scoring_model.py:348-357 | exactly the five grades have a non-empty summary |
| Scoring.SummaryInjective | api/services/scoring_model.py:350-356 | different grades have different summaries |
| Scoring.CalculateScore | api/services/scoring_model.py:276-310 | the scoring returns the specification result |
| Scoring.ScoreShape | api/services/scoring_model.py:292-310 | four dimensions in a fixed order whose weights sum to 1; the total is the sum of the weighted scores, within [0, 100]; grade and summary follow from the total |
| Scoring.NothingScoresZero | api/services/scoring_model.py:276-310 | changes with nothing covered and no cases score 0 and grade F |
| Diff.ParseCodeChanges | api/services/diff_analyzer.py:50-68 | each error (not an object, missing fields, not arrays) is reported exactly on its inputs; otherwise the current and history arrays are returned as given |
| Diff.DataTakesPrecedence | api/services/diff_analyzer.py:53-57 | a `data` field decides the result alone |
| Diff.ParseCodeChangesText | api/services/diff_analyzer.py:45-48 | undecodable JSON gives the decode error with the library message; decoded JSON is parsed as above |
| Diff.FindPackagePath | api/services/diff_analyzer.py:71-88 | the line scan returns the path of the first line that declares one, or "unknown" |
| Diff.FirstPathIsFirst | api/services/diff_analyzer.py:81-88 | the package path comes from the first line that declares one; there is none exactly when no line declares one |
| Diff.PackagePathUnknown | api/services/diff_analyzer.py:81-88 | without a package line the path is "unknown" |
| Diff.PackagePathNonEmpty | api/services/diff_analyzer.py:71-88 | the package path is never empty |
| Diff.Classify | api/services/diff_analyzer.py:120-128 | the loop sorts the diff lines into the specification added, removed and changed lists |
| Diff.ChangedCount | api/services/diff_analyzer.py:120-128 | the changed list holds the hunk headers, the added lines and the removed lines |
| Diff.AddedRemovedExact | api/services/diff_analyzer.py:123-128 | a text is added or removed exactly when some non-header `+` or `-` line carries it after its sign |
| Diff.ComputeDiff | api/services/diff_analyzer.py:91-135 | the per-file diff is the specification diff of the two texts |
| Diff.AnalyzeCodeChanges | api/services/diff_analyzer.py:138-175 | invalid input gives an empty analysis with its error; a library fault propagates; otherwise the pairs are diffed |
| Diff.DiffList | api/services/diff_analyzer.py:160-169 | a complete list of per-file diffs has one entry per pair |
| Diff.DiffListAt | api/services/diff_analyzer.py:161-169 | diffing fails exactly when some pair is not a pair of strings; otherwise entry i is the diff of pair i |
| Diff.PairsAnalysisShape | api/services/diff_analyzer.py:156-175 | the analysis lists one diff per pair and its totals are the sums of added and removed lines |
| Diff.DiffPairs | api/services/diff_analyzer.py:156-175 | the pair loop returns the specification analysis |
| Diff.ItemLines | api/services/diff_analyzer.py:202-203 | at most 10 item lines are shown |
| Diff.BlockShape | api/services/diff_analyzer.py:200-212 | a block is empty exactly when there are no items; otherwise it is a title, the first 10 items with their sign, and a "more" line exactly when items were cut |
| Diff.BlockLines | api/services/diff_analyzer.py:200-212 | the loop returns the specification block |
| Diff.SectionLines | api/services/diff_analyzer.py:197-214 | the loop returns the specification section of one file |
| Diff.AllSections | api/services/diff_analyzer.py:196-214 | the loop returns the sections of all files in order |
| Diff.FormatDiffSummary | api/services/diff_analyzer.py:178-216 | an analysis with an error formats as the error line; otherwise the summary lines are joined with newlines |
| JavaMethods.QualifiedNameDetermines | api/services/ast_parser.py:26-29 | two methods have the same qualified name exactly when package, class and method name agree |
| JavaMethods.ClassQualifiedName | api/services/ast_parser.py:39-42 | a class's qualified name is its package, a dot, and its name |
| JavaMethods.ParseJavaCode | api/services/ast_parser.py:52-145 | the parser returns the specification parse result |
| JavaMethods.CollectMethods | api/services/ast_parser.py:91-136 | the member loop returns the specification method list |
| JavaMethods.EmptySourceGuard | api/services/ast_parser.py:65-66 | only blank source gives the single "empty source" error |
| JavaMethods.ErrorsExcludeClasses | api/services/ast_parser.py:65-73 | there are no errors exactly when the source is non-blank and parses; an error result has no classes and one error |
| JavaMethods.TypeMethodsFromMembers | api/services/ast_parser.py:91-136 | a method is listed exactly when a method or constructor member yields it; all carry the type's package and class; constructors have no return type |
| JavaMethods.ClassesFromTypes | api/services/ast_parser.py:76-143 | every class carries the unit's package and the name of some declared type; there is one class per type exactly when every type is named |
| JavaMethods.ExtractMethodsFromCode | api/services/ast_parser.py:148-162 | the flattening returns the specification method list |
| JavaMethods.FlattenMembers | api/services/ast_parser.py:159-161 | a method is extracted exactly when some class holds it |
| JavaMethods.ExtractedMethodsShape | api/services/ast_parser.py:148-162 | a failed parse extracts nothing; otherwise every method carries the unit's package and the name of a declared type |
| JavaMethods.HistorySignatures | api/services/ast_parser.py:182-185 | the loop builds the set of history signatures |
| JavaMethods.ExtractChangedMethods | api/services/ast_parser.py:165-194 | the changed methods are the current methods with no matching history signature |
| JavaMethods.ChangedExact | api/services/ast_parser.py:187-192 | a method is reported exactly when it is current and no history method has its signature |
| JavaMethods.ChangedInOrder | api/services/ast_parser.py:188-192 | the reported methods are a subsequence of the current ones |
| JavaMethods.UnchangedReportsNothing | api/services/ast_parser.py:165-194 | comparing a version with itself reports nothing |
| JavaMethods.NoHistoryReportsAll | api/services/ast_parser.py:182-194 | with no history every current method is reported |
| JavaMethods.OverloadsDistinct | api/services/ast_parser.py:184 | overloads with different parameter lists have different signatures |
| Upload.DetectFileType | api/services/file_parser.py:136-154 | the type is csv, excel, json or unknown, decided by the lower-cased suffix with csv checked first |
| Upload.DetectIgnoresCase | api/services/file_parser.py:146 | detection ignores the case of the file name |
| Upload.ValidateFile | api/services/file_parser.py:157-182 | the file is accepted exactly when its type is known and allowed and its size is within the limit; otherwise the first failing check's message is returned |
| Upload.SizeLimit | api/services/file_parser.py:178-179 | the size in MB exceeds the limit exactly when the byte count exceeds the limit in bytes |
| Upload.SizeLimitInclusive | api/services/file_parser.py:178-182 | a file of exactly the limit is accepted and one byte more is rejected |
| Upload.FirstDecodingWins | api/services/file_parser.py:30-37 | decoding fails exactly when every encoding fails; otherwise the first encoding that succeeds decides |
| Upload.DecodeCsvBytes | api/services/file_parser.py:28-37 | the encoding loop returns the first successful decoding |
| Upload.ParseCsv | api/services/file_parser.py:15-48 | the parser returns the specification result |
| Upload.CsvOutcomes | api/services/file_parser.py:28-48 | encoding error exactly when all encodings fail; "empty" exactly on blank text; success exactly when rows are read, returning those rows |
| Upload.Headers | api/services/file_parser.py:87 | one header per cell, each the cell's text or a generated column name |
| Upload.GeneratedHeadersDistinct | api/services/file_parser.py:87 | generated column names of different columns differ |
| Upload.ParseExcel | api/services/file_parser.py:51-103 | the parser returns the specification result |
| Upload.BuildRowDict | api/services/file_parser.py:91-94 | the loop builds the specification row dictionary |
| Upload.RowDictKeys | api/services/file_parser.py:92-94 | a key is present exactly when a cell exists under that header |
| Upload.LastColumn | api/services/file_parser.py:92-94 | finds the last column, before the cell count, whose header is the key |
| Upload.RowDictLastWins | api/services/file_parser.py:92-94 | under a repeated header, the last cell's value wins |
| Upload.RowDictIgnoresExtraCells | api/services/file_parser.py:93 | cells beyond the headers are ignored |
| Upload.SheetRowsShape | api/services/file_parser.py:89-101 | every kept row has content, every row with content is kept, and the list is empty exactly when no row has content |
| Upload.ExcelRowsShape | api/services/file_parser.py:70-103 | a successful parse is non-empty and holds exactly the data rows with content; "no rows" exactly when an opened sheet has none |
| Upload.ParseJson | api/services/file_parser.py:106-133 | blank text is "empty"; success exactly when decoding and parsing succeed; a parse failure reports the library message |
| AiClient.BuildAnalysisMessages | api/services/deepseek_client.py:52-89 | a system message with the fixed prompt, then a user message |
| AiClient.UserPromptSections | api/services/deepseek_client.py:74-84 | the user message holds the diff, mapping and test sections in that order, each after its heading, and ends with the output instructions |
| AiClient.CalculateCost | api/services/deepseek_client.py:176-196 | non-negative input and output costs whose sum is the total; total tokens as reported |
| AiClient.CostFormula | api/services/deepseek_client.py:186-195 | the input cost is hits at 0.2 and misses at 2.0 per million tokens; the output cost is 3.0 per million |
| AiClient.EmptyUsageIsFree | api/services/deepseek_client.py:186-188 | missing usage fields count as zero and cost nothing |
| AiClient.CostAdditive | api/services/deepseek_client.py:186-189 | the cost of summed usage is the sum of the costs |
| AiClient.CallDeepseek | api/services/deepseek_client.py:92-173 | the retry loop returns the specification outcome and request count |
| AiClient.NoClientNoRequest | api/services/deepseek_client.py:108-110 | without a client the call fails with the configuration error and sends no request |
| AiClient.CallBounds | api/services/deepseek_client.py:112-173 | at most MAX_RETRIES + 1 requests are sent and the fallback error is never returned |
| AiClient.FirstAttemptDecides | api/services/deepseek_client.py:112-171 | a non-retryable first attempt decides the outcome after one request: each error kind gives its message; a reply gives the parsed JSON and its usage |
| AiClient.RetryOnce | api/services/deepseek_client.py:124-159 | a retryable first attempt is followed by exactly one more; if that also fails, its error is returned |
| Api.ParseCodeChangesData | api/index.py:288-294 | `data` is used when present, else the document itself if it has both fields, else empty lists |
| Api.CodeDataAgreesWithDiff | api/index.py:288-294 | on input the diff analyzer accepts, the route sees the same current and history arrays |
| Api.CollectChangedMethods | api/index.py:501-512 | the collection loop returns the specification list of changed methods |
| Api.ToChangedList | api/index.py:507-512 | each extracted method becomes its package, class and name, in order |
| Api.CollectedIgnoresExtraHistory | api/index.py:503-505 | history entries beyond the current ones do not matter |
| Api.CollectedMembers | api/index.py:501-512 | a method is collected exactly when it is a changed method of some file |
| Api.CollectedCount | api/index.py:501-512 | the collected count is the sum of the per-file changed counts |
| Api.FileChangesEdges | api/index.py:503-506 | an identical file reports nothing; a file without history is compared against the empty source, so a blank one reports nothing |
| Api.NewFileReportsAll | api/index.py:505-506 | every method of a file without history is reported |
| Api.GlobalMappingSource | api/index.py:151-173 | an uploaded mapping wins; otherwise the latest global mapping with data; otherwise the "no global mapping" error |
| Api.ProjectMappingSource | api/index.py:461-481 | an uploaded mapping wins; otherwise the project's mapping with data; otherwise the "no project mapping" error |
| Api.MappingSourcesAgree | api/index.py:461-481 | a stored mapping is used only when non-empty, and the two routes choose alike when the upload or the store decides |
| Api.UploadedMappingMustBeCsv | api/index.py:462-465 | an uploaded mapping file that is not CSV is rejected |
| Api.AiRecordOf | api/index.py:525-547 | without a cost the record has zero tokens and zero cost; with one, both come from the cost |
| Api.AiDefaults | api/index.py:525-547 | AI off records nothing; an AI error records the error at zero cost; a success records the computed cost and the total tokens |
| Api.CheckUpload | api/index.py:297-323 | a failed file validation is returned as the rejection; after it, the upload is valid exactly when the parser of its type (csv, excel or json) succeeds, and a parse failure is rejected with the parser's message; json reports 0 rows; csv and excel report the positive count of parsed rows |

## Left out

- Rounding: `round(x, 1)`, `round(x, 2)`, `round(x, 4)` and `round(x, 6)` in
  `coverage_analyzer.py`, `scoring_model.py` and `deepseek_client.py` are
  not modelled. Scores, rates and costs are the exact reals before rounding,
  and bounds such as [0, 100] hold for them. The grade is taken from the
  exact total, not from the rounded one.
- Scoring.CalculateScore: grades the exact weighted total. The source
  grades `round(min(100, max(0, Σ round(weighted, 2))), 1)`
  (`scoring_model.py:299-302`), so a total in [89.95, 90) is "A" in the
  source and "B" in the model; the same holds just below 80, 60 and 40.
- Floating point: Python floats are reals. Binary rounding errors are not
  modelled.
- Unicode: `strip`, `lower`, `isspace` and `\d` work on ASCII only. The
  ASCII whitespace set is Python's in full (space, `\t` to `\r` and `\x1c`
  to `\x1f`). Non-ASCII whitespace (such as U+0085, U+00A0 and U+3000),
  case mappings outside ASCII and non-ASCII digits are treated as ordinary
  characters.
- Libraries: javalang, difflib, `str.splitlines`, `json`, `csv.DictReader`,
  `codecs`, openpyxl and the OpenAI client are parameters. The model proves
  nothing about their behaviour.
- `ast_parser.py:62-63`, the branch taken when javalang is not installed, is
  left out. It depends on the environment.
- The openpyxl `ImportError` path in `file_parser.py` is left out; it also
  depends on the environment.
- `get_client` and the environment variables it reads
  (`deepseek_client.py:38-49`) become the `hasClient` flag.
- Request parameters are not modelled: model name, `max_tokens`,
  `temperature` and timeout.
- `test_keywords` (`coverage_analyzer.py:129-133`) is computed by the source
  and never used, so it is not modelled.
- CSV rows with missing cells (`None` values or short rows from
  `csv.DictReader`) are not modelled. A row is a map from string to string.
- Detail strings built with f-strings (reasons and descriptions in the
  scoring details) are abstracted as datatype values.
- The AI prompt text: the mapping and test-case lines the routes assemble
  (`api/index.py:215-222`, `530-537`) are not modelled.
  `AiClient.BuildAnalysisMessages` takes them as strings.
- Routes, HTTP status codes, database persistence, timing and logging in
  `api/index.py` are not modelled beyond the helpers and decisions listed
  above.
- Exceptions mapped to status codes (`api/index.py:279-285`) are modelled
  only as `Err` results.
- Api.CollectChangedMethods: the model takes the current and history lists
  as strings. In the source, a non-string entry makes the earlier
  `analyze_code_changes` call raise, and the route answers with a server
  error before it reaches the collection loop.
- The `gb2312` and `utf-8-sig` CSV encodings (`file_parser.py:30`) are
  modelled as further attempts of the decoder parameter. The model does not
  capture that, for real codecs, `utf-8` failing on input `utf-8-sig`
  would accept cannot happen.
- The `error` field of the score result in `scoring_model.py` is never set
  by `calculate_score` and is not modelled.
- `_get_summary` (`scoring_model.py:348-357`) takes a score it does not
  use, so `Scoring.Summary` takes only the grade.
