# Habitat commit scoring and task bookkeeping, modelled in Dafny

Habitat is a team tool that helps people pick commits from open-source repositories worth
turning into paid tasks. Its core has two parts. This project models both and proves what
their code promises.

**The commit pipeline.** It is written in Python and scores commits from `git show --numstat`
output.

- `fetch_commits.py` parses each changed-file line into a file record. It marks records as test
  or dependency files, analyses dependency and test changes, and detects behaviour-preserving
  refactors from the commit message. It computes the aggregates and complexity indicators
  stored with a commit. It gives every commit three scores: *habitate* (0-150), *difficulty*
  (0-100) and *suitability* (0-100).
- `ml_data_convertor.py` turns stored commits into 29-column CSV rows.
- `train_success_model.py` chooses the feature set, the labels, the class weight and the
  decision threshold, and writes that threshold to a config file.
- `success_predictor.py` assembles one feature row and turns the classifier's probability into
  a yes/no decision.

**The web back end.** It is written in JavaScript.

- `priorityCalculator.js` condenses a commit's scores into a 0-100 priority.
- The notifications route lists soon-to-expire reservations held by other users, best first.
- The commit-status cron parses the Habitat API's CSV of unavailable commits and upserts one
  status-cache row per commit.
- Three route files keep user records:
  - Habitat accounts: creation defaults, allowed PATCH fields, remaining reversals and the
    health check;
  - feedback: validation, admin status updates with resolution stamps, list scoping,
    permissions and statistics;
  - successful tasks: submission checks, snake_case to camelCase field mapping, owner and
    admin permissions, approve and reject, and lists.

**How the model is built.**

- Pure computations are functions. Two kinds of lemma sit beside them: properties the code or
  its comments promise, and worked examples the design gives.
- Loops the source runs are methods whose loops carry invariants. Each such method is proved
  equal to a specification function, for example `BuildCountMap`, `PickAllowed`,
  `BuildUpdates`, `CollectFrom`, `AnalyzeTests` and `ComputeComplexity`.
- Objects whose fields the source updates become classes with `modifies` clauses:
  - a Habitat account, a feedback item and a successful task are Sequelize instances updated
    in place;
  - the convertor's `_used_test_analysis` flag;
  - the predictor's cached model, scaler and threshold;
  - the status-cache table.
- Requests and stored rows are values. JSON request fields are the `Json.Json` datatype, with
  both Python and JavaScript truthiness. Database, HTTP, git and clock access are parameters.

Where a design description and the code disagree, the model follows the code:

- The habitate test-share penalty uses Python's `int()`. It truncates, so it is 12 to 30 points.
- `multi_file` in the complexity indicators counts every changed file, test files included.
- The accounts list counts `reserved` reservations against capacity; the health check does not.

## Model

| member | source | states |
|---|---|---|
| Text.Lower | backend/repofind/fetch_commits.py:139 | lower-casing keeps the length and maps each character through ASCII case folding |
| Text.Split | backend/repofind/fetch_commits.py:370 | splitting always yields at least one piece |
| Text.SplitJoin | backend/repofind/fetch_commits.py:374-378 | joining the pieces with the separator gives back the input, and no piece holds the separator |
| Text.ContainsInSomePiece | backend/repofind/fetch_commits.py:141-150 | a word without the separator occurs in a string iff it occurs in one of its pieces |
| Text.AfterLast | backend/repofind/fetch_commits.py:382 | the text after the last separator is a suffix without the separator; it is preceded by the separator when there is one, else it is the whole string |
| Text.Trim | backend/services/commitStatusCron.js:233 | trimming gives no longer text with no whitespace at either end |
| Text.TrimIdempotent | backend/services/commitStatusCron.js:169 | trimmed text is a fixed point of trimming, so trimming twice is trimming once |
| Text.TrimmedIsFixed | backend/services/commitStatusCron.js:169 | text without whitespace at its ends is unchanged by trimming |
| Text.IndexOf | backend/repofind/fetch_commits.py:325 | the index of the first occurrence of a character, or -1 exactly when it does not occur |
| Text.ParseNat | backend/repofind/fetch_commits.py:376-377 | a decimal count parses exactly when the text is a non-empty run of digits |
| Json.TruthinessAgreesOnScalars | backend/repofind/success_predictor.py:71 | Python and JavaScript truthiness agree on every non-container value; empty arrays and objects are falsy only in Python |
| Json.Get | backend/repofind/success_predictor.py:40 | `dict.get(key, default)` gives the field when present, the default when absent, and fails on a non-object |
| Json.Truncate | backend/repofind/ml_data_convertor.py:167 | `int()` of a float rounds toward zero |
| Json.PyFloat | backend/repofind/success_predictor.py:73 | `float()` keeps numbers, maps booleans to 1.0/0.0 and raises on null, lists and objects |
| Json.PyInt | backend/repofind/ml_data_convertor.py:167 | `int()` truncates numbers, maps booleans to 1/0 and raises on null, lists and objects |
| FileClassifier.IsTestFileIffSubstring | backend/repofind/fetch_commits.py:130-152 | a path is a test file iff its lower-cased form contains "test" or "spec" anywhere (the basename and directory checks add nothing) |
| FileClassifier.ListedNameIsDependency | backend/repofind/fetch_commits.py:155-170 | every listed manifest name is a dependency file in any directory |
| FileClassifier.VendoredPathIsDependency | backend/repofind/fetch_commits.py:155-170 | any path containing `node_modules/` or `vendor/` is a dependency file |
| FileClassifier.NoSlashInDependencyNames | backend/repofind/fetch_commits.py:157-165 | no listed dependency file name contains a slash |
| FileClassifier.BasenameAfterSlash | backend/repofind/fetch_commits.py:167 | the basename is the text after the last slash |
| FileClassifier.BareNameIsDependencyIffListed | backend/repofind/fetch_commits.py:167-170 | a bare file name is a dependency file iff it is in the list |
| FileClassifier.NoMarkerIn | backend/repofind/fetch_commits.py:169-170 | text without a slash cannot contain either vendored-directory marker |
| Numstat.GetFileStatistics | backend/repofind/fetch_commits.py:369-395 | the loop returns exactly the specification `ParseLines` of the trimmed output's lines |
| Numstat.ParseLinesStep | backend/repofind/fetch_commits.py:370-393 | one more line appends its record, leaves the list alone when skipped, and fails the whole parse when its counts are not numbers |
| Numstat.ParseLinesInvalidSticks | backend/repofind/fetch_commits.py:376-377 | one line whose count does not convert makes the whole parse fail, as the uncaught `int()` error does |
| Numstat.MakeStatFacts | backend/repofind/fetch_commits.py:380-393 | a record carries the path, the counts, the basename, the directory (absent when empty), the extension exactly when the name has a dot, and the test and dependency flags of its path |
| Numstat.ParsedLineLayout | backend/repofind/fetch_commits.py:374-378 | a parsed line is additions TAB deletions TAB path, where the path may itself contain tabs |
| Numstat.SplitThreeLayout | backend/repofind/fetch_commits.py:374-378 | a string with at least three pieces is its first two pieces followed by the rest re-joined |
| Numstat.JoinCons | backend/repofind/fetch_commits.py:378 | joining is the first piece, the separator, then the join of the rest |
| Numstat.LineOutcomeCases | backend/repofind/fetch_commits.py:371-377 | empty or short lines are skipped, and a line is invalid iff it has three fields and a count that is neither digits nor `-` |
| Numstat.ParseLinesFacts | backend/repofind/fetch_commits.py:370-393 | a successful parse has at most one record per line, each from some line; the parse fails iff some line is invalid |
| CommitAnalysis.TestFiles | backend/repofind/fetch_commits.py:251 | the test-file filter keeps at most all files |
| CommitAnalysis.NonTestFiles | backend/repofind/fetch_commits.py:252 | the non-test filter keeps at most all files |
| CommitAnalysis.DependencyFiles | backend/repofind/fetch_commits.py:178 | the dependency filter keeps at most all files |
| CommitAnalysis.FilterMembership | backend/repofind/fetch_commits.py:178-252 | each filter keeps exactly the records with (or without) its flag |
| CommitAnalysis.Partition | backend/repofind/fetch_commits.py:251-252 | test and non-test files split the records, their additions and their deletions exactly |
| CommitAnalysis.SumsAppend | backend/repofind/fetch_commits.py:718-719 | the sums grow by one record's counts when it is appended |
| CommitAnalysis.SumAdditionsBoundsEach | backend/repofind/fetch_commits.py:718 | no file has more additions than the total |
| CommitAnalysis.Paths | backend/repofind/fetch_commits.py:188 | the dependency path list is the records' paths in order |
| CommitAnalysis.TypeMappingCoversDependencyNames | backend/repofind/fetch_commits.py:192-209 | the type table has an entry exactly for the listed dependency file names |
| CommitAnalysis.FirstDependencyType | backend/repofind/fetch_commits.py:211-218 | the type comes from the first dependency file whose basename is in the table, or is `other` when none is |
| CommitAnalysis.DependencyHeuristics | backend/repofind/fetch_commits.py:226-236 | "new dependencies" iff some file has more than 10 additions and deletions under 30% of them; "version updates" iff some file's changes are balanced within half the larger count |
| CommitAnalysis.AnalyzeDependencies | backend/repofind/fetch_commits.py:173-243 | with no dependency files: empty analysis and no type; otherwise the paths, the first-match type and the two heuristics |
| CommitAnalysis.CountKindsPartition | backend/repofind/fetch_commits.py:259-268 | added-only, modified, removed-only and untouched test files add up to the number of test files |
| CommitAnalysis.Coverage | backend/repofind/fetch_commits.py:270-274 | the coverage estimate lies in [0, 1] and is 0 when nothing was added |
| CommitAnalysis.CoverageIsTestShare | backend/repofind/fetch_commits.py:271-273 | with additions, coverage is the test files' share of them (the cap at 1 never applies) |
| CommitAnalysis.ShareAtMostOne | backend/repofind/fetch_commits.py:274 | a part over a positive whole is at most one |
| CommitAnalysis.QualityPointsBounds | backend/repofind/fetch_commits.py:287-304 | quality is 0 to 100, and 100 exactly for coverage at least 0.7 with integration tests and at least three test files |
| CommitAnalysis.AnalyzeTests | backend/repofind/fetch_commits.py:246-314 | the change-kind counts, coverage, integration-test flag (a test path naming integration, e2e or end-to-end), unit-test flag and quality score, each against its definition |
| CommitAnalysis.RefactorNeedsTitleMarker | backend/repofind/fetch_commits.py:321-332 | a refactor needs a non-empty message whose title names perf, performance, refactor or optimiz |
| CommitAnalysis.BehaviorInBodyIsPreserving | backend/repofind/fetch_commits.py:334-341 | a marked title and a body mentioning behavior make the commit behaviour-preserving |
| CommitAnalysis.ChangeBehaviorMentionsBehavior | backend/repofind/fetch_commits.py:335-347 | "change behavior" in the body already matches the preserving pattern, so it never vetoes |
| CommitAnalysis.OneLineRefactorTitleIsPreserving | backend/repofind/fetch_commits.py:343-350 | a one-line message whose title says refactor is a behaviour-preserving refactor (empty body) |
| CommitAnalysis.OneLineTitleAndBody | backend/repofind/fetch_commits.py:325-327 | a one-line message is its own stripped title with an empty body |
| CommitAnalysis.RefactorTitleMarkers | backend/repofind/fetch_commits.py:330-344 | a title saying refactor matches both the title pattern and the explicit-refactor pattern |
| CommitAnalysis.NoMarkerInEmpty | backend/repofind/fetch_commits.py:340-349 | an empty body matches no non-empty pattern word |
| CommitAnalysis.ComputeAggregates | backend/repofind/fetch_commits.py:718-726 | test plus non-test additions equal the total, net change is additions minus deletions, file changes count the records, and dependency changes iff some file is a dependency |
| CommitAnalysis.TopDirectoriesAtMostFiles | backend/repofind/fetch_commits.py:742-747 | there are never more top-level directories than files |
| CommitAnalysis.SubsetCardinality | backend/repofind/fetch_commits.py:742-747 | a subset is no larger than its superset |
| CommitAnalysis.CollectTopDirectories | backend/repofind/fetch_commits.py:742-747 | the loop collects exactly the first path segments of non-empty directories, at most one per file |
| CommitAnalysis.ComputeComplexity | backend/repofind/fetch_commits.py:741-760 | each indicator against its definition (multi_file on all files, the rest on non-test files); a large single file and several high-addition files never both hold, and many directories implies cross-directory |
| Scoring.Clamp | backend/repofind/fetch_commits.py:478 | the clamp lies within its bounds and keeps in-range values |
| Scoring.HabitateScore | backend/repofind/fetch_commits.py:402-478 | the score is the clamped sum of the habitate awards and penalties, between 0 and 150 |
| Scoring.HabitateOfTotals | backend/repofind/fetch_commits.py:409-478 | the stepwise score over the totals equals the clamped points |
| Scoring.AddSizePatterns | backend/repofind/fetch_commits.py:411-425 | the single-large-file and 3-6 large-files awards are added |
| Scoring.AddHabitateBreadth | backend/repofind/fetch_commits.py:427-446 | the file-count, size and test-file awards are added |
| Scoring.AddHabitateChange | backend/repofind/fetch_commits.py:448-465 | the net-change and volume awards are added, with 10 off when deletions exceed half the additions |
| Scoring.TestSharePenaltyRange | backend/repofind/fetch_commits.py:467-472 | the test-share penalty is 0, or 12 to 30, and positive iff tests are over 40% of the additions |
| Scoring.CommitTestSharePenaltyRange | backend/repofind/fetch_commits.py:467-472 | for any commit the penalty is 0 or 12 to 30 |
| Scoring.DivAtLeast | backend/repofind/fetch_commits.py:467-472 | the average is at least q when the sum is at least q times the count |
| Scoring.PositiveFactor | backend/repofind/fetch_commits.py:470-472 | a positive product with a positive factor has a positive cofactor |
| Scoring.DivAtMost | backend/repofind/fetch_commits.py:472 | the quotient is at most q when the dividend is at most q times the divisor |
| Scoring.RefactorLowersHabitate | backend/repofind/fetch_commits.py:474-478 | a behaviour-preserving refactor costs exactly 40 points and never raises the clamped score |
| Scoring.SingleNonTestFile | backend/repofind/fetch_commits.py:404-407 | a one-file non-test commit's totals are that file's counts |
| Scoring.SingleFileThreshold | backend/repofind/fetch_commits.py:411-413 | going from 199 to 200 additions in one file adds 30 points, plus 8 or 14 when the net-change or penalty thresholds are crossed too |
| Scoring.DifficultyScore | backend/repofind/fetch_commits.py:481-554 | the score is the clamped sum of the difficulty awards, between 0 and 100 |
| Scoring.AddCodebaseAwards | backend/repofind/fetch_commits.py:488-507 | the file-count and directory-count awards are added |
| Scoring.AddDifficultyExtras | backend/repofind/fetch_commits.py:524-548 | the volume, test-file, core-path and refactor-ratio awards are added |
| Scoring.DifficultyPointsRange | backend/repofind/fetch_commits.py:481-554 | the unclamped points lie in -30 to 105, and a refactor costs exactly 30 |
| Scoring.SuitabilityScore | backend/repofind/fetch_commits.py:557-600 | any dependency file vetoes to 0; otherwise the clamped suitability points, between 0 and 100 |
| Scoring.SuitabilityOfTotals | backend/repofind/fetch_commits.py:561-600 | the stepwise score after the veto equals the clamped points |
| Scoring.SuitabilityPointsRange | backend/repofind/fetch_commits.py:561-598 | the unclamped points lie in -20 to 105 |
| Scoring.FiveFileCommitScores | backend/repofind/fetch_commits.py:402-600 | five non-test files with 320, 310, 305, 450 and 500 additions score habitate 114, difficulty 20 and suitability 60 |
| Scoring.FiveFileSums | backend/repofind/fetch_commits.py:718-719 | that commit adds 1885 lines and deletes none |
| Scoring.AllNonTest | backend/repofind/fetch_commits.py:404 | with no test files the non-test filter is the identity and the test filter empty |
| FeatureRows.CsvColumnsShape | backend/repofind/ml_data_convertor.py:44-56 | the CSV has 29 columns, with `status` last and only there |
| FeatureRows.OrZero | backend/repofind/ml_data_convertor.py:175-181 | NULL becomes 0 and any other value is kept |
| FeatureRows.FloatOrZero | backend/repofind/ml_data_convertor.py:176-177 | NULL becomes 0.0, integers and reals become reals, and unconvertible text fails |
| FeatureRows.Flag | backend/repofind/ml_data_convertor.py:182-185 | a flag is 1 iff the value is truthy, else 0 |
| FeatureRows.DateCellsRange | backend/repofind/ml_data_convertor.py:186-202 | month and weekday are both 0, or 1-12 and 0-6; a missing date gives 0, 0 |
| FeatureRows.ParseComplexity | backend/repofind/ml_data_convertor.py:148-168 | every parsed indicator other than the directory count is a 0/1 flag |
| FeatureRows.ComplexityDefaults | backend/repofind/ml_data_convertor.py:150-159 | an empty column, undecodable JSON or an empty object all give the all-zero indicators |
| FeatureRows.ComplexityDirectoryCount | backend/repofind/ml_data_convertor.py:167 | a numeric directory_count is truncated by `int()` |
| FeatureRows.RecordLayout | backend/repofind/ml_data_convertor.py:171-227 | the record is the 29 cells in column order |
| FeatureRows.CsvRow | backend/repofind/ml_data_convertor.py:171-227 | a row converts iff its scores, flags, complexity and test tail convert |
| FeatureRows.CsvRowLayout | backend/repofind/ml_data_convertor.py:171-227 | a converted row has one cell per CSV column, each block taken from its source cells |
| FeatureRows.LeadingColumns | backend/repofind/ml_data_convertor.py:175-181 | the counts are kept with NULL as 0, and the two float scores are reals (0.0 for NULL) |
| FeatureRows.TrailingColumns | backend/repofind/ml_data_convertor.py:182-226 | the flags are 0/1, coverage is a real, the four placeholders are 0, and the status is last |
| FeatureRows.HasTestChangesColumn | backend/repofind/ml_data_convertor.py:217-225 | without the test-analysis join has_test_changes is 0; with it, 1 iff added, modified and removed sum to more than zero |
| FeatureRows.DateAndComplexityColumns | backend/repofind/ml_data_convertor.py:186-211 | the date and complexity cells come from their columns and the six indicator cells are flags |
| FeatureRows.Converter.constructor | backend/repofind/ml_data_convertor.py:40 | a new convertor assumes the test-analysis join |
| FeatureRows.Converter.SelectQuery | backend/repofind/ml_data_convertor.py:130-143 | the join query is used when it runs; a missing-table or missing-column error falls back to the plain query; any other error is raised and leaves the flag alone |
| FeatureRows.Converter.RowToCsvRow | backend/repofind/ml_data_convertor.py:171-227 | the conversion is the specification `CsvRow` under the current query flag |
| Training.FeatureNamesMatchExport | backend/repofind/train_success_model.py:48-59 | the 28 feature names are the exported CSV columns minus `status` |
| Training.ScoresLeadFeatures | backend/repofind/train_success_model.py:49-50 | the three scores are the first three features |
| Training.FeatureNamesDistinct | backend/repofind/train_success_model.py:49-59 | no feature name repeats |
| Training.Kept | backend/repofind/train_success_model.py:65 | exactly the paid_out and too_easy rows are kept |
| Training.LoadDataLabels | backend/repofind/train_success_model.py:62-68 | one example per kept row, label 1 exactly for paid_out and 0 exactly for too_easy, 28 features each with missing ones as 0 |
| Training.CountLabel | backend/repofind/train_success_model.py:112-113 | a label count is at most the number of labels |
| Training.ScalePosWeight | backend/repofind/train_success_model.py:114 | the class weight is never negative |
| Training.CountLabelsSplit | backend/repofind/train_success_model.py:112-113 | with 0/1 labels the two counts add up to all labels |
| Training.ScalePosWeightBalances | backend/repofind/train_success_model.py:112-114 | the weight times the positive count equals the negative count, and the weight is 1 without positives |
| Training.ScalePosWeightBalanced | backend/repofind/train_success_model.py:112-114 | with positives, the weight is 1 exactly when the classes are balanced |
| Training.UnitRatio | backend/repofind/train_success_model.py:114 | a ratio is 1 iff its terms are equal |
| Training.Predictions | backend/repofind/train_success_model.py:92 | one prediction per probability |
| Training.MetricsOf | backend/repofind/train_success_model.py:93-95 | precision, recall and F1 lie in [0, 1] and are all 0 without true positives |
| Training.RatioInUnit | backend/repofind/train_success_model.py:93-94 | a part over a positive whole lies in [0, 1] |
| Training.F1IsHarmonicMean | backend/repofind/train_success_model.py:95 | with true positives F1 is the harmonic mean of precision and recall |
| Training.SweepChoosesBest | backend/repofind/train_success_model.py:89-98 | the chosen threshold has the best F1, the best recall among F1 ties, and is the first with that pair |
| Training.SweepStarts | backend/repofind/train_success_model.py:89-98 | an empty sweep keeps the initial values, and a one-threshold sweep chooses it |
| Training.TuneThreshold | backend/repofind/train_success_model.py:85-103 | the loop returns the sweep's choice and one row per threshold, over the default grid when none is given |
| Training.ConfigFor | backend/repofind/train_success_model.py:156-158 | the config document is an object whose only key is the threshold |
| Predictor.ReadThreshold | backend/repofind/success_predictor.py:37-44 | no config file gives 0.5; an object without `threshold` gives 0.5; a document that is not an object fails |
| Predictor.ConfigRoundTrip | backend/repofind/success_predictor.py:40 | reading back the config the trainer writes gives its threshold |
| Predictor.NextThreshold | backend/repofind/success_predictor.py:37-44 | a cached threshold is kept, and a missing config gives 0.5 |
| Predictor.NextThresholdIdempotent | backend/repofind/success_predictor.py:32-45 | loading twice gives the same threshold as loading once |
| Predictor.BoolFeaturesAreFeatures | backend/repofind/success_predictor.py:61-66 | every boolean feature is one of the classifier's features |
| Predictor.Find | backend/repofind/success_predictor.py:79 | the first index of a value, or -1 exactly when absent |
| Predictor.ExtraValue | backend/repofind/success_predictor.py:70-73 | boolean features become 1.0/0.0 by truthiness, null becomes 0.0, and other values go through `float()` |
| Predictor.FeatureNamesScoresFirst | backend/repofind/success_predictor.py:57-60 | the feature list starts with the three scores |
| Predictor.ScoreRow | backend/repofind/success_predictor.py:57-60 | the starting row exists iff all three scores convert, with one cell per feature |
| Predictor.ScoreRowShape | backend/repofind/success_predictor.py:57-60 | the score cells hold the converted scores and every other cell is 0 |
| Predictor.ApplyExtras | backend/repofind/success_predictor.py:67-73 | applying extras keeps the row length |
| Predictor.ApplyExtrasEffect | backend/repofind/success_predictor.py:67-73 | the extras fail iff a known one fails to convert; otherwise every known extra sets its cell and unknown names are ignored |
| Predictor.Columns | backend/repofind/success_predictor.py:74-75 | the columns are the first n features the scaler was fitted on, or all of them |
| Predictor.PaidOutProbability | backend/repofind/success_predictor.py:78-80 | a model without class 1 gives probability 0 |
| Predictor.ThresholdChoice | backend/repofind/success_predictor.py:56 | without a loaded threshold there is none, and with no argument the loaded one is used |
| Predictor.RowFor | backend/repofind/success_predictor.py:57-73 | an assembled row has one cell per feature |
| Predictor.AssembleRow | backend/repofind/success_predictor.py:57-73 | the loop builds the specification `RowFor` |
| Predictor.Finish | backend/repofind/success_predictor.py:74-81 | a decision exists iff the threshold, the row and the probability do, and it is "good" iff the probability reaches the threshold |
| Predictor.PredictionDecision | backend/repofind/success_predictor.py:48-81 | without a threshold no prediction; "good" iff the probability reaches the given threshold, or the loaded one when none is given |
| Predictor.Predictor.constructor | backend/repofind/success_predictor.py:27-29 | no model, scaler or threshold is cached yet |
| Predictor.Predictor.Load | backend/repofind/success_predictor.py:32-45 | the first load caches the model and scaler read from their files, and later loads keep them whatever the files hold; the threshold follows `NextThreshold` |
| Predictor.Predictor.Predict | backend/repofind/success_predictor.py:48-81 | loads, then returns the specification `Prediction` applied to the cached model, scaler and threshold |
| Priority.ValueOf | backend/services/priorityCalculator.js:9-13 | the camelCase key wins, then the snake_case key, then the default |
| Priority.Clamp | backend/services/priorityCalculator.js:16-32 | the clamp lies within its bounds and keeps in-range values |
| Priority.Round | backend/services/priorityCalculator.js:32 | `Math.round` gives the integer within half below and under half above |
| Priority.HabitatePart | backend/services/priorityCalculator.js:16 | the habitate part is 0 to 40 |
| Priority.SuitabilityPart | backend/services/priorityCalculator.js:19-20 | the suitability part is 0 to 30 |
| Priority.DifficultyPart | backend/services/priorityCalculator.js:23-24 | the difficulty part is 0 to 20 |
| Priority.PatternBonus | backend/services/priorityCalculator.js:26-29 | the bonus is 5 exactly for one file with 200+ additions or 3+ files with 300+, else 0 |
| Priority.PriorityOf | backend/services/priorityCalculator.js:15-32 | the priority lies between 0 and 95 (never 100) |
| Priority.ComputePriority | backend/services/priorityCalculator.js:5-33 | a missing commit has priority 0, and every priority is 0 to 95 |
| Priority.CamelCaseWins | backend/services/priorityCalculator.js:9-12 | when the camelCase keys are present the snake_case ones do not matter |
| Priority.EmptyCommitHasZeroPriority | backend/services/priorityCalculator.js:9-13 | a commit with no scores has priority 0 |
| Priority.FractionsAreScaled | backend/services/priorityCalculator.js:18-24 | scores given as fractions count like the same score on the 0-100 scale |
| Priority.RoundMonotone | backend/services/priorityCalculator.js:32 | rounding is monotone |
| Priority.PriorityMonotoneInHabitate | backend/services/priorityCalculator.js:15-32 | a higher habitate score never lowers the priority |
| Priority.PriorityWithoutBonus | backend/services/priorityCalculator.js:31-32 | without a pattern bonus the priority is at most 90 |
| Notifications.Candidates | backend/routes/notifications.js:24-32 | a row is returned exactly when it is in the store, reserved by someone else, expires within two hours and has an active repository |
| Notifications.Query | backend/routes/notifications.js:24-56 | min(30, n) of the n candidates, taken as a prefix of the candidate list; every candidate when there are at most 30 |
| Notifications.ExpectedValue | backend/routes/notifications.js:60 | the expected value is the commit's priority, 0 to 95, and 0 without a commit |
| Notifications.ToEntry | backend/routes/notifications.js:61-70 | an entry carries the reservation id, expiry, holder and expected value |
| Notifications.ToEntries | backend/routes/notifications.js:58-71 | one entry per row, in order |
| Notifications.Insert | backend/routes/notifications.js:74-77 | insertion adds exactly one entry |
| Notifications.InsertRanked | backend/routes/notifications.js:74-77 | inserting into a ranked list keeps it ranked |
| Notifications.Sort | backend/routes/notifications.js:74-77 | sorting is a permutation |
| Notifications.SortRanked | backend/routes/notifications.js:74-77 | the sorted list is ranked by value descending, then expiry ascending |
| Notifications.ExpiringCommits | backend/routes/notifications.js:79-84 | the reply's total is the length of its list, at most 20 |
| Notifications.ExpiringCommitsRanked | backend/routes/notifications.js:58-84 | the reply is ranked, drawn from the mapped rows, and as long as it can be up to 20 |
| Notifications.ExpiringCommitsFromCandidates | backend/routes/notifications.js:24-84 | every listed entry comes from a candidate row |
| Notifications.ExpiringCommitsKeepsBest | backend/routes/notifications.js:74-79 | the reply is a prefix of the ranked list, so every dropped entry ranks after every kept one |
| CommitStatus.ParseLineShape | backend/services/commitStatusCron.js:233-248 | a line with fewer than two fields is dropped; a kept line has a non-empty trimmed hash and status, and a non-empty expiry when it has one |
| CommitStatus.SplitAtFirst | backend/services/commitStatusCron.js:236 | splitting at the first separator peels off the first field |
| CommitStatus.SplitWithout | backend/services/commitStatusCron.js:236 | text without the separator is one field |
| CommitStatus.SplitThree | backend/services/commitStatusCron.js:236 | three comma-free fields joined by commas split back into them |
| CommitStatus.SplitTwo | backend/services/commitStatusCron.js:236 | two comma-free fields joined by a comma split back into them |
| CommitStatus.ParseThreeFields | backend/services/commitStatusCron.js:233-247 | a trimmed three-field line gives hash, status and expiry |
| CommitStatus.ParseTwoFields | backend/services/commitStatusCron.js:233-247 | a trimmed two-field line gives hash and status without expiry |
| CommitStatus.LineRoundTrip | backend/services/commitStatusCron.js:233-247 | writing a hash, status and expiry as a CSV line and parsing it gives them back |
| CommitStatus.ShortLineRoundTrip | backend/services/commitStatusCron.js:233-247 | writing a hash and status as a CSV line and parsing it gives them back |
| CommitStatus.ParseLines | backend/services/commitStatusCron.js:232-249 | each line is parsed on its own |
| CommitStatus.HeaderLines | backend/services/commitStatusCron.js:226-230 | one header line is skipped iff the first line mentions commit_hash in any case |
| CommitStatus.StatusMap | backend/services/commitStatusCron.js:214-219 | anything but a non-empty string gives the empty map |
| CommitStatus.CollectKeys | backend/services/commitStatusCron.js:243-247 | the map's keys are exactly the hashes of the kept lines |
| CommitStatus.CollectLastWins | backend/services/commitStatusCron.js:244 | a hash maps to the status of its last line |
| CommitStatus.CollectValues | backend/services/commitStatusCron.js:239-247 | every key and status in the map is non-empty and trimmed |
| CommitStatus.LastNaming | backend/services/commitStatusCron.js:244 | every hash that occurs has a last line naming it |
| CommitStatus.ReadLine | backend/services/commitStatusCron.js:233-247 | the per-line method computes the specification `ParseLine` |
| CommitStatus.CollectStep | backend/services/commitStatusCron.js:243-247 | one more line records its parse into the map |
| CommitStatus.CollectFrom | backend/services/commitStatusCron.js:232-249 | the loop builds the map of the lines after the header |
| CommitStatus.ParseUnavailableCommits | backend/services/commitStatusCron.js:214-252 | the method computes the specification `StatusMap` |
| CommitStatus.CachedStatus | backend/services/commitStatusCron.js:165-197 | an unlisted commit is available with no expiry; `reserved` becomes already_reserved; an empty status becomes unavailable; any other status is kept trimmed; the expiry is kept exactly when the listing gives a non-empty one |
| CommitStatus.ParsedStatusKept | backend/services/commitStatusCron.js:169-179 | a parsed status is cached as is, or as already_reserved when it is reserved |
| CommitStatus.UpsertsStep | backend/services/commitStatusCron.js:176-197 | one more upsert overwrites its key |
| CommitStatus.UpsertsSet | backend/services/commitStatusCron.js:164-201 | with distinct keys every upserted key holds its value |
| CommitStatus.UpsertsKeep | backend/services/commitStatusCron.js:176-197 | keys not upserted keep their entries |
| CommitStatus.Updates | backend/services/commitStatusCron.js:164-201 | one cache update per commit, keyed by commit and account |
| CommitStatus.UpsertedEffect | backend/services/commitStatusCron.js:164-201 | after the upserts every commit of the repo has its entry for this account and no other cache row changes |
| CommitStatus.StatusCache.constructor | backend/services/commitStatusCron.js:176 | the cache starts empty |
| CommitStatus.StatusCache.UpsertAll | backend/services/commitStatusCron.js:161-203 | every commit is upserted and counted |
| CommitStatus.StatusCache.FetchStatusesForRepo | backend/services/commitStatusCron.js:131-208 | an API failure or an empty listing changes nothing and counts 0; otherwise every commit of the repo is upserted and counted |
| Accounts.CountWhere | backend/routes/accounts.js:28-39 | counts an account's reservations with the given statuses |
| Accounts.CountWhereMonotone | backend/routes/accounts.js:31 | counting over more statuses never counts fewer |
| Accounts.JsParseInt | backend/routes/accounts.js:45 | `parseInt` truncates numbers and gives NaN for null and booleans |
| Accounts.CountValue | backend/routes/accounts.js:44-45 | a missing or unparsable count is 0 and a whole number is kept |
| Accounts.CountMap | backend/routes/accounts.js:41-46 | the count map has a key for exactly the grouped account ids |
| Accounts.CountMapLookup | backend/routes/accounts.js:41-46 | each account's entry is its parsed count |
| Accounts.BuildCountMap | backend/routes/accounts.js:41-46 | the `forEach` loop builds the specification `CountMap` |
| Accounts.ActiveCount | backend/routes/accounts.js:50 | an account without an entry has 0 active reservations |
| Accounts.Remaining | backend/routes/accounts.js:51 | remaining reversals are never negative, 0 iff the limit is used up, and otherwise limit minus active |
| Accounts.Health | backend/routes/accounts.js:248-253 | exhausted iff none remain, warning iff one or two remain, healthy iff more |
| Accounts.HealthMonotone | backend/routes/accounts.js:245-253 | more active reservations never improve health |
| Accounts.HealthOfUse | backend/routes/accounts.js:245-253 | exhausted iff active reservations reach the limit; healthy iff at least three reversals are left |
| Accounts.HealthCheckSeesAtLeastListRemaining | backend/routes/accounts.js:31 | the health check, which ignores `reserved` rows, never reports fewer remaining reversals than the list |
| Accounts.ListWithRemaining | backend/routes/accounts.js:49-56 | each listed account keeps its id and limit, and its remaining reversals are non-negative, the limit when it has no reservations, limit minus active when positive, and zero exactly when the active count reaches the limit |
| Accounts.UrlOr | backend/routes/accounts.js:106 | a non-empty API URL is kept, otherwise the environment's |
| Accounts.ApiUrl | backend/routes/accounts.js:216 | the health-check URL is never empty: the account's, else the environment's, else the public default |
| Accounts.LimitOrDefault | backend/routes/accounts.js:107 | a missing or zero limit becomes 7, and the limit is never 0 |
| Accounts.PickAllowed | backend/routes/accounts.js:131-139 | the loop keeps exactly the body's allowed fields |
| Accounts.PickedKeys | backend/routes/accounts.js:131-139 | a field is updated iff it is allowed and sent, with the sent value |
| Accounts.Account.Create | backend/routes/accounts.js:98-114 | a new account is active with health unknown, the URL fallback and the limit default |
| Accounts.Account.Patch | backend/routes/accounts.js:117-145 | name, token and active flag take the sent values and nothing else changes |
| Accounts.Account.CheckHealth | backend/routes/accounts.js:198-273 | an inactive account is refused unchanged; an API failure marks health error; success stores health and remaining reversals from the pending and active count, and the API's total unless it is 0 |
| Feedback.RequiredText | backend/routes/feedback.js:117-122 | a value is missing iff falsy or blank, fails iff truthy but not text, and otherwise gives its trimmed non-empty text |
| Feedback.TextOr | backend/routes/feedback.js:127-129 | a falsy value gives the fallback, and text is kept |
| Feedback.ValidateCreate | backend/routes/feedback.js:113-131 | the title is checked before the description, with their messages; an accepted item has both trimmed and non-empty, category default other and priority default medium; input passing both checks with text (or falsy) category and priority is accepted; a server error arises only from a truthy value that is not text |
| Feedback.NotesChangeOf | backend/routes/feedback.js:175-177 | absent notes are kept, falsy notes cleared, and text notes stored trimmed |
| Feedback.ResolutionAfter | backend/routes/feedback.js:162-173 | resolved or closed stamps now and the admin; pending, reviewing or in_progress clears both; other statuses keep them |
| Feedback.ResolvingExcludesReopening | backend/routes/feedback.js:166-173 | no status both resolves and reopens |
| Feedback.Feedback.Create | backend/routes/feedback.js:124-131 | a new item is pending and unresolved |
| Feedback.Feedback.Update | backend/routes/feedback.js:153-204 | only admins; a status sets the resolution stamps; notes are kept, cleared or set; failures change nothing; resolved items stay stamped and reopened ones unstamped |
| Feedback.ScopeOf | backend/routes/feedback.js:26-34 | members see only their own items; an admin sees everyone without a user filter |
| Feedback.ListFeedback | backend/routes/feedback.js:24-45 | a row is listed iff it is in scope and matches every given filter |
| Feedback.MembersListOwnFeedback | backend/routes/feedback.js:27-28 | a member lists only their own items, whatever user_id they send |
| Feedback.SameScopeSameList | backend/routes/feedback.js:24-45 | queries with the same scope and filters list the same rows |
| Feedback.ViewAndDeleteAgree | backend/routes/feedback.js:101-104 | viewing and deleting are allowed to the same people, the owner and admins |
| Feedback.CountIn | backend/routes/feedback.js:255-257 | a status count is at most the total |
| Feedback.CountInUnion | backend/routes/feedback.js:257 | counting two disjoint status sets together adds their counts |
| Feedback.StatsOf | backend/routes/feedback.js:230 | the total counts every item |
| Feedback.StatsAddUp | backend/routes/feedback.js:255-257 | resolved counts resolved plus closed, and pending, in-progress and resolved never exceed the total |
| SuccessfulTasks.FieldMapIsDistinct | backend/routes/successfulTasks.js:227-237 | the nine request fields map to nine distinct model attributes |
| SuccessfulTasks.Mapped | backend/routes/successfulTasks.js:239-249 | the mapped update holds only model attributes |
| SuccessfulTasks.MappedLookup | backend/routes/successfulTasks.js:239-249 | an attribute is set iff its snake_case or camelCase key is sent, and the camelCase value wins |
| SuccessfulTasks.BuildUpdates | backend/routes/successfulTasks.js:239-249 | the `forEach` loop builds the specification `Mapped` |
| SuccessfulTasks.PatchUpdates | backend/routes/successfulTasks.js:227-251 | for each of the nine fields, the PATCH sets it iff either spelling is sent, preferring camelCase |
| SuccessfulTasks.SubmitReadsSnakeCase | backend/routes/successfulTasks.js:186-199 | submission reads only snake_case fields |
| SuccessfulTasks.CheckSubmission | backend/routes/successfulTasks.js:153-183 | both hashes are required; the submission succeeds iff they are given and the commit exists; not found is reported only for text hashes |
| SuccessfulTasks.PermissionsNest | backend/routes/successfulTasks.js:97-100 | whoever may update may delete and whoever may delete may view; an admin who is not the owner may delete but not update |
| SuccessfulTasks.Task.Submit | backend/routes/successfulTasks.js:186-201 | a submitted task is approved at once, holding the snake_case fields |
| SuccessfulTasks.Task.Update | backend/routes/successfulTasks.js:213-251 | only the owner may update, and the mapped fields are merged over the old content |
| SuccessfulTasks.Task.Approve | backend/routes/successfulTasks.js:282-294 | admins approve, stamping approver and time |
| SuccessfulTasks.Task.Reject | backend/routes/successfulTasks.js:306-319 | admins reject, setting the reason when one is sent and keeping the approval stamps |
| SuccessfulTasks.StatusFilter | backend/routes/successfulTasks.js:17 | the status filter defaults to approved and is never empty |
| SuccessfulTasks.ListTasks | backend/routes/successfulTasks.js:13-31 | a task is listed iff it has the filtered status and, when a commit id is given, that commit |
| SuccessfulTasks.TasksForCommit | backend/routes/successfulTasks.js:109-124 | a commit's list holds exactly its approved tasks |
| SuccessfulTasks.DefaultListIsCommitList | backend/routes/successfulTasks.js:13-31 | the default list filtered by a commit id equals that commit's task list |

## Left out

- Database, HTTP, git, the cron schedule, sockets and the Habitat API are not modelled. Their
  results are parameters: query rows, an API result, the current time, the environment's
  API URL.
- `backend/middleware/auth.js` is not part of this model. Authentication and the admin-only
  middleware appear only as an `isAdmin` flag and the `AdminRequired` outcome.
- The express-validator rules, pagination (limit, offset), ordering and the include/attribute
  lists of queries are not modelled. Lists are in store order.
- Sequelize's ENUM and allowNull validation on save is not modelled. Stored values are
  whatever the route passes.
- The commits route and the other routes are not part of this model, except as callers of the
  priority function. The same goes for the reservations sync cron and `plot_ml_data_heatmap.py`.
- The 404 answers of the get, update and delete routes are not modelled. The model starts from
  the found record.
- Accounts:
  - the account-to-repo mapping route and delete are not modelled;
  - `lastUsedAt` and `failedReservations` are never written by the modelled code and are left
    out;
  - `Accounts.Health`: the value "exhausted" is stored as the code writes it, whether or not
    the column's ENUM accepts it.
- Feedback:
  - the byStatus, byCategory and byPriority tallies of the statistics are not modelled;
  - a PATCH status that is not text is not modelled;
  - a truthy category or priority that is not text is modelled as a server error. The store's
    validation is what would refuse it.
- `Feedback.ScopeOf`: a `user_id` that does not read as an integer is modelled as a scope
  matching no user. The route passes the resulting NaN on to the database query, whose
  answer is not modelled.
- Successful tasks:
  - `SuccessfulTasks.ListTasks`: a `commit_id` that does not read as an integer is modelled as
    matching no row. The route passes NaN on to the database query, whose answer is not
    modelled;
  - the `min_ai_success_rate` and `repo_id` filters of the list are not modelled;
  - `SuccessfulTasks.Task.Reject`: an absent reason keeps the old one, because Sequelize
    ignores undefined values in an update.
- Numbers:
  - JavaScript `parseInt` is modelled on plain signed digit strings. Leading whitespace,
    trailing garbage, other radixes and exponent forms are not modelled. The same goes for
    Python `float()` on exponent, `inf` and `nan` text.
  - Python `int()` and `float()` also accept surrounding whitespace, a leading `+` or `-` and
    underscores between digits (`" 5"`, `"+5"`, `"1_0"`). git's numstat writes only digits or
    `-`, so the model reads any other count text as unparsable; the same holds for text given
    to `Json.PyInt` and `Json.PyFloat`.
  - Floating-point rounding is not modelled: scores, probabilities and ratios are exact reals.
    `round(x, 2)` on the stored coverage estimate is not modelled.
  - Case folding is ASCII-only. Trimming removes the six ASCII whitespace characters that
    Python's `str.strip()` and JavaScript's `trim()` share. Python also strips the separators
    `\x1c`–`\x1f` and `\x85`, and both strip other Unicode spaces; those are not modelled.
- Date parsing (`strptime`, JavaScript `Date`) and JSON decoding are inputs given as
  functions.
- The classifier, the scaler, `train_test_split` and the ROC/accuracy reporting of training
  are uninterpreted. A failure to load the model files is not modelled.
- Console output, the CLI entry points and `print` reporting are left out.
- Notifications:
  - `Notifications.Query`: the query is modelled as the first 30 candidates in store order,
    not as sorted by expiry first;
  - the in-place `Array.prototype.sort` is modelled as a stable insertion sort on values;
  - the `reserved` reservation status is matched as the route writes it.
- `CommitAnalysis.ComputeComplexity`: `large_single_file` is a boolean. Python yields an
  empty list when there are no non-test files. The CSV converter reads either as false, so
  nothing downstream differs.
- `CommitStatus.StatusCache.UpsertAll`: one `now` stamps the whole batch. The source reads
  `new Date()` afresh for each upserted commit, so its stamps may differ by milliseconds.
- The cron service's start and stop bookkeeping (`job`, `isRunning`) and the loop over
  accounts and repos that calls the per-repo fetch are not modelled.
