# Quality analysis service and bug-fix samples, modelled in Dafny

This project models two parts of the LLT Assistant backend.

The first is the batch quality-analysis service (`QualityAnalysisService`). It
resolves a public analysis mode ("fast", "deep", "hybrid") to the analyzer's
mode name. It runs one analyzer call over a batch of files. It converts every
raw issue into the public issue shape. The detector origin becomes "rule" or
"llm", and a suggestion's action becomes "replace", "delete" or "insert". Then
it computes the summary counts. The analyzer is injected into the service. It is
modelled as an `Analyzer` object that records every call it receives in its
`calls` trace and answers each call through a total function from (files,
analyzer mode) to an `AnalyzerOutcome`: either `Analyzed(raw issues)` or
`Raised(exception)`. The fresh analysis id is a parameter. Python exceptions are `Err` values of a
`Result`.

The second is a set of small utility functions from the bug-fix sample data.
Each is modelled as its code is written, including the `_buggy` versions. The
loops become Dafny methods with loop invariants, proved against specification
functions or stated properties. Lemmas state where a buggy version departs from
its docstring or from its fixed twin. Python values are `int` and strings are
`seq<char>`. A `raise ValueError(m)` is `Err(m)`.

Files: `wrappers.dfy` (Option, Result), `quality_service.dfy`,
`title_case.dfy`, `anagram.dfy`, `index_of_min.dfy`, `max_in_list.dfy`,
`sum_first_n.dfy`, `remove_duplicates.dfy`, `fibonacci.dfy`, `factorial.dfy`,
`safe_get.dfy`, `clamp.dfy`, `median_of_three.dfy`, `count_occurrences.dfy`.

## Model

| member | source | states |
|---|---|---|
| `QualityService.ConvertMode` | app/core/services/quality_service.py:116-127 | "fast" gives "rules-only", "deep" gives "llm-only", "hybrid" gives "hybrid"; every other name, and only those, is a ValueError whose message names the mode and the list of allowed keys |
| `QualityService.ConvertModeInjective` | app/core/services/quality_service.py:116-120 | two accepted modes that resolve to the same analyzer mode are the same mode |
| `QualityService.ConvertSuggestion` | app/core/services/quality_service.py:175-191 | "remove" becomes "delete", "add" becomes "insert", any other action becomes "replace", so the fix type is one of three values; `new_text` is the raw `new_code` and `description` the raw `explanation`, whatever the fix type |
| `QualityService.DetectorOrigin` | app/core/services/quality_service.py:148 | the origin is "rule" or "llm", and it is "rule" exactly when the raw tag is "rule_engine" |
| `QualityService.ConvertIssue` | app/core/services/quality_service.py:143-159 | `file` becomes `file_path` and `type` becomes `code`; line, column, severity and message are copied; the origin is two-valued with "rule" iff the tag is "rule_engine"; the suggestion is absent exactly when the raw one is, and otherwise is the converted raw suggestion |
| `QualityService.ConvertIssues` | app/core/services/quality_service.py:139-162 | one public issue per raw issue, in the same order, each the conversion of the raw issue at that position; every origin is "rule" or "llm" |
| `QualityService.Critical` | app/core/services/quality_service.py:209 | the kept issues all have severity "error", form a sub-multiset of the input, include every "error" issue, and are no more than the input |
| `QualityService.CriticalMultiplicity` | app/core/services/quality_service.py:209 | every issue occurs in the critical list exactly as often as in the batch when its severity is "error", and not at all otherwise |
| `QualityService.CriticalAll` | app/core/services/quality_service.py:209 | the critical count equals the issue count exactly when every issue has severity "error" |
| `QualityService.CriticalNone` | app/core/services/quality_service.py:209 | the critical count is zero exactly when no issue has severity "error" |
| `QualityService.CalculateSummary` | app/core/services/quality_service.py:207-215 | `total_files` is the number of files whatever the issues; `total_issues` is the number of issues; `critical_issues` counts the "error" issues and never exceeds `total_issues` |
| `QualityService.Analyzer.constructor` | app/core/services/quality_service.py:46-47 | a new analyzer answers through the given outcome function and has received no call yet |
| `QualityService.Analyzer.AnalyzeFiles` | app/core/services/quality_service.py:83-85 | the call (files, analyzer mode) is appended to the analyzer's call trace and its outcome is returned |
| `QualityService.QualityAnalysisService.constructor` | app/core/services/quality_service.py:46-47 | the injected analyzer is the one the service keeps |
| `QualityService.QualityAnalysisService.AnalyzeBatch` | app/core/services/quality_service.py:48-104 | `mode` defaults to "hybrid"; an empty batch fails with "No files provided for analysis" and an invalid mode fails with the mode error, and on both paths the analyzer's call trace is unchanged; otherwise exactly one call (files, resolved mode) is appended to the trace; its exception is re-raised unchanged and no response is built; on success the response carries the given id, the converted issues in order, and the summary of the files and those issues, with `total_files` the batch size and critical at most total |
| `TitleCase.Upper` | data/raw_simple/bugfix015_fixed.py:10 | ASCII upper-casing maps a lower-case letter into A-Z and maps a space, and only a space, to a space |
| `TitleCase.UpperIdempotent` | data/raw_simple/bugfix015_fixed.py:10 | upper-casing twice is upper-casing once |
| `TitleCase.Split` | data/raw_simple/bugfix015_fixed.py:3 | `split(" ")` gives at least one segment and no segment contains a space |
| `TitleCase.JoinSplit` | data/raw_simple/bugfix015_fixed.py:3-11 | joining the split segments with single spaces gives back the sentence |
| `TitleCase.SplitJoin` | data/raw_simple/bugfix015_fixed.py:3-11 | splitting the join of space-free segments gives back the segments |
| `TitleCase.Capitalize` | data/raw_simple/bugfix015_fixed.py:6-10 | the capitalized segment has the segment's length and stays free of spaces |
| `TitleCase.CapitalizeAll` | data/raw_simple/bugfix015_fixed.py:5-10 | one capitalized segment per segment, in order |
| `TitleCase.TitleFrom` | data/raw_simple/bugfix015_fixed.py:3-11 | the character-by-character reference keeps the length of its input |
| `TitleCase.TitleCaseIsReference` | data/raw_simple/bugfix015_fixed.py:3-11 | the split, capitalize and join of `to_title_case` equals the reference that upper-cases exactly the characters at the start or after a space |
| `TitleCase.TitleCaseLength` | data/raw_simple/bugfix015_fixed.py:10-11 | the result has the sentence's length |
| `TitleCase.TitleCaseAt` | data/raw_simple/bugfix015_fixed.py:10 | a character is upper-cased when it opens the sentence or follows a space, and copied otherwise |
| `TitleCase.TitleCaseSpaces` | data/raw_simple/bugfix015_fixed.py:3-11 | spaces are at exactly the same positions in the result as in the sentence |
| `TitleCase.TitleCaseSegments` | data/raw_simple/bugfix015_fixed.py:3-11 | the result splits into the capitalized segments of the sentence: the same number of segments, and empty segments stay empty |
| `TitleCase.TitleCaseIdempotent` | data/raw_simple/bugfix015_fixed.py:10 | title-casing twice is title-casing once |
| `TitleCase.TitleCaseEmpty` | data/raw_simple/bugfix015_fixed.py:3-11 | the empty sentence becomes the empty string |
| `TitleCase.ToTitleCase` | data/raw_simple/bugfix015_fixed.py:1-11 | the loop's result is the title-cased sentence: same length, and each character upper-cased exactly when it starts the sentence or follows a space |
| `Anagrams.CountUp` | data/raw_simple/bugfix018_buggy.py:4-5 | one step of the first loop keeps `counts` equal to the occurrence counts of the prefix read so far |
| `Anagrams.CountDown` | data/raw_simple/bugfix018_buggy.py:6-11 | one step of the second loop keeps `counts` equal to the counts of `a` less the characters of `b` read so far; a negative count means `b` has more of that character than `a` |
| `Anagrams.IsAnagram` | data/raw_simple/bugfix018_buggy.py:3-12 | the code as written returns True exactly when every character occurs in `b` at most as often as in `a` (multiset(b) is a sub-multiset of multiset(a)) |
| `Anagrams.AnagramsAccepted` | data/raw_simple/bugfix018_buggy.py:3-12 | genuine anagrams are accepted |
| `Anagrams.EqualLengthIsExact` | data/raw_simple/bugfix018_buggy.py:3-12 | when the lengths are equal, the written test is exactly the anagram test |
| `Anagrams.SubMultisetAccepted` | data/raw_simple/bugfix018_buggy.py:2-12 | "ab" and "a" are not anagrams, yet "a" passes the written test against "ab" |
| `Anagrams.CaseSensitive` | data/raw_simple/bugfix018_buggy.py:2-7 | "a" does not pass against "A": characters are compared exactly |
| `Anagrams.IsAnagramFixed` | data/raw_simple/bugfix018_buggy.py:2 | the intended test returns True exactly for anagrams (equal multisets) |
| `ListMin.IndexOfMin` | data/raw_simple/bugfix012_fixed.py:1-9 | an empty list is a ValueError; otherwise the index is in range, its value is at most every element, and every earlier element is strictly greater (the first minimum) |
| `ListMin.FirstMinIndexUnique` | data/raw_simple/bugfix012_fixed.py:6-8 | at most one index is the first minimum, so the result is determined by its contract |
| `ListMax.MaxInList` | data/raw_simple/bugfix005_fixed.py:1-9 | an empty list is a ValueError; otherwise the result is an element of the list and no element exceeds it; a one-element list gives that element |
| `PrefixSum.SumFirstN` | data/raw_simple/bugfix001_fixed.py:1-10 | a negative `n` is a ValueError; otherwise the result is the sum of the first min(n, len) elements, without indexing past the end |
| `PrefixSum.SumFirstZero` | data/raw_simple/bugfix001_fixed.py:5-6 | with `n` zero the result is 0 |
| `PrefixSum.SumFirstAll` | data/raw_simple/bugfix001_fixed.py:7-8 | with `n` at least the length the result is the sum of the whole list |
| `PrefixSum.SumFirstStep` | data/raw_simple/bugfix001_fixed.py:6-9 | for `n` below the length, the result for n + 1 is the result for n plus `nums[n]` |
| `PrefixSum.SumAppend` | data/raw_simple/bugfix001_fixed.py:5-9 | the sum of a concatenation is the sum of the sums |
| `Dedup.FirstOccurrences` | data/raw_simple/bugfix008_fixed.py:5-8 | the kept elements are exactly the elements of `items`, and there are no more of them than items |
| `Dedup.FirstOccurrencesFacts` | data/raw_simple/bugfix008_fixed.py:6-8 | no element is kept twice |
| `Dedup.FirstOccurrencesOrdered` | data/raw_simple/bugfix008_fixed.py:2-8 | kept elements appear in the order of their first occurrences in `items` |
| `Dedup.FirstOccurrencesIdempotent` | data/raw_simple/bugfix008_fixed.py:2-9 | removing duplicates twice is removing them once |
| `Dedup.NoDuplicatesFixed` | data/raw_simple/bugfix008_fixed.py:6-8 | a list without duplicates comes back unchanged |
| `Dedup.RemoveDuplicates` | data/raw_simple/bugfix008_fixed.py:1-9 | the loop, with `seen` equal to `result` throughout, returns the first occurrences in order: no duplicates, the same elements as `items`, no longer than `items` |
| `Counting.OccurrencesIsMultiplicity` | data/raw_simple/bugfix013_fixed.py:3-7 | the front-to-back count equals the multiplicity of the target in the list |
| `Counting.OccurrencesAppend` | data/raw_simple/bugfix013_fixed.py:4-6 | the count over a concatenation is the sum of the counts |
| `Counting.OccurrencesBounds` | data/raw_simple/bugfix013_fixed.py:3-7 | the count is at most the length, zero when the target is absent and positive when it is present |
| `Counting.CountOccurrences` | data/raw_simple/bugfix013_fixed.py:1-7 | the loop's count is the number of elements equal to the target, at most the length, and zero exactly when the target is absent |
| `Fibonacci.Fib` | data/raw_simple/bugfix009_buggy.py:1-10 | a negative `n` is a ValueError; n = 0 and n = 1 both give 0; from n = 2 on the loop gives F(n) |
| `Fibonacci.FibOneDeparts` | data/raw_simple/bugfix009_buggy.py:2-6 | F(1) is 1, where the written code returns 0 |
| `Fibonacci.FibFixed` | data/raw_simple/bugfix009_buggy.py:2 | the intended `fib` returns F(n) for every n >= 0 |
| `Factorials.Factorial` | data/raw_simple/bugfix006_buggy.py:1-10 | a negative `n` is a ValueError; n = 0 gives 0; from n = 1 on the loop gives n! |
| `Factorials.FactPositive` | data/raw_simple/bugfix006_buggy.py:7-10 | every n! is at least 1 |
| `Factorials.FactorialAsWrittenRecurrence` | data/raw_simple/bugfix006_buggy.py:5-10 | the written result is at least 1 from n = 1 on and equals n times the result for n - 1 from n = 2 on, but not at n = 1, because of the base case 0 |
| `Factorials.FactorialFixed` | data/raw_simple/bugfix006_buggy.py:2 | the intended `factorial` returns n! for every n >= 0, with 0! = 1 |
| `SafeIndex.SafeGet` | data/raw_simple/bugfix017_fixed.py:1-6 | an index in [-len, len) selects `lst[index mod len]`, so a negative index counts from the end; every other index gives `default` |
| `SafeIndex.LastElement` | data/raw_simple/bugfix017_fixed.py:3-5 | index -1 on a non-empty list is the last element |
| `SafeIndex.EmptyGivesDefault` | data/raw_simple/bugfix017_fixed.py:4-6 | an empty list gives `default` for every index, in both versions |
| `SafeIndex.SafeGetBuggy` | data/raw_simple/bugfix017_buggy.py:1-5 | an index in [0, len) selects that element; every negative index and every index >= len gives `default` |
| `SafeIndex.BuggyVersusFixed` | data/raw_simple/bugfix017_buggy.py:3-5 | the two versions agree on every non-negative index; on [-len, 0) the buggy one gives `default` where the fixed one gives `lst[len + index]` |
| `Clamping.Clamp` | data/raw_simple/bugfix016_buggy.py:1-7 | the result is one of the three arguments; an in-range value is returned as is; for an ordered range the result lies inside it |
| `Clamping.ClampOutOfRange` | data/raw_simple/bugfix016_buggy.py:3-6 | a value below the range gives the upper bound, and a value above it gives the lower bound |
| `Clamping.ClampFixed` | data/raw_simple/bugfix016_buggy.py:2 | the intended clamp lies in an ordered range, returns an in-range value as is, and is the point of the range nearest the value |
| `Clamping.ClampDeparts` | data/raw_simple/bugfix016_buggy.py:2-6 | for a value outside a range with min < max, the written clamp differs from the intended one and returns the point of the range farthest from the value |
| `Medians.MedianUnique` | data/raw_simple/bugfix020_fixed.py:2 | three values have exactly one median (an argument with at least two arguments at most it and two at least it) |
| `Medians.Median` | data/raw_simple/bugfix020_fixed.py:2 | the reference median is a median of its arguments |
| `Medians.MedianSymmetric` | data/raw_simple/bugfix020_fixed.py:3-9 | the median is the same for all six orders of the arguments |
| `Medians.MedianOfPair` | data/raw_simple/bugfix020_fixed.py:3-9 | the median of (x, x, y) is x |
| `Medians.MedianOfThree` | data/raw_simple/bugfix020_fixed.py:1-9 | the result is the median of the three arguments: it satisfies `IsMedian` and equals the reference `Median` (the body also proves the swapped locals sorted and a permutation of the arguments) |
| `Medians.MedianOfThreeBuggy` | data/raw_simple/bugfix020_buggy.py:1-8 | the result is one of the arguments and at least all three, i.e. the maximum, not the median |
| `Medians.MaximumIsNotMedian` | data/raw_simple/bugfix020_buggy.py:2-8 | the maximum differs from the median exactly when it is strictly greater than it, that is, when the maximum occurs only once |
| `Medians.MedianCounterexample` | data/raw_simple/bugfix020_buggy.py:2-8 | for (1, 2, 3) the buggy result must be 3 while the median is 2 |

## Left out

- The analyzer itself (`TestAnalyzer.analyze_files`, `RuleEngine`, `LLMAnalyzer`, `create_llm_client`) is not part of this model. Its answers are a function parameter of the `Analyzer` object. Two calls with the same files and mode are therefore assumed to agree, which a generative analyzer need not do. Only the calls are recorded; the analyzer's own state is not modelled.
- The default construction of the analyzer in `__init__` (app/core/services/quality_service.py:41-45) is left out: it only builds those foreign objects. The constructor takes the analyzer.
- `close()` (app/core/services/quality_service.py:217-219) only delegates to the analyzer and is left out.
- `uuid.uuid4()`, `time.time()`, the elapsed-milliseconds arithmetic and the `logger` calls are left out. The analysis id is a parameter, placed before `mode` so that `mode` keeps its default, and nothing is proved about logs or timing. Consequently the "one log entry on failure" behaviour is not modelled.
- `async`/`await` and concurrent calls on one service are not modelled; the call is one sequential step.
- The schemas `QualityIssue`, `FixSuggestion`, `QualitySummary` and `QualityAnalysisResponse` are plain datatypes; their validation is not part of this model, so a validation error inside the `try` block cannot occur here.
- The `hasattr(issue, "suggestion")` test is replaced by an `Option` field: "no attribute" and "attribute is None" are both `None`.
- `TitleCase.Upper`: Python's `upper()` is modelled for ASCII letters only; other characters are left unchanged, so Unicode case mappings (some of which change the length) are not modelled.
- `max_in_list`, `index_of_min`, `median_of_three`, `clamp` and `remove_duplicates` are modelled over `int`; Python's comparison and equality of arbitrary types are not.
- `safe_get`'s `default=None` is an explicit parameter of the element type.
- The float functions `normalize_list`, `average` and `average_even_numbers` and the test fixtures are not part of this model.

## Findings

| source | as written | input that shows it | evidently intended | confidence | as-written member | corrected member |
|---|---|---|---|---|---|---|
| data/raw_simple/bugfix018_buggy.py:6-12 | returns True whenever `b` is a sub-multiset of `a`; no check that the counts end at zero | a = "ab", b = "a" returns True | True only when both strings have the same characters with the same counts | high, not executed | `Anagrams.SubMultisetAccepted` (about `Anagrams.IsAnagram`) | `Anagrams.IsAnagramFixed` |
| data/raw_simple/bugfix009_buggy.py:5-6 | n = 1 returns 0 | n = 1 | F(1) = 1 | high, not executed | `Fibonacci.FibOneDeparts` (about `Fibonacci.Fib`) | `Fibonacci.FibFixed` |
| data/raw_simple/bugfix006_buggy.py:5-6 | n = 0 returns 0 | n = 0 | 0! = 1 | high, not executed | `Factorials.FactorialAsWrittenRecurrence` (about `Factorials.Factorial`) | `Factorials.FactorialFixed` |
| data/raw_simple/bugfix016_buggy.py:3-6 | an out-of-range value gives the opposite bound | value 0, range [1, 5] returns 5 | the nearest bound, 1 | high, not executed | `Clamping.ClampDeparts` (about `Clamping.Clamp`) | `Clamping.ClampFixed` |
| data/raw_simple/bugfix020_buggy.py:4-8 | returns the maximum of the three | (1, 2, 3) returns 3 | the median, 2 | high, not executed | `Medians.MedianCounterexample` (about `Medians.MedianOfThreeBuggy`) | `Medians.MedianOfThree` |
| data/raw_simple/bugfix017_buggy.py:3 | every negative index gives `default` | lst = [7], index = -1 returns `default` | 7, the last element | high, not executed | `SafeIndex.BuggyVersusFixed` (about `SafeIndex.SafeGetBuggy`) | `SafeIndex.SafeGet` |
