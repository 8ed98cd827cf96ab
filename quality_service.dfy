/** The batch quality-analysis service: mode resolution, conversion of the
    analyzer's raw issues into the public schema, summary statistics, and the
    orchestration of one `analyze_batch` call around an opaque analyzer. */
module QualityService {
  import opened Wrappers

  /** A submitted file: its path and its text. */
  datatype FileInput = FileInput(path: string, content: string)

  /** A fix proposed by the analyzer, in the analyzer's own shape. */
  datatype RawSuggestion = RawSuggestion(
    action: string,
    newCode: string,
    oldCode: Option<string>,
    explanation: string)

  /** An issue as the analyzer reports it; `suggestion` is None when the raw
      issue has no suggestion attribute or it is None. */
  datatype RawIssue = RawIssue(
    file: string,
    line: int,
    column: int,
    severity: string,
    issueType: string,
    message: string,
    detectedBy: string,
    suggestion: Option<RawSuggestion>)

  /** The public fix suggestion. */
  datatype FixSuggestion = FixSuggestion(fixType: string, newText: string, description: string)

  /** The public issue. */
  datatype QualityIssue = QualityIssue(
    filePath: string,
    line: int,
    column: int,
    severity: string,
    code: string,
    message: string,
    detectedBy: string,
    suggestion: Option<FixSuggestion>)

  datatype QualitySummary = QualitySummary(totalFiles: nat, totalIssues: nat, criticalIssues: nat)

  datatype QualityAnalysisResponse = QualityAnalysisResponse(
    analysisId: string,
    summary: QualitySummary,
    issues: seq<QualityIssue>)

  /** The exceptions an `analyze_batch` call can end with: the service's own
      ValueError, or whatever the analyzer raised. */
  datatype Exception = ValueError(message: string) | AnalyzerError(detail: string)

  /** What one call of the analyzer produces: its raw issues, or an exception. */
  datatype AnalyzerOutcome = Analyzed(issues: seq<RawIssue>) | Raised(error: Exception)

  /** The public mode names and the analyzer mode each one stands for. */
  const ModeMapping: map<string, string> :=
    map["fast" := "rules-only", "deep" := "llm-only", "hybrid" := "hybrid"]

  /** Python's rendering of `list(mode_mapping.keys())`. */
  const ModeKeys: string := "['fast', 'deep', 'hybrid']"

  /** The analyzer's action names and the public fix type each one becomes. */
  const ActionMapping: map<string, string> :=
    map["replace" := "replace", "remove" := "delete", "add" := "insert"]

  /** Python's `dict.get(key, default)`. */
  function Lookup(m: map<string, string>, key: string, default: string): string
  {
    if key in m then m[key] else default
  }

  /** `_convert_mode`: the three public modes resolve to fixed analyzer modes;
      every other name is rejected with a message naming it and the allowed keys. */
  function ConvertMode(mode: string): (r: Result<string, Exception>)
    ensures mode == "fast" ==> r == Ok("rules-only")
    ensures mode == "deep" ==> r == Ok("llm-only")
    ensures mode == "hybrid" ==> r == Ok("hybrid")
    ensures r.Err? <==> mode != "fast" && mode != "deep" && mode != "hybrid"
    ensures r.Err? ==>
      r.error == ValueError("Invalid mode: " + mode + ". Must be one of " + ModeKeys)
  {
    if mode in ModeMapping then Ok(ModeMapping[mode])
    else Err(ValueError("Invalid mode: " + mode + ". Must be one of " + ModeKeys))
  }

  /** Distinct accepted modes select distinct analyzer modes. */
  lemma ConvertModeInjective(m1: string, m2: string)
    requires ConvertMode(m1).Ok? && ConvertMode(m1) == ConvertMode(m2)
    ensures m1 == m2
  {
  }

  /** `_convert_suggestion`: remaps the action, falling back to "replace", and
      copies the text fields verbatim whatever the fix type. */
  function ConvertSuggestion(s: RawSuggestion): (r: FixSuggestion)
    ensures s.action == "remove" ==> r.fixType == "delete"
    ensures s.action == "add" ==> r.fixType == "insert"
    ensures s.action != "remove" && s.action != "add" ==> r.fixType == "replace"
    ensures r.fixType == "replace" || r.fixType == "delete" || r.fixType == "insert"
    ensures r.newText == s.newCode && r.description == s.explanation
  {
    FixSuggestion(Lookup(ActionMapping, s.action, "replace"), s.newCode, s.explanation)
  }

  /** The detector-origin classification: exactly one raw tag is the rule
      engine's, every other tag is the generative analyzer's. */
  function DetectorOrigin(tag: string): (origin: string)
    ensures origin == "rule" || origin == "llm"
    ensures origin == "rule" <==> tag == "rule_engine"
  {
    if tag == "rule_engine" then "rule" else "llm"
  }

  /** The conversion `_convert_issues` applies to each raw issue. */
  function ConvertIssue(raw: RawIssue): (q: QualityIssue)
    ensures q.filePath == raw.file && q.code == raw.issueType
    ensures q.line == raw.line && q.column == raw.column
    ensures q.severity == raw.severity && q.message == raw.message
    ensures q.detectedBy == "rule" || q.detectedBy == "llm"
    ensures q.detectedBy == "rule" <==> raw.detectedBy == "rule_engine"
    ensures q.suggestion.None? <==> raw.suggestion.None?
    ensures raw.suggestion.Some? ==> q.suggestion == Some(ConvertSuggestion(raw.suggestion.value))
  {
    QualityIssue(
      raw.file, raw.line, raw.column, raw.severity, raw.issueType, raw.message,
      DetectorOrigin(raw.detectedBy),
      if raw.suggestion.Some? then Some(ConvertSuggestion(raw.suggestion.value)) else None)
  }

  /** `_convert_issues`: one public issue per raw issue, in the same order. */
  method ConvertIssues(issues: seq<RawIssue>) returns (qualityIssues: seq<QualityIssue>)
    ensures |qualityIssues| == |issues|
    ensures forall i :: 0 <= i < |issues| ==> qualityIssues[i] == ConvertIssue(issues[i])
    ensures forall i :: 0 <= i < |qualityIssues| ==>
      qualityIssues[i].detectedBy == "rule" || qualityIssues[i].detectedBy == "llm"
  {
    qualityIssues := [];
    for i := 0 to |issues|
      invariant |qualityIssues| == i
      invariant forall k :: 0 <= k < i ==> qualityIssues[k] == ConvertIssue(issues[k])
    {
      var issue := issues[i];
      var suggestion: Option<FixSuggestion> := None;
      if issue.suggestion.Some? {
        suggestion := Some(ConvertSuggestion(issue.suggestion.value));
      }
      var detectedBy := DetectorOrigin(issue.detectedBy);
      var qualityIssue := QualityIssue(
        issue.file, issue.line, issue.column, issue.severity, issue.issueType, issue.message,
        detectedBy, suggestion);
      qualityIssues := qualityIssues + [qualityIssue];
    }
  }

  /** The issues whose severity is "error", in order (the comprehension of
      `_calculate_summary`). */
  function Critical(issues: seq<QualityIssue>): (r: seq<QualityIssue>)
    ensures |r| <= |issues|
    ensures forall i :: 0 <= i < |r| ==> r[i].severity == "error"
    ensures multiset(r) <= multiset(issues)
    ensures forall i :: 0 <= i < |issues| && issues[i].severity == "error" ==> issues[i] in r
  {
    if issues == [] then []
    else
      var rest := Critical(issues[..|issues| - 1]);
      var last := issues[|issues| - 1];
      assert issues == issues[..|issues| - 1] + [last];
      if last.severity == "error" then rest + [last] else rest
  }

  /** The critical list keeps every "error" issue as often as the batch holds
      it, and nothing else: its multiset is the batch's, filtered. */
  lemma {:induction false} CriticalMultiplicity(issues: seq<QualityIssue>)
    ensures forall x ::
              multiset(Critical(issues))[x] == if x.severity == "error" then multiset(issues)[x] else 0
  {
    if issues != [] {
      var front, last := issues[..|issues| - 1], issues[|issues| - 1];
      CriticalMultiplicity(front);
      assert issues == front + [last];
      assert multiset(issues) == multiset(front) + multiset{last};
    }
  }

  /** Every issue is critical exactly when the critical list is the whole list. */
  lemma {:induction false} CriticalAll(issues: seq<QualityIssue>)
    ensures |Critical(issues)| == |issues| <==> forall i :: 0 <= i < |issues| ==> issues[i].severity == "error"
  {
    if issues != [] {
      var front := issues[..|issues| - 1];
      CriticalAll(front);
      assert forall i :: 0 <= i < |front| ==> front[i] == issues[i];
    }
  }

  /** No issue is critical exactly when none has severity "error". */
  lemma {:induction false} CriticalNone(issues: seq<QualityIssue>)
    ensures |Critical(issues)| == 0 <==> forall i :: 0 <= i < |issues| ==> issues[i].severity != "error"
  {
    if issues != [] {
      var front := issues[..|issues| - 1];
      CriticalNone(front);
      assert forall i :: 0 <= i < |front| ==> front[i] == issues[i];
    }
  }

  /** `_calculate_summary`: the file count of the batch, the issue count, and
      the count of "error" issues, which never exceeds the issue count. */
  function CalculateSummary(files: seq<FileInput>, issues: seq<QualityIssue>): (s: QualitySummary)
    ensures s.totalFiles == |files|
    ensures s.totalIssues == |issues|
    ensures s.criticalIssues == |Critical(issues)| <= s.totalIssues
  {
    QualitySummary(|files|, |issues|, |Critical(issues)|)
  }

  /** One analyzer call: the batch and the analyzer mode it was given. */
  datatype AnalyzerCall = AnalyzerCall(files: seq<FileInput>, mode: string)

  /** The analyzer the service owns. What it produces for a batch and a mode
      is given by `outcome`; `calls` records every call made to it, in order. */
  class Analyzer {
    const outcome: (seq<FileInput>, string) -> AnalyzerOutcome
    var calls: seq<AnalyzerCall>

    constructor (outcome: (seq<FileInput>, string) -> AnalyzerOutcome)
      ensures this.outcome == outcome && calls == []
    {
      this.outcome := outcome;
      calls := [];
    }

    /** `analyze_files`: one recorded call, answered by `outcome`. */
    method AnalyzeFiles(files: seq<FileInput>, mode: string) returns (o: AnalyzerOutcome)
      modifies this
      ensures calls == old(calls) + [AnalyzerCall(files, mode)]
      ensures o == outcome(files, mode)
    {
      calls := calls + [AnalyzerCall(files, mode)];
      o := outcome(files, mode);
    }
  }

  /** The orchestrator. Its analyzer is injected and never replaced. */
  class QualityAnalysisService {
    const analyzer: Analyzer

    constructor (analyzer: Analyzer)
      ensures this.analyzer == analyzer
    {
      this.analyzer := analyzer;
    }

    /** `analyze_batch`: rejects an empty batch and an unknown mode without
        calling the analyzer, otherwise calls it exactly once with the
        resolved mode, then composes the response from the analyzer's issues
        or re-raises the analyzer's exception unchanged. `analysisId` stands
        for the fresh uuid; `mode` defaults to "hybrid" as in the source. */
    method AnalyzeBatch(files: seq<FileInput>, analysisId: string, mode: string := "hybrid")
      returns (r: Result<QualityAnalysisResponse, Exception>)
      modifies analyzer
      ensures |files| == 0 ==>
        r == Err(ValueError("No files provided for analysis")) &&
        analyzer.calls == old(analyzer.calls)
      ensures |files| > 0 && ConvertMode(mode).Err? ==>
        r == Err(ConvertMode(mode).error) && analyzer.calls == old(analyzer.calls)
      ensures |files| > 0 && ConvertMode(mode).Ok? ==>
        analyzer.calls == old(analyzer.calls) + [AnalyzerCall(files, ConvertMode(mode).value)]
      ensures (|files| > 0 && ConvertMode(mode).Ok? &&
               analyzer.outcome(files, ConvertMode(mode).value).Raised?) ==>
        r == Err(analyzer.outcome(files, ConvertMode(mode).value).error)
      ensures (|files| > 0 && ConvertMode(mode).Ok? &&
               analyzer.outcome(files, ConvertMode(mode).value).Analyzed?) ==>
        var raw := analyzer.outcome(files, ConvertMode(mode).value).issues;
        r.Ok? && r.value.analysisId == analysisId &&
        |r.value.issues| == |raw| &&
        (forall i :: 0 <= i < |raw| ==> r.value.issues[i] == ConvertIssue(raw[i])) &&
        r.value.summary == CalculateSummary(files, r.value.issues)
      ensures r.Ok? ==>
        r.value.summary.totalFiles == |files| > 0 &&
        r.value.summary.totalIssues == |r.value.issues| &&
        r.value.summary.criticalIssues <= r.value.summary.totalIssues
    {
      if |files| == 0 {
        return Err(ValueError("No files provided for analysis"));
      }
      var analyzerMode := ConvertMode(mode);
      if analyzerMode.Err? {
        return Err(analyzerMode.error);
      }
      var analysisResult := analyzer.AnalyzeFiles(files, analyzerMode.value);
      if analysisResult.Raised? {
        return Err(analysisResult.error);
      }
      var qualityIssues := ConvertIssues(analysisResult.issues);
      var summary := CalculateSummary(files, qualityIssues);
      r := Ok(QualityAnalysisResponse(analysisId, summary, qualityIssues));
    }
  }
}
