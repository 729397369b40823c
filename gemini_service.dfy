/** src/services/geminiService.ts: `analyzeWaterQuality`. It builds a report
    summary for the prompt, asks the language model for a JSON assessment, and
    answers with a fixed threshold-based assessment when the reply does not
    parse. The model call and `JSON.parse` are oracles passed in. */
module GeminiService {
  import opened Wrappers
  import Text

  /** `{ issue_type, description, ... }`; the other fields are not read here. */
  datatype CommunityReport = CommunityReport(id: int, issueType: string, description: string,
                                             lat: real, lng: real, timestamp: string)

  /** `WaterAnalysis`. `score` is a string: a parsed reply is not validated, so
      any text the model chose can stand there. */
  datatype WaterAnalysis = WaterAnalysis(score: string, tdsLevel: real, recommendation: string,
                                         explanation: string, sideEffects: seq<string>,
                                         improvementTips: seq<string>)

  /** The three scores the fallback uses, in severity order. */
  datatype Score = Safe | Risk | Unsafe {
    function Name(): string {
      match this
      case Safe => "Safe"
      case Risk => "Risk"
      case Unsafe => "Unsafe"
    }
    function Rank(): nat {
      match this
      case Safe => 0
      case Risk => 1
      case Unsafe => 2
    }
  }

  /** `${r.issue_type}: ${r.description}`. */
  function ReportEntry(r: CommunityReport): string {
    r.issueType + ": " + r.description
  }

  function ReportEntries(reports: seq<CommunityReport>): (entries: seq<string>)
    ensures |entries| == |reports|
    ensures forall i :: 0 <= i < |reports| ==> entries[i] == ReportEntry(reports[i])
  {
    seq(|reports|, i requires 0 <= i < |reports| => ReportEntry(reports[i]))
  }

  /** `reports.map(...).join(", ")`. */
  function ReportSummary(reports: seq<CommunityReport>): string {
    Text.Join(ReportEntries(reports), ", ")
  }

  /** `reportSummary || "None"`: the text the prompt carries about reports. */
  function ReportsClause(reports: seq<CommunityReport>): string {
    var summary := ReportSummary(reports);
    if summary == "" then "None" else summary
  }

  /** The summary grows report by report, in input order, with ", " between
      consecutive entries. */
  lemma ReportSummaryAppend(reports: seq<CommunityReport>, r: CommunityReport)
    ensures ReportSummary(reports + [r]) ==
      if |reports| == 0 then ReportEntry(r) else ReportSummary(reports) + ", " + ReportEntry(r)
  {
    assert ReportEntries(reports + [r]) == ReportEntries(reports) + [ReportEntry(r)];
    Text.JoinAppend(ReportEntries(reports), ReportEntry(r), ", ");
  }

  /** The prompt says "None" exactly when there are no reports: every entry
      contains ':', which "None" does not. */
  lemma ReportsClauseNone(reports: seq<CommunityReport>)
    ensures ReportSummary([]) == ""
    ensures ReportsClause(reports) == "None" <==> |reports| == 0
  {
    if |reports| > 0 {
      var entries := ReportEntries(reports);
      var summary := ReportSummary(reports);
      var first := ReportEntry(reports[0]);
      Text.JoinStartsWithFirst(entries, ", ");
      assert summary[..|first|] == first;
      var colon := |reports[0].issueType|;
      assert first[colon] == ':';
      assert summary[colon] == ':';
      assert ':' !in "None";
      assert ':' in summary;
      assert summary != "";
    }
  }

  /** The score of the fallback: below 300 Safe, below 600 Risk, else Unsafe. */
  function FallbackScore(tds: real): (s: Score)
    ensures s == Safe <==> tds < 300.0
    ensures s == Risk <==> 300.0 <= tds < 600.0
    ensures s == Unsafe <==> 600.0 <= tds
  {
    if tds < 300.0 then Safe else if tds < 600.0 then Risk else Unsafe
  }

  /** The recommendation paired with each fallback score. */
  function Recommendation(s: Score): string {
    match s
    case Safe => "Drink Directly"
    case Risk => "Filter"
    case Unsafe => "Avoid"
  }

  const FallbackExplanation: string := "Analysis based on standard TDS thresholds."

  /** The assessment returned when `JSON.parse` throws. */
  function FallbackAnalysis(tds: real): (a: WaterAnalysis)
    ensures a.score == FallbackScore(tds).Name()
    ensures a.recommendation == Recommendation(FallbackScore(tds))
    ensures a.tdsLevel == tds
    ensures a.explanation == FallbackExplanation
    ensures a.sideEffects == if tds > 500.0 then ["Stomach upset", "Mineral buildup in body"] else ["None expected"]
    ensures a.improvementTips == if tds > 300.0 then ["Use a RO filter", "Boil before drinking"] else ["Keep storage clean"]
  {
    WaterAnalysis(
      if tds < 300.0 then "Safe" else if tds < 600.0 then "Risk" else "Unsafe",
      tds,
      if tds < 300.0 then "Drink Directly" else if tds < 600.0 then "Filter" else "Avoid",
      FallbackExplanation,
      if tds > 500.0 then ["Stomach upset", "Mineral buildup in body"] else ["None expected"],
      if tds > 300.0 then ["Use a RO filter", "Boil before drinking"] else ["Keep storage clean"])
  }

  /** The fallback always has something to show in both lists, and a higher
      reading never gets a milder score. */
  lemma FallbackComplete(tds: real, higher: real)
    requires tds <= higher
    ensures |FallbackAnalysis(tds).sideEffects| > 0 && |FallbackAnalysis(tds).improvementTips| > 0
    ensures FallbackScore(tds).Rank() <= FallbackScore(higher).Rank()
    ensures FallbackAnalysis(tds).score in {"Safe", "Risk", "Unsafe"}
  {
  }

  /** The boundaries: 300 is Risk with the RO tips only above it, 600 is Unsafe,
      side effects appear only above 500. */
  lemma FallbackBoundaries()
    ensures FallbackAnalysis(299.0).score == "Safe"
    ensures FallbackAnalysis(300.0).score == "Risk"
    ensures FallbackAnalysis(300.0).improvementTips == ["Keep storage clean"]
    ensures FallbackAnalysis(500.0).sideEffects == ["None expected"]
    ensures FallbackAnalysis(599.0).score == "Risk"
    ensures FallbackAnalysis(600.0).score == "Unsafe"
  {
  }

  /** The outcome of `ai.models.generateContent`: a reply whose `text` may be
      missing (`None`), or a failure, which is not caught here. */
  datatype ModelResponse = Responded(text: Option<string>) | CallFailed

  /** `response.text || "{}"`. */
  function ReplyText(text: Option<string>): string {
    match text
    case None => "{}"
    case Some(t) => if t == "" then "{}" else t
  }

  /** `analyzeWaterQuality(tds, reports)`. `model(tds, clause)` stands for the
      request whose prompt carries `tds` and `ReportsClause(reports)`;
      `parse(text)` is `None` where `JSON.parse` throws. A failed call
      propagates as `Failure`. */
  function AnalyzeWaterQuality(tds: real, reports: seq<CommunityReport>,
                               model: (real, string) -> ModelResponse,
                               parse: string -> Option<WaterAnalysis>): (r: Result<WaterAnalysis, string>)
    ensures model(tds, ReportsClause(reports)).CallFailed? <==> r.Failure?
    ensures model(tds, ReportsClause(reports)).Responded? ==>
      var parsed := parse(ReplyText(model(tds, ReportsClause(reports)).text));
      r == Success(if parsed.Some? then parsed.value else FallbackAnalysis(tds))
  {
    match model(tds, ReportsClause(reports))
    case CallFailed => Failure("generateContent failed")
    case Responded(text) =>
      match parse(ReplyText(text))
      case Some(analysis) => Success(analysis)
      case None => Success(FallbackAnalysis(tds))
  }

  /** A reply that parses is returned as it is; one that does not gives the
      fallback for the same tds; an empty reply is parsed as "{}". */
  lemma AnalyzeOutcomes(tds: real, reports: seq<CommunityReport>,
                        model: (real, string) -> ModelResponse,
                        parse: string -> Option<WaterAnalysis>)
    requires model(tds, ReportsClause(reports)) == Responded(Some("")) ||
             model(tds, ReportsClause(reports)) == Responded(None)
    ensures AnalyzeWaterQuality(tds, reports, model, parse) ==
      Success(if parse("{}").Some? then parse("{}").value else FallbackAnalysis(tds))
  {
  }
}
