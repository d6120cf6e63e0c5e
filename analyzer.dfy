/** The whole analysis: the credential guard, then the name pool, the
    summary, the action points and the decisions, built in that order from
    the fragments the transcript scans found. */
module MeetingAnalyzer {
  import opened Wrappers
  import opened MeetingData
  import NamePool
  import MeetingSummary
  import ActionPoints
  import Decisions

  const MissingTokenMessage: string :=
    "Hugging Face access token not found. " +
    "Please add VITE_HUGGINGFACE_ACCESS_TOKEN to your .env file"

  /** The configured token passes the guard when it is present and not the
      empty string (JavaScript's `!token` is true for both). */
  predicate HasAccessToken(accessToken: Option<string>)
  {
    accessToken.Some? && |accessToken.value| > 0
  }

  /** The analysis of a set of extracted fragments. */
  function AnalysisOf(ex: Extraction): Analysis
  {
    var names := NamePool.UniqueNames(ex.nameMatches);
    Analysis(MeetingSummary.Summary(ex), ActionPoints.ActionPointsOf(ex, names), Decisions.DecisionsOf(ex))
  }

  /** Every analysis has a non-empty summary, which is the generic sentence
      exactly when nothing summarisable was found, one to three action
      points and one to four decisions. */
  lemma AnalysisShape(ex: Extraction)
    ensures AnalysisOf(ex).summary != ""
    ensures AnalysisOf(ex).summary == MeetingSummary.GenericSummary <==> MeetingSummary.NothingToSummarize(ex)
    ensures 1 <= |AnalysisOf(ex).actionPoints| <= MaxMatched
    ensures 1 <= |AnalysisOf(ex).decisions| <= Decisions.MaxDecisions
  {
    MeetingSummary.SummaryGenericIff(ex);
    ActionPoints.ActionPointCount(ex, NamePool.UniqueNames(ex.nameMatches));
    Decisions.DecisionCount(ex);
  }

  /** The person of each verb-led action point is the distinct name found
      at its position (counting first occurrences in the transcript), or its
      numbered placeholder when fewer distinct names exist or that name is
      empty. */
  lemma TaskPersons(ex: Extraction)
    requires |ex.taskMatches| > 0
    ensures var d := NamePool.Distinct(ex.nameMatches);
      var ap := AnalysisOf(ex).actionPoints;
      forall i :: 0 <= i < |ap| ==>
        ap[i].person == if i < |d| && d[i] != "" then d[i] else ActionPoints.MemberPlaceholder(i)
  {
    var names := NamePool.UniqueNames(ex.nameMatches);
    ActionPoints.TaskTierItems(ex, names);
    NamePool.UniqueNamesPool(ex.nameMatches);
  }

  /** The analysis: fails on a missing token before looking at the
      fragments, and otherwise always returns the analysis. */
  method AnalyzeMeeting(accessToken: Option<string>, ex: Extraction) returns (r: Result<Analysis>)
    ensures r.Failure? <==> !HasAccessToken(accessToken)
    ensures r.Failure? ==> r.error == MissingTokenMessage
    ensures r.Success? ==> r.value == AnalysisOf(ex)
    ensures r.Success? ==> r.value.summary != ""
    ensures r.Success? ==> 1 <= |r.value.actionPoints| <= MaxMatched
    ensures r.Success? ==> 1 <= |r.value.decisions| <= Decisions.MaxDecisions
  {
    if !HasAccessToken(accessToken) {
      return Failure(MissingTokenMessage);
    }
    var uniqueNames := NamePool.UniqueNames(ex.nameMatches);
    var summary := MeetingSummary.BuildSummary(ex);
    var actionPoints := ActionPoints.BuildActionPoints(ex, uniqueNames);
    var decisions := Decisions.BuildDecisions(ex);
    r := Success(Analysis(summary, actionPoints, decisions));
  }
}
