/** Concrete analyses: an empty transcript, a short transcript with one task
    and one decision, and a missing token. */
module Scenarios {
  import opened Wrappers
  import opened MeetingData
  import opened Text
  import NamePool
  import MeetingSummary
  import ActionPoints
  import Decisions
  import opened MeetingAnalyzer

  /** What the scans find in the empty transcript: nothing. */
  const EmptyExtraction: Extraction := Extraction([], [], [], [], [], [], [], [], [], [], [])

  /** The empty transcript gets the generic summary and the two fixed action
      points and decisions, with the fixed people since no name was found. */
  lemma EmptyTranscript()
    ensures AnalysisOf(EmptyExtraction) == Analysis(
      MeetingSummary.GenericSummary,
      [ActionPoint(ActionPoints.FollowUpTask, ActionPoints.TeamLead, ActionPoints.NextWeek),
       ActionPoint(ActionPoints.ScheduleTask, ActionPoints.ProjectManager, ActionPoints.Friday)],
      [Decisions.ContinueDecision, Decisions.ReviewDecision])
  {
    MeetingSummary.SummaryGenericIff(EmptyExtraction);
    assert NamePool.UniqueNames([]) == [];
  }

  const Falcon: string := "Project Falcon"
  const Smith: string := "John Smith"
  const Jan5: string := "Jan 5th"
  /** The two verb-led sentences, "complete the onboarding doc by Jan 5th."
      and "approve the budget for Project Falcon.", written around the text
      after their first lower-case "t", and what they are cleaned to. The
      split keeps the solver's cost down: slicing a whole literal is costly. */
  const TaskTail: string := "he onboarding doc by Jan 5th."
  const DecisionTail: string := "he budget for Project Falcon."
  const TaskFragment: string := "complete t" + TaskTail
  const DecisionFragment: string := "approve t" + DecisionTail
  const TaskResult: string := "T" + TaskTail
  const DecisionResult: string := "T" + DecisionTail

  /** The scans of "We decided to approve the budget for Project Falcon. John
      Smith will complete the onboarding doc by Jan 5th.": two two-word
      capitalised names, one date, one project, one task sentence and one
      decision sentence ("decided" is not followed by white space, so the
      decision sentence starts at "approve"). */
  const FalconExtraction: Extraction :=
    Extraction([Falcon, Smith], [], [Jan5], [], [Falcon], [], [], [], [], [TaskFragment], [DecisionFragment])

  /** A text opening with `kw` and a single space before a non-space
      opens with that keyword, whose white space ends one further on. */
  lemma OpensWithKeyword(t: string, kw: string)
    requires |kw| + 1 < |t| && t[..|kw|] == kw
    requires t[|kw|] == ' ' && !IsSpace(t[|kw| + 1])
    ensures HasKeywordPrefix(t, kw) && SkipSpaces(t, |kw|) == |kw| + 1
  {
  }

  lemma TaskFragmentTrimmed()
    ensures Trim(TaskFragment) == TaskFragment
  {
    TrimSlice(TaskFragment);
    assert !IsSpace(TaskFragment[0]) && !IsSpace(TaskFragment[|TaskFragment| - 1]);
  }

  lemma TaskFragmentOpening()
    ensures TaskFragment[..8] == ActionPoints.TaskKeywords[0]
    ensures TaskFragment[8] == ' ' && TaskFragment[9] == 't'
  {
  }

  lemma DecisionFragmentTrimmed()
    ensures Trim(DecisionFragment) == DecisionFragment
  {
    TrimSlice(DecisionFragment);
    assert !IsSpace(DecisionFragment[0]) && !IsSpace(DecisionFragment[|DecisionFragment| - 1]);
  }

  lemma DecisionFragmentOpening()
    ensures DecisionFragment[..7] == Decisions.DecisionKeywords[1]
    ensures DecisionFragment[7] == ' ' && DecisionFragment[8] == 't'
  {
  }

  /** The sample's task sentence loses "complete" and its space. */
  lemma TaskFragmentClean()
    ensures Clean(TaskFragment, ActionPoints.TaskKeywords) == Capitalize(TaskFragment[9..])
  {
    TaskFragmentTrimmed();
    TaskFragmentOpening();
    OpensWithKeyword(TaskFragment, ActionPoints.TaskKeywords[0]);
    ActionPoints.TaskCleanup(TaskFragment);
  }

  /** The decision sentence loses "approve" and its space. */
  lemma DecisionFragmentClean()
    ensures Clean(DecisionFragment, Decisions.DecisionKeywords) == Capitalize(DecisionFragment[8..])
  {
    DecisionFragmentTrimmed();
    DecisionFragmentOpening();
    OpensWithKeyword(DecisionFragment, Decisions.DecisionKeywords[1]);
    Decisions.DecisionCleanup(DecisionFragment);
  }

  /** The rest of the task sentence, capitalised. */
  lemma TaskResultText()
    ensures Capitalize(TaskFragment[9..]) == TaskResult
  {
    assert TaskFragment[9..] == "t" + TaskTail;
  }

  /** The rest of the decision sentence, capitalised. */
  lemma DecisionResultText()
    ensures Capitalize(DecisionFragment[8..]) == DecisionResult
  {
    assert DecisionFragment[8..] == "t" + DecisionTail;
  }

  /** The name pool of the scenario keeps both names in the order found. */
  lemma FalconNames()
    ensures NamePool.UniqueNames(FalconExtraction.nameMatches) == [Falcon, Smith]
  {
    assert [Falcon, Smith][..1] == [Falcon];
    assert NamePool.Distinct([Falcon]) == [Falcon];
    assert Smith != Falcon;
  }

  /** The summary mentions the project, the only summarised category found. */
  lemma FalconSummary()
    ensures AnalysisOf(FalconExtraction).summary ==
      MeetingSummary.ProjectOpening + Falcon + MeetingSummary.ProjectClosing
  {
    MeetingSummary.SummaryConcatenation(FalconExtraction);
    ConcatSingle(MeetingSummary.ProjectOpening + Falcon + MeetingSummary.ProjectClosing);
  }

  /** The one task goes to the first name found, "Project Falcon" (which the
      name scan finds before "John Smith"), with its date as deadline, and
      loses its leading "complete ". */
  lemma FalconActionPoints()
    ensures AnalysisOf(FalconExtraction).actionPoints ==
      [ActionPoint(TaskResult, Falcon, Jan5)]
  {
    FalconNames();
    TaskFragmentClean();
    TaskResultText();
    ActionPoints.TaskTierItems(FalconExtraction, [Falcon, Smith]);
  }

  /** The one decision is the decision sentence without its leading
      "approve ". */
  lemma FalconDecisions()
    ensures AnalysisOf(FalconExtraction).decisions == [DecisionResult]
  {
    DecisionFragmentClean();
    DecisionResultText();
    Decisions.DecisionTierItems(FalconExtraction);
  }

  /** Without a token, or with an empty one, the analysis fails with the
      missing-token message whatever the transcript held. */
  method MissingToken(ex: Extraction) returns (r: Result<Analysis>)
    ensures r == Failure(MissingTokenMessage)
  {
    r := AnalyzeMeeting(None, ex);
    var s := AnalyzeMeeting(Some(""), ex);
    assert s == r;
  }
}
