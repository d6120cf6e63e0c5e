/** The decisions: up to three taken from sentences led by a decision verb;
    failing those, one per money, project, technology and problem match;
    failing those, two fixed decisions. */
module Decisions {
  import opened Text
  import opened MeetingData

  const DecisionKeywords: seq<string> :=
    ["decide", "approve", "agree", "choose", "select", "finalize", "confirm"]

  const BudgetOpening: string := "Allocate budget of "
  const BudgetClosing: string := " for priority initiatives"
  const ProceedOpening: string := "Proceed with "
  const ProceedClosing: string := " implementation"
  const AdoptOpening: string := "Adopt "
  const AdoptClosing: string := " for future development"
  const SolveOpening: string := "Implement solutions for "
  const SolveClosing: string := " challenges"
  const ContinueDecision: string := "Continue with current strategic direction"
  const ReviewDecision: string := "Schedule follow-up review"

  /** The most decisions the second tier can give: one per category. */
  const MaxDecisions: nat := 4

  /** First tier: the first three verb-led sentences, cleaned, in order. */
  function DecisionTier(ex: Extraction): seq<string>
  {
    CleanAll(ex.decisionMatches, DecisionKeywords)[..Min(MaxMatched, |ex.decisionMatches|)]
  }

  /** The second-tier decision each category contributes: one when it has a
      match, none otherwise. */
  function MoneyPart(ex: Extraction): seq<string>
  {
    if |ex.money| > 0 then [BudgetOpening + ex.money[0] + BudgetClosing] else []
  }

  function ProjectPart(ex: Extraction): seq<string>
  {
    if |ex.projects| > 0 then [ProceedOpening + ex.projects[0] + ProceedClosing] else []
  }

  function TechnologyPart(ex: Extraction): seq<string>
  {
    if |ex.technologies| > 0 then [AdoptOpening + ex.technologies[0] + AdoptClosing] else []
  }

  function ProblemPart(ex: Extraction): seq<string>
  {
    if |ex.problems| > 0 then [SolveOpening + ex.problems[0] + SolveClosing] else []
  }

  /** Second tier: the money, project, technology and problem decisions, in
      that order. */
  function CategoryTier(ex: Extraction): seq<string>
  {
    MoneyPart(ex) + ProjectPart(ex) + TechnologyPart(ex) + ProblemPart(ex)
  }

  /** Third tier: the two fixed decisions. */
  function DefaultTier(): seq<string>
  {
    [ContinueDecision, ReviewDecision]
  }

  /** The decisions: the first tier that yields anything. */
  function DecisionsOf(ex: Extraction): seq<string>
  {
    if |ex.decisionMatches| > 0 then DecisionTier(ex)
    else if |CategoryTier(ex)| > 0 then CategoryTier(ex)
    else DefaultTier()
  }

  /** With verb-led sentences present, decision i is sentence i cleaned, for
      the first three sentences. */
  lemma DecisionTierItems(ex: Extraction)
    requires |ex.decisionMatches| > 0
    ensures var d := DecisionsOf(ex);
      && |d| == Min(MaxMatched, |ex.decisionMatches|)
      && forall i :: 0 <= i < |d| ==> d[i] == Clean(ex.decisionMatches[i], DecisionKeywords)
  {
  }

  /** Without verb-led sentences, but with a money, project, technology or
      problem match, there is one decision per matched category, in the
      order money, project, technology, problem, each at the position the
      earlier matched categories leave for it. */
  lemma CategoryTierItems(ex: Extraction)
    requires |ex.decisionMatches| == 0
    requires |ex.money| > 0 || |ex.projects| > 0 || |ex.technologies| > 0 || |ex.problems| > 0
    ensures var d := DecisionsOf(ex);
      var m, p, t := Flag(|ex.money| > 0), Flag(|ex.projects| > 0), Flag(|ex.technologies| > 0);
      && |d| == m + p + t + Flag(|ex.problems| > 0)
      && (|ex.money| > 0 ==> d[0] == BudgetOpening + ex.money[0] + BudgetClosing)
      && (|ex.projects| > 0 ==> d[m] == ProceedOpening + ex.projects[0] + ProceedClosing)
      && (|ex.technologies| > 0 ==> d[m + p] == AdoptOpening + ex.technologies[0] + AdoptClosing)
      && (|ex.problems| > 0 ==> d[m + p + t] == SolveOpening + ex.problems[0] + SolveClosing)
  {
  }

  /** With no verb-led sentence and no money, project, technology or problem
      match, the decisions are exactly the two fixed ones. */
  lemma DefaultTierItems(ex: Extraction)
    requires |ex.decisionMatches| == 0 && |ex.money| == 0 && |ex.projects| == 0
    requires |ex.technologies| == 0 && |ex.problems| == 0
    ensures DecisionsOf(ex) == [ContinueDecision, ReviewDecision]
  {
  }

  /** There are always between one and four decisions, and at most three
      when verb-led sentences exist. */
  lemma DecisionCount(ex: Extraction)
    ensures 1 <= |DecisionsOf(ex)| <= MaxDecisions
    ensures |ex.decisionMatches| > 0 ==> |DecisionsOf(ex)| <= MaxMatched
  {
  }

  /** The listed verbs are distinct lower-case words. */
  lemma DecisionKeywordsListed()
    ensures KeywordList(DecisionKeywords)
  {
  }

  /** Clean-up of a verb-led sentence: once trimmed, a sentence opening with
      a listed verb (in any ASCII case) and white space loses that verb and
      the white space after it; one opening with none is kept; either way only
      the first character is then upper-cased. */
  lemma DecisionCleanup(fragment: string)
    ensures var t := Trim(fragment);
      forall k :: 0 <= k < |DecisionKeywords| && HasKeywordPrefix(t, DecisionKeywords[k]) ==>
        Clean(fragment, DecisionKeywords) == Capitalize(t[SkipSpaces(t, |DecisionKeywords[k]|)..])
    ensures NoKeywordPrefix(Trim(fragment), DecisionKeywords) ==> Clean(fragment, DecisionKeywords) == Capitalize(Trim(fragment))
  {
    DecisionKeywordsListed();
    CleanListed(fragment, DecisionKeywords);
  }

  /** The forEach over the verb-led sentences: the first three, cleaned of
      the leading decision verb in `keywords`, are pushed in order; later
      ones are skipped. */
  method CollectDecisions(ex: Extraction, keywords: seq<string>) returns (decisions: seq<string>)
    ensures decisions == CleanAll(ex.decisionMatches, keywords)[..Min(MaxMatched, |ex.decisionMatches|)]
  {
    decisions := [];
    var index := 0;
    while index < |ex.decisionMatches|
      invariant index <= |ex.decisionMatches|
      invariant decisions == CleanAll(ex.decisionMatches, keywords)[..Min(MaxMatched, index)]
    {
      if index < MaxMatched {
        var cleanDecision := StripKeyword(Trim(ex.decisionMatches[index]), keywords);
        decisions := decisions + [Capitalize(cleanDecision)];
      }
      index := index + 1;
    }
  }

  /** The second tier's pushes onto the empty list. */
  method CollectCategoryDecisions(ex: Extraction) returns (decisions: seq<string>)
    ensures decisions == CategoryTier(ex)
  {
    decisions := [];
    if |ex.money| > 0 {
      decisions := decisions + [BudgetOpening + ex.money[0] + BudgetClosing];
    }
    assert decisions == MoneyPart(ex);
    if |ex.projects| > 0 {
      decisions := decisions + [ProceedOpening + ex.projects[0] + ProceedClosing];
    }
    assert decisions == MoneyPart(ex) + ProjectPart(ex);
    if |ex.technologies| > 0 {
      decisions := decisions + [AdoptOpening + ex.technologies[0] + AdoptClosing];
    }
    assert decisions == MoneyPart(ex) + ProjectPart(ex) + TechnologyPart(ex);
    if |ex.problems| > 0 {
      decisions := decisions + [SolveOpening + ex.problems[0] + SolveClosing];
    }
  }

  /** The three tiers: each later one runs only when the list is still
      empty, and the last replaces it by the fixed decisions. */
  method BuildDecisions(ex: Extraction) returns (decisions: seq<string>)
    ensures decisions == DecisionsOf(ex)
    ensures 1 <= |decisions| <= MaxDecisions
  {
    decisions := CollectDecisions(ex, DecisionKeywords);
    DecisionCount(ex);
    if |decisions| == 0 {
      decisions := CollectCategoryDecisions(ex);
    }
    if |decisions| == 0 {
      decisions := DefaultTier();
    }
  }
}
