/** The action points: up to three taken from sentences led by a task verb;
    failing those, one per project, technology and problem match; failing
    those, two fixed items. */
module ActionPoints {
  import opened Text
  import opened MeetingData

  const TaskKeywords: seq<string> :=
    ["complete", "finish", "deliver", "submit", "prepare", "review", "update", "implement", "launch", "deploy"]

  const TeamMemberLabel: string := "Team Member "
  const Asap: string := "ASAP"
  const NextWeek: string := "Next week"
  const CompleteOpening: string := "Complete "
  const DeliverablesClosing: string := " deliverables"
  const ProjectLead: string := "Project Lead"
  const EndOfMonth: string := "End of month"
  const ImplementOpening: string := "Implement "
  const ImprovementsClosing: string := " improvements"
  const TechnicalLead: string := "Technical Lead"
  const ThisWeek: string := "This week"
  const NextSprint: string := "Next sprint"
  const AddressOpening: string := "Address identified "
  const IssuesClosing: string := " issues"
  const TeamLead: string := "Team Lead"
  const FollowUpTask: string := "Follow up on meeting outcomes"
  const ScheduleTask: string := "Schedule next review meeting"
  const ProjectManager: string := "Project Manager"
  const Friday: string := "Friday"

  /** The numbered placeholder for the i-th (0-based) verb-led task. */
  function MemberPlaceholder(i: nat): string
  {
    TeamMemberLabel + NatToString(i + 1)
  }

  /** The action point of the i-th verb-led sentence, cleaned to `task`: the
      i-th pooled name or its numbered placeholder, and the i-th date or an
      urgency-dependent default. */
  function TaskActionPoint(ex: Extraction, names: seq<string>, task: string, i: nat): ActionPoint
  {
    ActionPoint(
      task,
      ElementOr(names, i, MemberPlaceholder(i)),
      ElementOr(ex.dates, i, if |ex.urgency| > 0 then Asap else NextWeek))
  }

  /** The action points of the first `n` cleaned sentences, in order. */
  function TaskItems(ex: Extraction, names: seq<string>, tasks: seq<string>, n: nat): seq<ActionPoint>
    requires n <= |tasks|
  {
    if n == 0 then [] else TaskItems(ex, names, tasks, n - 1) + [TaskActionPoint(ex, names, tasks[n - 1], n - 1)]
  }

  /** Item i of the first `n` is the action point of sentence i. */
  lemma {:induction false} TaskItemsAt(ex: Extraction, names: seq<string>, tasks: seq<string>, n: nat)
    requires n <= |tasks|
    ensures |TaskItems(ex, names, tasks, n)| == n
    ensures forall i :: 0 <= i < n ==>
      TaskItems(ex, names, tasks, n)[i] == TaskActionPoint(ex, names, tasks[i], i)
  {
    if n > 0 {
      TaskItemsAt(ex, names, tasks, n - 1);
    }
  }

  /** First tier: the first three verb-led sentences. */
  function TaskTier(ex: Extraction, names: seq<string>): seq<ActionPoint>
  {
    TaskItems(ex, names, CleanAll(ex.taskMatches, TaskKeywords), Min(MaxMatched, |ex.taskMatches|))
  }

  function ProjectItem(project: string, names: seq<string>, dates: seq<string>): ActionPoint
  {
    ActionPoint(CompleteOpening + project + DeliverablesClosing,
                ElementOr(names, 0, ProjectLead), ElementOr(dates, 0, EndOfMonth))
  }

  function TechnologyItem(technology: string, names: seq<string>, urgent: bool): ActionPoint
  {
    ActionPoint(ImplementOpening + technology + ImprovementsClosing,
                ElementOr(names, 1, TechnicalLead), if urgent then ThisWeek else NextSprint)
  }

  function ProblemItem(problem: string, names: seq<string>, urgent: bool): ActionPoint
  {
    ActionPoint(AddressOpening + problem + IssuesClosing,
                ElementOr(names, 2, TeamLead), if urgent then Asap else NextWeek)
  }

  /** The second-tier item each category contributes: one when it has a
      match, none otherwise. */
  function ProjectPart(ex: Extraction, names: seq<string>): seq<ActionPoint>
  {
    if |ex.projects| > 0 then [ProjectItem(ex.projects[0], names, ex.dates)] else []
  }

  function TechnologyPart(ex: Extraction, names: seq<string>): seq<ActionPoint>
  {
    if |ex.technologies| > 0 then [TechnologyItem(ex.technologies[0], names, |ex.urgency| > 0)] else []
  }

  function ProblemPart(ex: Extraction, names: seq<string>): seq<ActionPoint>
  {
    if |ex.problems| > 0 then [ProblemItem(ex.problems[0], names, |ex.urgency| > 0)] else []
  }

  /** Second tier: the project, technology and problem items, in that order. */
  function CategoryTier(ex: Extraction, names: seq<string>): seq<ActionPoint>
  {
    ProjectPart(ex, names) + TechnologyPart(ex, names) + ProblemPart(ex, names)
  }

  /** Third tier: the two fixed items. */
  function DefaultTier(names: seq<string>): seq<ActionPoint>
  {
    [ActionPoint(FollowUpTask, ElementOr(names, 0, TeamLead), NextWeek),
     ActionPoint(ScheduleTask, ElementOr(names, 1, ProjectManager), Friday)]
  }

  /** The action points: the first tier that yields anything. */
  function ActionPointsOf(ex: Extraction, names: seq<string>): seq<ActionPoint>
  {
    if |ex.taskMatches| > 0 then TaskTier(ex, names)
    else if |CategoryTier(ex, names)| > 0 then CategoryTier(ex, names)
    else DefaultTier(names)
  }

  /** With verb-led sentences present, item i comes from sentence i, for the
      first three sentences: its person is pooled name i or "Team Member
      i+1", its deadline date i or, failing that, "ASAP" under urgency and
      "Next week" otherwise. */
  lemma TaskTierItems(ex: Extraction, names: seq<string>)
    requires |ex.taskMatches| > 0
    ensures var ap := ActionPointsOf(ex, names);
      && |ap| == Min(MaxMatched, |ex.taskMatches|)
      && forall i :: 0 <= i < |ap| ==>
           && ap[i].task == Clean(ex.taskMatches[i], TaskKeywords)
           && ap[i].person == (if i < |names| && names[i] != "" then names[i] else TeamMemberLabel + NatToString(i + 1))
           && ap[i].deadline == (if i < |ex.dates| && ex.dates[i] != "" then ex.dates[i]
                                 else if |ex.urgency| > 0 then Asap else NextWeek)
  {
    TaskItemsAt(ex, names, CleanAll(ex.taskMatches, TaskKeywords), Min(MaxMatched, |ex.taskMatches|));
  }

  /** Without verb-led sentences, but with a project, technology or problem
      match, there is one item per matched category, in the order project,
      technology, problem, each at the position the earlier matched
      categories leave for it. */
  lemma CategoryTierItems(ex: Extraction, names: seq<string>)
    requires |ex.taskMatches| == 0
    requires |ex.projects| > 0 || |ex.technologies| > 0 || |ex.problems| > 0
    ensures var ap := ActionPointsOf(ex, names);
      var p, t := Flag(|ex.projects| > 0), Flag(|ex.technologies| > 0);
      && |ap| == p + t + Flag(|ex.problems| > 0)
      && (|ex.projects| > 0 ==>
            ap[0] == ActionPoint(CompleteOpening + ex.projects[0] + DeliverablesClosing,
                                 ElementOr(names, 0, ProjectLead), ElementOr(ex.dates, 0, EndOfMonth)))
      && (|ex.technologies| > 0 ==>
            ap[p] == ActionPoint(ImplementOpening + ex.technologies[0] + ImprovementsClosing,
                                 ElementOr(names, 1, TechnicalLead),
                                 if |ex.urgency| > 0 then ThisWeek else NextSprint))
      && (|ex.problems| > 0 ==>
            ap[p + t] == ActionPoint(AddressOpening + ex.problems[0] + IssuesClosing,
                                     ElementOr(names, 2, TeamLead),
                                     if |ex.urgency| > 0 then Asap else NextWeek))
  {
  }

  /** With no verb-led sentence and no project, technology or problem match,
      the action points are exactly the two fixed items. */
  lemma DefaultTierItems(ex: Extraction, names: seq<string>)
    requires |ex.taskMatches| == 0 && |ex.projects| == 0 && |ex.technologies| == 0 && |ex.problems| == 0
    ensures ActionPointsOf(ex, names) ==
      [ActionPoint(FollowUpTask, ElementOr(names, 0, TeamLead), NextWeek),
       ActionPoint(ScheduleTask, ElementOr(names, 1, ProjectManager), Friday)]
  {
  }

  /** There are always between one and three action points. */
  lemma ActionPointCount(ex: Extraction, names: seq<string>)
    ensures 1 <= |ActionPointsOf(ex, names)| <= MaxMatched
  {
    TaskItemsAt(ex, names, CleanAll(ex.taskMatches, TaskKeywords), Min(MaxMatched, |ex.taskMatches|));
  }

  /** The listed verbs are distinct lower-case words. */
  lemma TaskKeywordsListed()
    ensures KeywordList(TaskKeywords)
  {
  }

  /** Clean-up of a verb-led sentence: once trimmed, a sentence opening with
      a listed verb (in any ASCII case) and white space loses that verb and
      the white space after it; one opening with none is kept; either way only
      the first character is then upper-cased. */
  lemma TaskCleanup(fragment: string)
    ensures var t := Trim(fragment);
      forall k :: 0 <= k < |TaskKeywords| && HasKeywordPrefix(t, TaskKeywords[k]) ==>
        Clean(fragment, TaskKeywords) == Capitalize(t[SkipSpaces(t, |TaskKeywords[k]|)..])
    ensures NoKeywordPrefix(Trim(fragment), TaskKeywords) ==> Clean(fragment, TaskKeywords) == Capitalize(Trim(fragment))
  {
    TaskKeywordsListed();
    CleanListed(fragment, TaskKeywords);
  }

  /** The forEach over the verb-led sentences: the first three become action
      points, cleaned of the leading task verb in `keywords`, pushed in
      order; later ones are skipped. */
  method CollectTaskItems(ex: Extraction, uniqueNames: seq<string>, keywords: seq<string>) returns (actionPoints: seq<ActionPoint>)
    ensures actionPoints == TaskItems(ex, uniqueNames, CleanAll(ex.taskMatches, keywords), Min(MaxMatched, |ex.taskMatches|))
  {
    actionPoints := [];
    var index := 0;
    while index < |ex.taskMatches|
      invariant index <= |ex.taskMatches|
      invariant actionPoints == TaskItems(ex, uniqueNames, CleanAll(ex.taskMatches, keywords), Min(MaxMatched, index))
    {
      if index < MaxMatched {
        var cleanTask := StripKeyword(Trim(ex.taskMatches[index]), keywords);
        var item := ActionPoint(
          Capitalize(cleanTask),
          ElementOr(uniqueNames, index, TeamMemberLabel + NatToString(index + 1)),
          ElementOr(ex.dates, index, if |ex.urgency| > 0 then Asap else NextWeek));
        assert item == TaskActionPoint(ex, uniqueNames, CleanAll(ex.taskMatches, keywords)[index], index);
        actionPoints := actionPoints + [item];
      }
      index := index + 1;
    }
  }

  /** The second tier's pushes onto the empty list. */
  method CollectCategoryItems(ex: Extraction, uniqueNames: seq<string>) returns (actionPoints: seq<ActionPoint>)
    ensures actionPoints == CategoryTier(ex, uniqueNames)
  {
    actionPoints := [];
    if |ex.projects| > 0 {
      actionPoints := actionPoints + [ProjectItem(ex.projects[0], uniqueNames, ex.dates)];
    }
    assert actionPoints == ProjectPart(ex, uniqueNames);
    if |ex.technologies| > 0 {
      actionPoints := actionPoints + [TechnologyItem(ex.technologies[0], uniqueNames, |ex.urgency| > 0)];
    }
    assert actionPoints == ProjectPart(ex, uniqueNames) + TechnologyPart(ex, uniqueNames);
    if |ex.problems| > 0 {
      actionPoints := actionPoints + [ProblemItem(ex.problems[0], uniqueNames, |ex.urgency| > 0)];
    }
  }

  /** The three tiers: each later one runs only when the list is still
      empty, and the last replaces it by the fixed items. */
  method BuildActionPoints(ex: Extraction, uniqueNames: seq<string>) returns (actionPoints: seq<ActionPoint>)
    ensures actionPoints == ActionPointsOf(ex, uniqueNames)
    ensures 1 <= |actionPoints| <= MaxMatched
  {
    actionPoints := CollectTaskItems(ex, uniqueNames, TaskKeywords);
    ActionPointCount(ex, uniqueNames);
    if |actionPoints| == 0 {
      actionPoints := CollectCategoryItems(ex, uniqueNames);
    }
    if |actionPoints| == 0 {
      actionPoints := DefaultTier(uniqueNames);
    }
  }
}
