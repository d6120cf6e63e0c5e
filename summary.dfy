/** The meeting summary: one sentence per kind of match found, in a fixed
    order, or a generic sentence when none was found. */
module MeetingSummary {
  import opened Text
  import opened MeetingData

  // The sentences of src/huggingfaceService.ts:48-64, word for word. The longer ones are written as
  // two pieces only because the proofs read single characters of them, which
  // the solver finds far cheaper in a short piece than in a long literal.
  const ProjectOpening: string := "The team discussed "
  const ProjectClosing: string := " and related initiatives. "
  const ProblemOpening: string := "Key challenges were identified including "
  const SolutionSentence: string := "The team proposed solutions " + "to address these issues. "
  const NumberOpening: string := "Important metrics and targets " + "were reviewed, including "
  const UrgencyOpening: string := "Several "
  const UrgencyClosing: string := " items require immediate attention."
  const ItemSeparator: string := " and "
  const SentenceEnd: string := ". "

  const GenericSummary: string :=
    "The team conducted a comprehensive meeting " + "covering multiple agenda items and strategic discussions."

  /** items.slice(0, 2).join(' and '): the first item, or the first two joined,
      and nothing of the items after them. */
  function FirstTwo(items: seq<string>): (r: string)
    ensures |items| == 0 ==> r == ""
    ensures |items| == 1 ==> r == items[0]
    ensures |items| >= 2 ==> r == items[0] + ItemSeparator + items[1]
  {
    var two := items[..Min(2, |items|)];
    if |two| == 2 then
      assert two[1..] == [items[1]];
      assert Join(two[1..], ItemSeparator) == items[1];
      Join(two, ItemSeparator)
    else
      Join(two, ItemSeparator)
  }

  function ProjectSentence(project: string): string
  {
    ProjectOpening + project + ProjectClosing
  }

  function ProblemSentence(problems: seq<string>): string
  {
    ProblemOpening + FirstTwo(problems) + SentenceEnd
  }

  function NumberSentence(numbers: seq<string>): string
  {
    NumberOpening + FirstTwo(numbers) + SentenceEnd
  }

  function UrgencySentence(urgent: string): string
  {
    UrgencyOpening + urgent + UrgencyClosing
  }

  /** The sentence each kind of match contributes: one when the kind has a
      match, none otherwise. */
  function ProjectPart(ex: Extraction): seq<string>
  {
    if |ex.projects| > 0 then [ProjectSentence(ex.projects[0])] else []
  }

  function ProblemPart(ex: Extraction): seq<string>
  {
    if |ex.problems| > 0 then [ProblemSentence(ex.problems)] else []
  }

  function SolutionPart(ex: Extraction): seq<string>
  {
    if |ex.solutions| > 0 then [SolutionSentence] else []
  }

  function NumberPart(ex: Extraction): seq<string>
  {
    if |ex.numbers| > 0 then [NumberSentence(ex.numbers)] else []
  }

  function UrgencyPart(ex: Extraction): seq<string>
  {
    if |ex.urgency| > 0 then [UrgencySentence(ex.urgency[0])] else []
  }

  /** The summary's sentences in their fixed order: project, problems,
      solutions, numbers, urgency. */
  function SummarySentences(ex: Extraction): seq<string>
  {
    ProjectPart(ex) + ProblemPart(ex) + SolutionPart(ex) + NumberPart(ex) + UrgencyPart(ex)
  }

  /** None of the five kinds has a match. */
  predicate NothingToSummarize(ex: Extraction)
  {
    |ex.projects| == 0 && |ex.problems| == 0 && |ex.solutions| == 0
    && |ex.numbers| == 0 && |ex.urgency| == 0
  }

  /** The text as it stands after the first `k` + 1 of the five conditional
      appends (the first one assigns). */
  function TextAfter(ex: Extraction, k: nat): string
    requires k < 5
  {
    if k == 0 then
      if |ex.projects| > 0 then ProjectSentence(ex.projects[0]) else ""
    else
      var s := TextAfter(ex, k - 1);
      if k == 1 then (if |ex.problems| > 0 then s + ProblemSentence(ex.problems) else s)
      else if k == 2 then (if |ex.solutions| > 0 then s + SolutionSentence else s)
      else if k == 3 then (if |ex.numbers| > 0 then s + NumberSentence(ex.numbers) else s)
      else (if |ex.urgency| > 0 then s + UrgencySentence(ex.urgency[0]) else s)
  }

  function SummaryText(ex: Extraction): string
  {
    TextAfter(ex, 4)
  }

  /** The summary: the appended text, or the generic sentence when it is
      empty. */
  function Summary(ex: Extraction): string
  {
    var s := SummaryText(ex);
    if |s| == 0 then GenericSummary else s
  }

  /** Appending a part that holds at most one sentence appends that sentence
      or nothing. */
  lemma AppendPart(ss: seq<string>, s: string, part: seq<string>)
    requires Concat(ss) == s && |part| <= 1
    ensures Concat(ss + part) == if |part| == 1 then s + part[0] else s
  {
    ConcatAppend(ss, part);
    if |part| == 1 {
      ConcatSingle(part[0]);
    }
  }

  /** The appended text is the concatenation of the summary's sentences. */
  lemma TextIsConcatenation(ex: Extraction)
    ensures SummaryText(ex) == Concat(SummarySentences(ex))
  {
    var l0, l1, l2, l3 := ProjectPart(ex), ProblemPart(ex), SolutionPart(ex), NumberPart(ex);
    assert Concat(l0) == TextAfter(ex, 0) by {
      if |ex.projects| > 0 {
        ConcatSingle(TextAfter(ex, 0));
      }
    }
    AppendPart(l0, TextAfter(ex, 0), l1);
    AppendPart(l0 + l1, TextAfter(ex, 1), l2);
    AppendPart(l0 + l1 + l2, TextAfter(ex, 2), l3);
    AppendPart(l0 + l1 + l2 + l3, TextAfter(ex, 3), UrgencyPart(ex));
  }

  /** One sentence per kind that has a match, each at the position the
      earlier kinds with a match leave for it. */
  lemma SentencePositions(ex: Extraction)
    ensures var ss := SummarySentences(ex);
      var p, pr := Flag(|ex.projects| > 0), Flag(|ex.problems| > 0);
      var so, nu := Flag(|ex.solutions| > 0), Flag(|ex.numbers| > 0);
      && |ss| == p + pr + so + nu + Flag(|ex.urgency| > 0)
      && (|ex.projects| > 0 ==> ss[0] == ProjectSentence(ex.projects[0]))
      && (|ex.problems| > 0 ==> ss[p] == ProblemSentence(ex.problems))
      && (|ex.solutions| > 0 ==> ss[p + pr] == SolutionSentence)
      && (|ex.numbers| > 0 ==> ss[p + pr + so] == NumberSentence(ex.numbers))
      && (|ex.urgency| > 0 ==> ss[p + pr + so + nu] == UrgencySentence(ex.urgency[0]))
  {
  }

  /** A text that cannot be the generic sentence: it has at least ten
      characters and differs from it at index 0 or 9. */
  predicate UnlikeGeneric(s: string)
  {
    |s| >= 10 && (s[0] != GenericSummary[0] || s[9] != GenericSummary[9])
  }

  /** The first sentence of a summary that has any differs from the start
      of the generic sentence. */
  lemma FirstSentenceUnlikeGeneric(ex: Extraction)
    requires !NothingToSummarize(ex)
    ensures |SummarySentences(ex)| > 0 && UnlikeGeneric(SummarySentences(ex)[0])
  {
    var ss := SummarySentences(ex);
    assert GenericSummary[0] == 'T' && GenericSummary[9] == 'c';
    if |ex.projects| > 0 {
      assert ss[0] == ProjectSentence(ex.projects[0]);
      assert ProjectOpening[9] == 'd';
    } else if |ex.problems| > 0 {
      assert ss[0] == ProblemSentence(ex.problems);
      assert ProblemOpening[0] == 'K';
    } else if |ex.solutions| > 0 {
      assert ss[0] == SolutionSentence;
      assert SolutionSentence[9] == 'p';
    } else if |ex.numbers| > 0 {
      assert ss[0] == NumberSentence(ex.numbers);
      assert NumberOpening[0] == 'I';
    } else {
      assert ss[0] == UrgencySentence(ex.urgency[0]);
      assert UrgencyOpening[0] == 'S';
    }
  }

  /** The summary is never empty, and it is the generic sentence exactly when
      no kind of match was found. */
  lemma SummaryGenericIff(ex: Extraction)
    ensures Summary(ex) != ""
    ensures Summary(ex) == GenericSummary <==> NothingToSummarize(ex)
  {
    TextIsConcatenation(ex);
    var ss := SummarySentences(ex);
    if !NothingToSummarize(ex) {
      FirstSentenceUnlikeGeneric(ex);
      ConcatPrefix(ss);
      var s := SummaryText(ex);
      assert s[..|ss[0]|] == ss[0];
      assert s[0] == ss[0][0] && s[9] == ss[0][9];
    }
  }

  /** When some kind of match was found, the summary is the concatenation of
      its sentences. */
  lemma SummaryConcatenation(ex: Extraction)
    requires !NothingToSummarize(ex)
    ensures Summary(ex) == Concat(SummarySentences(ex))
  {
    SummaryGenericIff(ex);
    TextIsConcatenation(ex);
  }

  /** The summary assembled with `=` and `+=` and the generic fallback. */
  method BuildSummary(ex: Extraction) returns (summary: string)
    ensures summary == Summary(ex)
    ensures summary != ""
    ensures summary == GenericSummary <==> NothingToSummarize(ex)
  {
    summary := "";
    if |ex.projects| > 0 {
      summary := ProjectSentence(ex.projects[0]);
    }
    assert summary == TextAfter(ex, 0);
    if |ex.problems| > 0 {
      summary := summary + ProblemSentence(ex.problems);
    }
    assert summary == TextAfter(ex, 1);
    if |ex.solutions| > 0 {
      summary := summary + SolutionSentence;
    }
    assert summary == TextAfter(ex, 2);
    if |ex.numbers| > 0 {
      summary := summary + NumberSentence(ex.numbers);
    }
    assert summary == TextAfter(ex, 3);
    if |ex.urgency| > 0 {
      summary := summary + UrgencySentence(ex.urgency[0]);
    }
    assert summary == SummaryText(ex);
    if |summary| == 0 {
      summary := GenericSummary;
    }
    SummaryGenericIff(ex);
  }
}
