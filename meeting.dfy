/** The records the analyser works on: the match lists the pattern scans
    produce, and the analysis it returns. */
module MeetingData {

  /** The ordered match lists of the pattern scans over one transcript. Each
      field holds the matches of one scan, left to right; an empty list means
      the scan found nothing. */
  datatype Extraction = Extraction(
    nameMatches: seq<string>,     // two capitalised words
    numbers: seq<string>,         // numbers with an optional %, $, K, M or B
    dates: seq<string>,           // month name and day
    money: seq<string>,           // dollar amounts
    projects: seq<string>,        // Project/Phase/Sprint/... labels
    technologies: seq<string>,    // technology keywords
    problems: seq<string>,        // problem keywords
    solutions: seq<string>,       // solution keywords
    urgency: seq<string>,         // urgency keywords
    taskMatches: seq<string>,     // sentences led by a task verb
    decisionMatches: seq<string>) // sentences led by a decision verb

  datatype ActionPoint = ActionPoint(task: string, person: string, deadline: string)

  datatype Analysis = Analysis(summary: string, actionPoints: seq<ActionPoint>, decisions: seq<string>)

  /** At most this many verb-led sentences become action points or decisions. */
  const MaxMatched: nat := 3

  function Min(a: nat, b: nat): (m: nat)
    ensures m <= a && m <= b && (m == a || m == b)
  {
    if a <= b then a else b
  }

  /** `s[i] || fallback`: the element at `i` unless it is missing or is the
      empty string, which JavaScript also treats as false. */
  function ElementOr(s: seq<string>, i: nat, fallback: string): string
  {
    if i < |s| && s[i] != "" then s[i] else fallback
  }

  /** 1 for a category that has a match, 0 for one that has none. */
  function Flag(b: bool): nat
  {
    if b then 1 else 0
  }
}
