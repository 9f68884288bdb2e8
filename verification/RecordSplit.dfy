/** Cutting a printed record into the four pieces that change at different paces. */
module RecordSplit {
  import opened Text
  import opened Marker

  const GOAL_HEADING := "## Goal"
  const RULES_HEADING := "## Rules"
  const WORK_HEADING := "## Work"
  const LESSONS_HEADING := "## Lessons"
  const DONE_LIST_LABEL := "Done when:"
  const PINNED_MARK := "[pinned]"
  const NEWLINE := {'\n'}

  // ---------------------------------------------------------------- what the printer writes

  datatype ResultLine = ResultLine(id: string, summary: string, pinned: bool)

  /** A task record. The lists the split looks into are kept as lists; every other
      field is the lines the printer writes for it, in order. A record not made yet
      has an empty kind. */
  datatype Record = Record(
    kind: string,
    header: seq<string>,
    goal: seq<string>,
    doneWhen: seq<string>,
    rules: seq<string>,
    work: seq<string>,
    results: seq<ResultLine>,
    lessons: seq<string>,
    nextStep: string)

  /** Line breaks and backslashes written out, so that text fits on one line. */
  function FoldText(text: string): (folded: string)
    ensures OneLine(folded)
  {
    if text == "" then ""
    else
      (match text[0]
       case '\\' => "\\\\"
       case '\n' => "\\n"
       case '\r' => "\\r"
       case c => [c]) + FoldText(text[1..])
  }

  function ResultItem(result: ResultLine): string {
    ITEM_MARK + (if result.pinned then PINNED_MARK + " " else "") + FoldText(result.id) + " " + FoldText(result.summary)
  }

  function ResultItems(results: seq<ResultLine>): seq<string> {
    seq(|results|, k requires 0 <= k < |results| => ResultItem(results[k]))
  }

  function MarkedItems(items: seq<string>): seq<string> {
    seq(|items|, k requires 0 <= k < |items| => ITEM_MARK + items[k])
  }

  function ResultsLabel(kind: string): string {
    if kind == "job" then REPORT_LIST_LABEL else RESULT_LIST_LABEL
  }

  function Labelled(title: string, items: seq<string>): seq<string> {
    if items == [] then [] else [title] + items
  }

  function ResultBlock(record: Record): seq<string> {
    Labelled(ResultsLabel(record.kind), ResultItems(record.results))
  }

  function DoneBlock(record: Record): seq<string> {
    Labelled(DONE_LIST_LABEL, MarkedItems(record.doneWhen))
  }

  function HeaderPart(record: Record): seq<string> {
    record.header + [""]
  }

  function StablePart(record: Record): seq<string> {
    [GOAL_HEADING] + record.goal + RulesPart(record)
  }

  function RulesPart(record: Record): seq<string> {
    [""] + [RULES_HEADING] + record.rules + [""]
  }

  function LessonsPart(record: Record): seq<string> {
    [""] + [LESSONS_HEADING] + record.lessons
  }

  function GoalLines(record: Record): seq<string> {
    [GOAL_HEADING] + record.goal + DoneBlock(record) + RulesPart(record)
  }

  function WorkLines(record: Record): seq<string> {
    [WORK_HEADING] + record.work + ResultBlock(record) + LessonsPart(record)
  }

  function PrintedLines(record: Record): seq<string> {
    HeaderPart(record) + GoalLines(record) + WorkLines(record)
  }

  function PrintForTheModel(record: Record): string {
    Join(PrintedLines(record), "\n") + "\n"
  }

  /** A line that opens nothing the split cuts on. */
  predicate Plain(line: string) {
    OneLine(line) && line != GOAL_HEADING && line != WORK_HEADING && line != DONE_LIST_LABEL && line !in LIST_LABELS
  }

  predicate AllPlain(lines: seq<string>) {
    forall k | 0 <= k < |lines| :: Plain(lines[k])
  }

  /** What the printer guarantees of the lines it writes: each is one line, opens
      with a word of its own, and the last one is not blank. */
  predicate WellPrinted(record: Record) {
    && AllPlain(record.header) && AllPlain(record.goal) && AllPlain(record.rules)
    && AllPlain(record.work) && AllPlain(record.lessons) && AllOneLine(record.doneWhen)
    && (record.lessons != [] ==> record.lessons[|record.lessons| - 1] != "")
  }

  // ---------------------------------------------------------------- the split

  datatype RecordParts = RecordParts(stable: string, body: string, results: string, standing: string)

  /** The lines before the list, the list with its label, and the lines after. */
  function CutAt(lines: seq<string>, at: nat): (string, string)
    requires at < |lines|
  {
    var end := ItemsEnd(lines, at + 1);
    (Join(lines[..at] + lines[end..], "\n"), Join(lines[at..end], "\n"))
  }

  function CutOutTheResults(lines: seq<string>): (string, string) {
    var at := FirstLineIn(lines, LIST_LABELS);
    if at < 0 || ItemsEnd(lines, at + 1) == at + 1 then (Join(lines, "\n"), "")
    else CutAt(lines, at)
  }

  function CutOutTheDoneList(goal: seq<string>): (string, string) {
    var at := FirstLineIn(goal, {DONE_LIST_LABEL});
    if at < 0 then (Join(goal, "\n"), "") else CutAt(goal, at)
  }

  function SplitLines(lines: seq<string>): RecordParts {
    var goalAt, workAt := FirstLineIn(lines, {GOAL_HEADING}), FirstLineIn(lines, {WORK_HEADING});
    if goalAt < 0 || workAt < goalAt then RecordParts("", Join(lines, "\n"), "", "")
    else
      var (body, results) := CutOutTheResults(lines[workAt..]);
      var (stable, doneList) := CutOutTheDoneList(lines[goalAt..workAt]);
      RecordParts(TrimRight(stable, NEWLINE),
                  TrimRight(if doneList != "" then doneList + "\n\n" + body else body, NEWLINE),
                  results,
                  TrimRight(Join(lines[..goalAt], "\n"), NEWLINE))
  }

  function SplitRecord(record: Record): RecordParts {
    if record.kind == "" then RecordParts("", "", "", "")
    else SplitLines(Lines(TrimRight(PrintForTheModel(record), NEWLINE)))
  }

  /** The list that is cut out is the first under a label, with its label and all of its
      items; a list of results with none stays where it is. */
  lemma TheResultsAreCutOut(lines: seq<string>, at: nat, end: nat)
    requires IsTheList(lines, LIST_LABELS, at, end)
    ensures CutOutTheResults(lines)
         == if end == at + 1 then (Join(lines, "\n"), "")
            else (Join(lines[..at] + lines[end..], "\n"), Join(lines[at..end], "\n"))
  {
    hide Join, FirstLineIn, ItemsEnd;
    TheListIsFound(lines, LIST_LABELS, at, end);
  }

  lemma TheDoneListIsCutOut(goal: seq<string>, at: nat, end: nat)
    requires IsTheList(goal, {DONE_LIST_LABEL}, at, end)
    ensures CutOutTheDoneList(goal) == (Join(goal[..at] + goal[end..], "\n"), Join(goal[at..end], "\n"))
  {
    hide Join, FirstLineIn, ItemsEnd;
    TheListIsFound(goal, {DONE_LIST_LABEL}, at, end);
  }

  /** Lines with no goal before their work are all body. */
  lemma NoGoalIsAllBody(lines: seq<string>)
    requires forall g, w | 0 <= g < w < |lines| :: lines[g] == GOAL_HEADING && lines[w] == WORK_HEADING ==> WORK_HEADING in lines[..g]
    ensures SplitLines(lines) == RecordParts("", Join(lines, "\n"), "", "")
  {
    hide Join, TrimRight, CutOutTheResults, CutOutTheDoneList;
    var goalAt, workAt := FirstLineIn(lines, {GOAL_HEADING}), FirstLineIn(lines, {WORK_HEADING});
    assert goalAt >= 0 ==> (workAt >= 0 ==> lines[workAt] == WORK_HEADING) && lines[goalAt] == GOAL_HEADING;
  }

  /** With a goal before the work, even on the first line, what stands before the goal is
      the header, and the goal and the work are cut each on its own. */
  lemma AGoalIsCutFromTheWork(lines: seq<string>, goalAt: nat, workAt: nat)
    requires goalAt < workAt < |lines| && lines[goalAt] == GOAL_HEADING && lines[workAt] == WORK_HEADING
    requires GOAL_HEADING !in lines[..goalAt] && WORK_HEADING !in lines[..workAt]
    ensures var parts := SplitLines(lines);
      && parts.standing == TrimRight(Join(lines[..goalAt], "\n"), NEWLINE)
      && parts.stable == TrimRight(CutOutTheDoneList(lines[goalAt..workAt]).0, NEWLINE)
      && parts.results == CutOutTheResults(lines[workAt..]).1
  {
    hide Join, TrimRight, CutOutTheResults, CutOutTheDoneList;
    FirstAt(lines, GOAL_HEADING, goalAt);
    FirstAt(lines, WORK_HEADING, workAt);
  }

  lemma FirstAt(lines: seq<string>, heading: string, at: nat)
    requires at < |lines| && lines[at] == heading && heading !in lines[..at]
    ensures FirstLineIn(lines, {heading}) == at
  {
    assert forall k | 0 <= k < at :: lines[..at][k] == lines[k];
  }

  /** A task as it is printed, line by line. */
  lemma ATaskIsPrinted(id: string, summary: string)
    requires id == FoldText(id) && summary == FoldText(summary)
    ensures var task := Record("task", ["# task"], ["g"], ["d"], ["r"], ["w"], [ResultLine(id, summary, false)], ["l"], "");
      && PrintForTheModel(task) == Join(PrintedLines(task), "\n") + "\n"
      && PrintedLines(task)
         == ["# task", "", "## Goal", "g", "Done when:", "- d", "", "## Rules", "r", "", "## Work", "w",
             RESULT_LIST_LABEL, "- " + id + " " + summary, "", "## Lessons", "l"]
  {
    hide FoldText, Join;
    var results := [ResultLine(id, summary, false)];
    assert ResultItems(results) == [ResultItem(results[0])];
    var done := MarkedItems(["d"]);
    assert done[0] == ITEM_MARK + "d" == "- d" && done == ["- d"];
    assert ITEM_MARK + "" + id == "- " + id;
  }

  /** And a job, with nothing in most of it. */
  lemma AJobIsPrinted(id: string, summary: string)
    requires id == FoldText(id) && summary == FoldText(summary)
    ensures var job := Record("job", ["# job"], ["g"], [], [], [], [ResultLine(id, summary, true)], [], "");
      PrintedLines(job)
      == ["# job", "", "## Goal", "g", "", "## Rules", "", "## Work",
          REPORT_LIST_LABEL, "- [pinned] " + id + " " + summary, "", "## Lessons"]
  {
    hide FoldText, Join;
    var pinned := [ResultLine(id, summary, true)];
    assert ResultItems(pinned) == [ResultItem(pinned[0])];
    assert ITEM_MARK + (PINNED_MARK + " ") == "- [pinned] ";
  }

  method LineAt(lines: seq<string>, heading: string) returns (at: int)
    ensures at == FirstLineIn(lines, {heading})
  {
    for i := 0 to |lines|
      invariant forall k | 0 <= k < i :: lines[k] != heading
    {
      if lines[i] == heading {
        return i;
      }
    }
    return -1;
  }

  /** Both cutters: from the label to the first line that is not an item. */
  method CutOutTheList(lines: seq<string>, at: nat) returns (end: nat, rest: string, list: string)
    requires at < |lines|
    ensures end == ItemsEnd(lines, at + 1)
    ensures (rest, list) == CutAt(lines, at)
  {
    end := at + 1;
    while end < |lines| && ITEM_MARK <= lines[end]
      invariant at + 1 <= end <= |lines|
      invariant ItemsEnd(lines, at + 1) == ItemsEnd(lines, end)
    {
      end := end + 1;
    }
    rest, list := Join(lines[..at] + lines[end..], "\n"), Join(lines[at..end], "\n");
  }

  method CutTheResults(work: seq<string>) returns (body: string, results: string)
    ensures (body, results) == CutOutTheResults(work)
  {
    body, results := Join(work, "\n"), "";
    var at := TheResultLabel(work);
    if at >= 0 {
      var end, rest, list := CutOutTheList(work, at);
      if end != at + 1 {
        body, results := rest, list;
      }
    }
  }

  method CutTheDoneList(goal: seq<string>) returns (stable: string, doneList: string)
    ensures (stable, doneList) == CutOutTheDoneList(goal)
  {
    stable, doneList := Join(goal, "\n"), "";
    var at := LineAt(goal, DONE_LIST_LABEL);
    if at >= 0 {
      var end;
      end, stable, doneList := CutOutTheList(goal, at);
    }
  }

  method SplitTheRecord(record: Record) returns (parts: RecordParts)
    ensures parts == SplitRecord(record)
  {
    hide TrimRight, PrintForTheModel, Lines, Join, CutOutTheResults, CutOutTheDoneList;
    if record.kind == "" {
      return RecordParts("", "", "", "");
    }
    var lines := Lines(TrimRight(PrintForTheModel(record), NEWLINE));
    var goalAt := LineAt(lines, GOAL_HEADING);
    var workAt := LineAt(lines, WORK_HEADING);
    if goalAt < 0 || workAt < goalAt {
      return RecordParts("", Join(lines, "\n"), "", "");
    }
    var body, results := CutTheResults(lines[workAt..]);
    var stable, doneList := CutTheDoneList(lines[goalAt..workAt]);
    if doneList != "" {
      body := doneList + "\n\n" + body;
    }
    return RecordParts(TrimRight(stable, NEWLINE), TrimRight(body, NEWLINE), results,
                       TrimRight(Join(lines[..goalAt], "\n"), NEWLINE));
  }

  // ---------------------------------------------------------------- the split is exact

  lemma {:induction false} JoinEndsInTheLastLine(lines: seq<string>)
    requires lines != [] && lines[|lines| - 1] != ""
    ensures var joined, last := Join(lines, "\n"), lines[|lines| - 1];
      joined != "" && joined[|joined| - 1] == last[|last| - 1]
  {
    if |lines| > 1 {
      JoinEndsInTheLastLine(lines[1..]);
    }
  }

  lemma ListsAreOneLine(record: Record)
    requires AllOneLine(record.doneWhen)
    ensures AllOneLine(ResultBlock(record)) && AllOneLine(DoneBlock(record))
  {
    assert OneLine(RESULT_LIST_LABEL) && OneLine(REPORT_LIST_LABEL);
    forall k | 0 <= k < |record.results| ensures OneLine(ResultItem(record.results[k])) {
    }
    forall k | 0 <= k < |record.doneWhen| ensures OneLine(ITEM_MARK + record.doneWhen[k]) {
    }
  }

  lemma PrintedLinesAreOneLine(record: Record)
    requires WellPrinted(record)
    ensures AllOneLine(PrintedLines(record))
    ensures PrintedLines(record)[|PrintedLines(record)| - 1] != ""
  {
    ListsAreOneLine(record);
    assert AllOneLine(HeaderPart(record));
    assert AllOneLine(RulesPart(record));
    assert AllOneLine(GoalLines(record));
    assert AllOneLine(LessonsPart(record));
    assert AllOneLine(WorkLines(record));
  }

  /** Reading a printed record back gives the lines that were printed. */
  lemma PrintedReadsBack(record: Record)
    requires WellPrinted(record)
    ensures Lines(TrimRight(PrintForTheModel(record), NEWLINE)) == PrintedLines(record)
  {
    PrintedLinesAreOneLine(record);
    var lines := PrintedLines(record);
    var joined := Join(lines, "\n");
    JoinEndsInTheLastLine(lines);
    var printed := joined + "\n";
    assert printed[..|printed| - 1] == joined;
    assert '\n' !in lines[|lines| - 1];
    assert TrimRight(printed, NEWLINE) == TrimRight(joined, NEWLINE) == joined;
    LinesOfJoin(lines);
  }

  lemma ThreeParts(a: seq<string>, b: seq<string>, c: seq<string>)
    ensures var whole := a + b + c;
      whole[..|a|] == a && whole[|a|..|a| + |b|] == b && whole[|a| + |b|..] == c && whole[|a|..] == b + c
  {
  }

  lemma FirstLineAfter(before: seq<string>, from: seq<string>, titles: set<string>)
    requires from != [] && from[0] in titles && forall k | 0 <= k < |before| :: before[k] !in titles
    ensures FirstLineIn(before + from, titles) == |before|
  {
    var lines := before + from;
    assert lines[|before|] == from[0];
    assert forall k | 0 <= k < |before| :: lines[k] == before[k];
  }

  /** A labelled list between lines that are neither the label nor an item is
      what the cut takes out, whole and alone. */
  lemma CutTakesTheList(before: seq<string>, title: string, items: seq<string>, after: seq<string>, titles: set<string>)
    requires title in titles && forall k | 0 <= k < |before| :: before[k] !in titles
    requires forall k | 0 <= k < |items| :: ITEM_MARK <= items[k]
    requires after != [] && after[0] == ""
    ensures var lines := before + ([title] + items) + after;
      FirstLineIn(lines, titles) == |before|
      && ItemsEnd(lines, |before| + 1) == |before| + 1 + |items|
      && CutAt(lines, |before|) == (Join(before + after, "\n"), Join([title] + items, "\n"))
  {
    var list := [title] + items;
    var lines := before + list + after;
    var at, end := |before|, |before| + |list|;
    ThreeParts(before, list, after);
    assert lines == before + (list + after);
    FirstLineAfter(before, list + after, titles);
    assert lines[end] == lines[end..][0] == "";
    forall k | at + 1 <= k < end ensures ITEM_MARK <= lines[k] {
      assert lines[k] == lines[at..end][k - at] == items[k - at - 1];
    }
    assert ItemsEnd(lines, at + 1) == end;
  }

  function StableText(record: Record): string {
    TrimRight(Join(StablePart(record), "\n"), NEWLINE)
  }

  function BodyText(record: Record): string {
    var body := Join([WORK_HEADING] + record.work + LessonsPart(record), "\n");
    TrimRight(if record.doneWhen == [] then body else Join(DoneBlock(record), "\n") + "\n\n" + body, NEWLINE)
  }

  lemma WorkSplits(record: Record)
    requires WellPrinted(record)
    ensures CutOutTheResults(WorkLines(record))
            == (Join([WORK_HEADING] + record.work + LessonsPart(record), "\n"), Join(ResultBlock(record), "\n"))
  {
    var before, after := [WORK_HEADING] + record.work, LessonsPart(record);
    if record.results == [] {
      assert ResultBlock(record) == [];
      assert WorkLines(record) == before + after;
      assert forall k | 0 <= k < |before + after| :: (before + after)[k] !in LIST_LABELS;
    } else {
      CutTakesTheList(before, ResultsLabel(record.kind), ResultItems(record.results), after, LIST_LABELS);
    }
  }

  lemma GoalSplits(record: Record)
    requires WellPrinted(record)
    ensures CutOutTheDoneList(GoalLines(record)) == (Join(StablePart(record), "\n"), Join(DoneBlock(record), "\n"))
  {
    var before, after := [GOAL_HEADING] + record.goal, RulesPart(record);
    if record.doneWhen == [] {
      assert DoneBlock(record) == [];
      assert GoalLines(record) == before + after;
      assert forall k | 0 <= k < |before + after| :: (before + after)[k] != DONE_LIST_LABEL;
    } else {
      CutTakesTheList(before, DONE_LIST_LABEL, MarkedItems(record.doneWhen), after, {DONE_LIST_LABEL});
    }
  }

  lemma SplitOfThree(header: seq<string>, goal: seq<string>, work: seq<string>)
    requires goal != [] && goal[0] == GOAL_HEADING && work != [] && work[0] == WORK_HEADING
    requires forall k | 0 <= k < |header| :: header[k] != GOAL_HEADING
    requires forall k | 0 <= k < |header + goal| :: (header + goal)[k] != WORK_HEADING
    ensures SplitLines(header + goal + work)
            == var (body, results) := CutOutTheResults(work);
               var (stable, doneList) := CutOutTheDoneList(goal);
               RecordParts(TrimRight(stable, NEWLINE),
                           TrimRight(if doneList != "" then doneList + "\n\n" + body else body, NEWLINE),
                           results, TrimRight(Join(header, "\n"), NEWLINE))
  {
    ThreeParts(header, goal, work);
    assert header + goal + work == header + (goal + work);
    FirstLineAfter(header, goal + work, {GOAL_HEADING});
    FirstLineAfter(header + goal, work, {WORK_HEADING});
  }

  /** For every record the printer writes, the four pieces are exactly the header,
      the goal without its done list and the rules, the done list with the work
      and the lessons, and the list of results. So the first piece depends on the
      goal and the rules alone. */
  lemma SplitIsExact(record: Record)
    requires record.kind != "" && WellPrinted(record)
    ensures SplitRecord(record)
            == RecordParts(StableText(record), BodyText(record), Join(ResultBlock(record), "\n"),
                           TrimRight(Join(HeaderPart(record), "\n"), NEWLINE))
  {
    PrintedReadsBack(record);
    GoalHoldsNoWorkHeading(record);
    SplitOfThree(HeaderPart(record), GoalLines(record), WorkLines(record));
    WorkSplits(record);
    GoalSplits(record);
    DoneBlockShows(record);
  }

  lemma DoneBlockShows(record: Record)
    ensures Join(DoneBlock(record), "\n") == "" <==> record.doneWhen == []
  {
  }

  lemma GoalHoldsNoWorkHeading(record: Record)
    requires WellPrinted(record)
    ensures forall k | 0 <= k < |HeaderPart(record) + GoalLines(record)| :: (HeaderPart(record) + GoalLines(record))[k] != WORK_HEADING
  {
    assert ITEM_MARK[0] == '-' && WORK_HEADING[0] == '#' && DONE_LIST_LABEL[0] == 'D';
    forall k | 0 <= k < |DoneBlock(record)| ensures DoneBlock(record)[k] != WORK_HEADING {
      assert DoneBlock(record)[k][0] != '#';
    }
    assert forall k | 0 <= k < |RulesPart(record)| :: RulesPart(record)[k] != WORK_HEADING;
  }

  /** Whatever the record, the list of results is nothing or a label line and at
      least one item under it. */
  predicate IsAList(lines: seq<string>) {
    |lines| >= 2 && AllOneLine(lines) && lines[0] in LIST_LABELS && forall k | 1 <= k < |lines| :: ITEM_MARK <= lines[k]
  }

  lemma CutIsAList(lines: seq<string>)
    requires AllOneLine(lines)
    ensures var results := CutOutTheResults(lines).1; results == "" || IsAList(Lines(results))
  {
    var at := FirstLineIn(lines, LIST_LABELS);
    if at >= 0 && ItemsEnd(lines, at + 1) > at + 1 {
      LinesOfJoin(lines[at..ItemsEnd(lines, at + 1)]);
    }
  }

  lemma ResultsAreAList(record: Record)
    ensures SplitRecord(record).results == "" || IsAList(Lines(SplitRecord(record).results))
  {
    if record.kind != "" {
      var lines := Lines(TrimRight(PrintForTheModel(record), NEWLINE));
      var workAt := FirstLineIn(lines, {WORK_HEADING});
      if workAt >= 0 {
        CutIsAList(lines[workAt..]);
      }
    }
  }
}
