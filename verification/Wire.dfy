/** The labels records are known by, and the wire form of a job's task list: what the
    program writes and what a screen reads back. */
module Wire {
  import opened Text

  // ---------------------------------------------------------------- numbers

  const MAX_INT := 0x7FFF_FFFF_FFFF_FFFF

  predicate AllDigits(text: string) {
    forall k | 0 <= k < |text| :: '0' <= text[k] <= '9'
  }

  predicate PositiveNumber(text: string) {
    text != "" && text[0] != '0' && AllDigits(text)
  }

  /** What `strconv.Atoi` makes of decimal digits before it looks at their range. */
  function Value(text: string): nat
    requires AllDigits(text)
  {
    if text == "" then 0
    else Value(text[..|text| - 1]) * 10 + (text[|text| - 1] as int - '0' as int)
  }

  function PositiveNumberValue(text: string): Option<nat> {
    if !PositiveNumber(text) then None
    else if Value(text) > MAX_INT then None
    else Some(Value(text))
  }

  lemma {:induction false} ItoaReadsBack(n: nat)
    ensures AllDigits(Itoa(n)) && Value(Itoa(n)) == n
    ensures n > 0 ==> PositiveNumber(Itoa(n))
  {
    var text := Itoa(n);
    if n >= 10 {
      ItoaReadsBack(n / 10);
      assert text[..|text| - 1] == Itoa(n / 10);
      assert text[0] == Itoa(n / 10)[0];
    } else {
      assert text == [Digit(n)] && text[..0] == "";
    }
  }

  lemma {:induction false} ValueWritesBack(text: string)
    requires PositiveNumber(text)
    ensures Value(text) >= 1 && Itoa(Value(text)) == text
  {
    var front, last := text[..|text| - 1], text[|text| - 1];
    assert text == front + [last];
    if front != "" {
      assert front[0] == text[0];
      ValueWritesBack(front);
    } else {
      assert Value(front) == 0 && text == [last];
    }
    var d := last as int - '0' as int;
    assert Digit(d) == last;
    assert (Value(front) * 10 + d) / 10 == Value(front) && (Value(front) * 10 + d) % 10 == d;
  }

  lemma ItoaIsInjective(m: nat, n: nat)
    ensures Itoa(m) == Itoa(n) ==> m == n
  {
    ItoaReadsBack(m);
    ItoaReadsBack(n);
  }

  /** A decimal number that fits is read, and it is read as itself. */
  lemma NumbersAreRead(text: string, n: nat)
    ensures PositiveNumberValue(text) == Some(n) <==> 1 <= n <= MAX_INT && text == Itoa(n)
  {
    ItoaReadsBack(n);
    if PositiveNumber(text) {
      ValueWritesBack(text);
    }
  }

  // ---------------------------------------------------------------- labels

  const TASK_PREFIX := "t"
  const REPORT_PREFIX := "j"

  datatype RecordKind = TaskRecord | JobRecord

  function CutPrefix(text: string, prefix: string): Option<string> {
    if prefix <= text then Some(text[|prefix|..]) else None
  }

  /** Go's `strings.Cut` at one character. */
  function Cut(text: string, at: char): Option<(string, string)> {
    if text == "" then None
    else if text[0] == at then Some(("", text[1..]))
    else match Cut(text[1..], at) {
      case None => None
      case Some(parts) => Some(([text[0]] + parts.0, parts.1))
    }
  }

  function ParseNumberedId(id: string, prefix: string): Option<nat> {
    match CutPrefix(id, prefix) {
      case None => None
      case Some(rest) => PositiveNumberValue(rest)
    }
  }

  function TaskId(number: nat): string { TASK_PREFIX + Itoa(number) }

  function ParseTaskId(id: string): Option<nat> { ParseNumberedId(id, TASK_PREFIX) }

  function ReportId(jobId: string, number: nat): string { REPORT_PREFIX + jobId + "." + Itoa(number) }

  function ParseReportId(id: string): Option<(string, nat)> {
    match CutPrefix(id, REPORT_PREFIX) {
      case None => None
      case Some(rest) =>
        match Cut(rest, '.') {
          case None => None
          case Some((jobId, numberText)) =>
            if '.' in numberText || !PositiveNumber(jobId) then None
            else match PositiveNumberValue(numberText) {
              case None => None
              case Some(number) => Some((jobId, number))
            }
        }
    }
  }

  function RecordLogKey(kind: RecordKind, id: string): string {
    if kind == JobRecord then REPORT_PREFIX + id else id
  }

  /** The reader of a numbered label accepts exactly what the writer writes, and
      reads it as the number it was written for. */
  lemma NumberedIdsAreRead(id: string, prefix: string, n: nat)
    ensures ParseNumberedId(id, prefix) == Some(n) <==> 1 <= n <= 9223372036854775807 && id == prefix + Itoa(n)
  {
    if prefix <= id {
      assert id == prefix + id[|prefix|..];
      NumbersAreRead(id[|prefix|..], n);
    }
  }

  lemma {:induction false} CutSplits(text: string, at: char)
    ensures Cut(text, at) == None <==> at !in text
    ensures var c := Cut(text, at);
      c.Some? ==> text == c.value.0 + [at] + c.value.1 && at !in c.value.0
  {
    if text != "" && text[0] != at {
      CutSplits(text[1..], at);
      assert text == [text[0]] + text[1..];
    }
  }

  lemma {:induction false} CutFindsTheFirst(before: string, at: char, after: string)
    requires at !in before
    ensures Cut(before + [at] + after, at) == Some((before, after))
  {
    var text := before + [at] + after;
    if before == "" {
      assert text[1..] == after;
    } else {
      assert text[1..] == before[1..] + [at] + after;
      CutFindsTheFirst(before[1..], at, after);
      assert [text[0]] + before[1..] == before;
    }
  }

  lemma WrittenReportIdsAreRead(jobId: string, n: nat)
    requires PositiveNumber(jobId) && 1 <= n <= MAX_INT
    ensures ParseReportId(ReportId(jobId, n)) == Some((jobId, n))
  {
    hide Itoa, Cut, Value, PositiveNumberValue;
    var id := ReportId(jobId, n);
    assert id[1..] == jobId + ['.'] + Itoa(n);
    CutFindsTheFirst(jobId, '.', Itoa(n));
    NumbersAreRead(Itoa(n), n);
  }

  lemma ReadReportIdsWereWritten(id: string)
    requires ParseReportId(id).Some?
    ensures var (jobId, n) := ParseReportId(id).value;
      PositiveNumber(jobId) && 1 <= n <= MAX_INT && id == ReportId(jobId, n)
  {
    hide Itoa, Cut, Value, PositiveNumberValue;
    var rest := id[1..];
    CutSplits(rest, '.');
    var (jobId, numberText) := Cut(rest, '.').value;
    NumbersAreRead(numberText, PositiveNumberValue(numberText).value);
    assert id == REPORT_PREFIX + rest;
  }

  /** Report labels: read exactly when they are ones a job writes, and read as what
      was written, whatever the size of the job's number. */
  lemma ReportIdsAreRead(id: string, jobId: string, n: nat)
    ensures ParseReportId(id) == Some((jobId, n))
            <==> PositiveNumber(jobId) && 1 <= n <= MAX_INT && id == ReportId(jobId, n)
  {
    hide ParseReportId, ReportId, PositiveNumber;
    if PositiveNumber(jobId) && 1 <= n <= MAX_INT {
      WrittenReportIdsAreRead(jobId, n);
    }
    if ParseReportId(id).Some? {
      ReadReportIdsWereWritten(id);
    }
  }

  /** Two records share a log key in just one way: a task whose number is a job's
      number with the job's letter in front of it. */
  lemma LogKeysClashOnlyAcrossKinds(kind: RecordKind, id: string, other: RecordKind, otherId: string)
    ensures RecordLogKey(kind, id) == RecordLogKey(other, otherId)
      <==> (|| (kind == other && id == otherId)
            || (kind == TaskRecord && other == JobRecord && id == REPORT_PREFIX + otherId)
            || (kind == JobRecord && other == TaskRecord && otherId == REPORT_PREFIX + id))
  {
    assert (REPORT_PREFIX + id)[1..] == id && (REPORT_PREFIX + otherId)[1..] == otherId;
  }

  /** And no number has a letter in front, so no two records' events ever mix. */
  lemma LogKeysOfNumbersDiffer(kind: RecordKind, id: string, other: RecordKind, otherId: string)
    requires PositiveNumber(id) && PositiveNumber(otherId)
    ensures RecordLogKey(kind, id) == RecordLogKey(other, otherId) ==> kind == other && id == otherId
  {
    LogKeysClashOnlyAcrossKinds(kind, id, other, otherId);
    assert id[0] != 'j' && otherId[0] != 'j';
  }

  // ---------------------------------------------------------------- words

  /** The longest beginning of a text with no space in it. */
  function FirstWord(s: string): (word: string)
    ensures |word| <= |s| && s[..|word|] == word && NoSpace(word)
    ensures |word| < |s| ==> IsSpace(s[|word|])
  {
    if s == "" || IsSpace(s[0]) then "" else [s[0]] + FirstWord(s[1..])
  }

  predicate NoSpace(word: string) {
    forall k | 0 <= k < |word| :: !IsSpace(word[k])
  }

  predicate IsWord(word: string) { word != "" && NoSpace(word) }

  predicate AllWords(words: seq<string>) {
    forall k | 0 <= k < |words| :: IsWord(words[k])
  }

  /** Go's `strings.Fields`. */
  function Fields(s: string): (words: seq<string>)
    ensures AllWords(words)
    decreases |s|
  {
    if s == "" then []
    else if IsSpace(s[0]) then Fields(s[1..])
    else [FirstWord(s)] + Fields(s[|FirstWord(s)|..])
  }

  /** Go's `strings.TrimSpace`. */
  function TrimSpace(s: string): string
    decreases |s|
  {
    if s == "" then s
    else if IsSpace(s[0]) then TrimSpace(s[1..])
    else if IsSpace(s[|s| - 1]) then TrimSpace(s[..|s| - 1])
    else s
  }

  lemma OneMoreSpace(before: string, kept: string, after: string, c: char)
    requires AllSpace(before) && AllSpace(after) && IsSpace(c)
    ensures [c] + (before + kept + after) == ([c] + before) + kept + after && AllSpace([c] + before)
    ensures (before + kept + after) + [c] == before + kept + (after + [c]) && AllSpace(after + [c])
  {
    hide IsSpace;
  }

  /** Only space is taken off, and all of it at both ends. */
  lemma {:induction false} TrimSpaceTakesOnlySpace(s: string) returns (before: string, after: string)
    ensures s == before + TrimSpace(s) + after && AllSpace(before) && AllSpace(after)
    ensures var kept := TrimSpace(s); kept != "" ==> !IsSpace(kept[0]) && !IsSpace(kept[|kept| - 1])
    decreases |s|
  {
    hide IsSpace, AllSpace;
    if s == "" {
      before, after := "", "";
      NoSpaceAtAll();
    } else if IsSpace(s[0]) {
      before, after := TrimSpaceTakesOnlySpace(s[1..]);
      OneMoreSpace(before, TrimSpace(s), after, s[0]);
      assert s == [s[0]] + s[1..];
      before := [s[0]] + before;
    } else if IsSpace(s[|s| - 1]) {
      before, after := TrimSpaceTakesOnlySpace(s[..|s| - 1]);
      OneMoreSpace(before, TrimSpace(s), after, s[|s| - 1]);
      assert s == s[..|s| - 1] + [s[|s| - 1]];
      after := after + [s[|s| - 1]];
    } else {
      before, after := "", "";
      assert "" + s + "" == s;
      NoSpaceAtAll();
    }
  }

  lemma NoSpaceAtAll()
    ensures AllSpace("")
  {
  }

  /** And there is one way to do so. */
  lemma TrimmedOneWay(b1: string, w1: string, a1: string, b2: string, w2: string, a2: string)
    requires b1 + w1 + a1 == b2 + w2 + a2
    requires AllSpace(b1) && AllSpace(a1) && AllSpace(b2) && AllSpace(a2)
    requires w1 != "" ==> !IsSpace(w1[0]) && !IsSpace(w1[|w1| - 1])
    requires w2 != "" ==> !IsSpace(w2[0]) && !IsSpace(w2[|w2| - 1])
    ensures w1 == w2
  {
    var s := b1 + w1 + a1;
    assert forall k | 0 <= k < |b1| :: s[k] == b1[k];
    assert forall k | |b1| <= k < |b1| + |w1| :: s[k] == w1[k - |b1|];
    assert forall k | |b1| + |w1| <= k < |s| :: s[k] == a1[k - |b1| - |w1|];
    assert forall k | 0 <= k < |b2| :: s[k] == b2[k];
    assert forall k | |b2| <= k < |b2| + |w2| :: s[k] == w2[k - |b2|];
    assert forall k | |b2| + |w2| <= k < |s| :: s[k] == a2[k - |b2| - |w2|];
    if w1 != "" {
      assert !IsSpace(s[|b1|]) && !IsSpace(s[|b1| + |w1| - 1]);
    }
    if w2 != "" {
      assert !IsSpace(s[|b2|]) && !IsSpace(s[|b2| + |w2| - 1]);
    }
    assert w1 != "" ==> s[|b1|..|b1| + |w1|] == w1;
    assert w2 != "" ==> s[|b2|..|b2| + |w2|] == w2;
  }

  /** What is there besides space. */
  function Seen(s: string): string {
    if s == "" then "" else (if IsSpace(s[0]) then "" else [s[0]]) + Seen(s[1..])
  }

  lemma {:induction false} SeenOfBoth(a: string, b: string)
    ensures Seen(a + b) == Seen(a) + Seen(b)
  {
    if a == "" {
      assert a + b == b;
    } else {
      assert (a + b)[1..] == a[1..] + b;
      SeenOfBoth(a[1..], b);
    }
  }

  lemma {:induction false} AWordIsSeen(word: string)
    requires NoSpace(word)
    ensures Seen(word) == word
  {
    if word != "" {
      AWordIsSeen(word[1..]);
    }
  }

  /** Folding keeps every character that is not a space, in order. */
  lemma {:induction false} FoldingKeepsWhatIsSeen(s: string)
    ensures Seen(Join(Fields(s), " ")) == Seen(s)
    decreases |s|
  {
    if s != "" {
      if IsSpace(s[0]) {
        FoldingKeepsWhatIsSeen(s[1..]);
      } else {
        var word := FirstWord(s);
        var rest := s[|word|..];
        FoldingKeepsWhatIsSeen(rest);
        assert s == word + rest && Fields(s)[1..] == Fields(rest);
        SeenOfBoth(word, rest);
        if Fields(rest) != [] {
          SeenOfBoth(word + " ", Join(Fields(rest), " "));
          SeenOfBoth(word, " ");
          assert Seen(" ") == "";
        } else {
          assert Seen(rest) == "";
          AWordIsSeen(word);
        }
      }
    }
  }

  /** And it breaks the text exactly where there is space. */
  lemma {:induction false} FieldsBreakAtSpace(a: string, gap: char, b: string)
    requires IsSpace(gap)
    ensures Fields(a + [gap] + b) == Fields(a) + Fields(b)
    decreases |a|
  {
    hide IsSpace, FirstWord;
    var s := a + [gap] + b;
    if a == "" {
      assert s[1..] == b;
    } else if IsSpace(a[0]) {
      assert s[1..] == a[1..] + [gap] + b;
      FieldsBreakAtSpace(a[1..], gap, b);
    } else {
      var word := FirstWord(a);
      var rest := a[|word|..];
      assert a == word + rest && s == word + (rest + [gap] + b);
      FirstWordOf(word, rest + [gap] + b);
      assert s[|word|..] == rest + [gap] + b && s[0] == a[0];
      FieldsBreakAtSpace(rest, gap, b);
    }
  }

  lemma AWordIsOneField(word: string)
    requires IsWord(word)
    ensures Fields(word) == [word]
  {
    assert word + "" == word;
    FirstWordOf(word, "");
    assert word[|word|..] == "";
  }

  lemma {:induction false} FirstWordOf(word: string, rest: string)
    requires IsWord(word) && (rest != "" ==> IsSpace(rest[0]))
    ensures FirstWord(word + rest) == word
  {
    var s := word + rest;
    assert s[0] == word[0] && s[1..] == word[1..] + rest;
    if |word| > 1 {
      FirstWordOf(word[1..], rest);
    } else {
      assert s[1..] == rest;
    }
    assert [word[0]] + word[1..] == word;
  }

  /** Words joined by one space are read back as themselves. */
  lemma {:induction false} FieldsOfJoin(words: seq<string>)
    requires AllWords(words)
    ensures Fields(Join(words, " ")) == words
  {
    if words != [] {
      var word, rest := words[0], if |words| == 1 then "" else " " + Join(words[1..], " ");
      var s := Join(words, " ");
      assert s == word + rest;
      FirstWordOf(word, rest);
      assert s[0] == word[0] && s[|word|..] == rest;
      if |words| > 1 {
        assert rest[1..] == Join(words[1..], " ");
        FieldsOfJoin(words[1..]);
      }
      assert Fields(rest) == words[1..];
    }
  }

  lemma {:induction false} JoinedWordsEndInAWord(words: seq<string>)
    requires AllWords(words) && words != []
    ensures var s := Join(words, " "); s != "" && !IsSpace(s[0]) && !IsSpace(s[|s| - 1]) && '\n' !in s
  {
    if |words| > 1 {
      JoinedWordsEndInAWord(words[1..]);
    }
    assert forall k | 0 <= k < |words[0]| :: words[0][k] != '\n';
  }

  // ---------------------------------------------------------------- the task list

  const DONE_MARK := "[x] "
  const TO_DO_MARK := "[ ] "

  /** What the wire form carries of one task of a job. */
  datatype JobTask = JobTask(done: bool, taskId: string, text: string)

  function TaskLine(task: JobTask): string {
    (if task.done then DONE_MARK else TO_DO_MARK) + Join(Fields(task.taskId + " " + task.text), " ")
  }

  function TaskLines(tasks: seq<JobTask>): seq<string> {
    seq(|tasks|, k requires 0 <= k < |tasks| => TaskLine(tasks[k]))
  }

  /** One line that is not blank, read back. */
  function ReadTask(line: string): JobTask {
    var done := DONE_MARK <= line;
    var words := Fields(if done || TO_DO_MARK <= line then line[4..] else line);
    if words != [] && ParseTaskId(words[0]).Some?
    then JobTask(done, words[0], Join(words[1..], " "))
    else JobTask(done, "", Join(words, " "))
  }

  function ReadLines(lines: seq<string>): seq<JobTask> {
    if lines == [] then []
    else
      var line := TrimSpace(lines[0]);
      (if line == "" then [] else [ReadTask(line)]) + ReadLines(lines[1..])
  }

  method JobTaskLines(tasks: seq<JobTask>) returns (text: string)
    ensures text == Join(TaskLines(tasks), "\n")
  {
    var lines: seq<string> := [];
    for i := 0 to |tasks|
      invariant lines == TaskLines(tasks[..i])
    {
      var mark := TO_DO_MARK;
      if tasks[i].done {
        mark := DONE_MARK;
      }
      assert tasks[..i + 1] == tasks[..i] + [tasks[i]];
      lines := lines + [mark + Join(Fields(tasks[i].taskId + " " + tasks[i].text), " ")];
    }
    assert tasks[..|tasks|] == tasks;
    return Join(lines, "\n");
  }

  method ParseJobTaskLines(text: string) returns (tasks: seq<JobTask>)
    ensures tasks == ReadLines(Lines(text))
  {
    hide ParseTaskId, FirstWord, Fields, TrimSpace, Lines, Join;
    var lines := Lines(text);
    tasks := [];
    for i := 0 to |lines|
      invariant tasks + ReadLines(lines[i..]) == ReadLines(lines)
    {
      var line := TrimSpace(lines[i]);
      assert lines[i..][1..] == lines[i + 1..];
      if line == "" {
        continue;
      }
      var done, rest := false, line;
      if DONE_MARK <= line {
        done, rest := true, line[4..];
      } else if TO_DO_MARK <= line {
        rest := line[4..];
      }
      var taskId, words := "", Fields(rest);
      if words != [] && ParseTaskId(words[0]).Some? {
        taskId, words := words[0], words[1..];
      }
      tasks := tasks + [JobTask(done, taskId, Join(words, " "))];
    }
  }

  predicate IsLabel(id: string) { ParseTaskId(id).Some? }

  /** A task as a reader should see it: its text folded onto one line. */
  function Folded(task: JobTask): JobTask {
    task.(text := Join(Fields(task.text), " "))
  }

  function FoldedAll(tasks: seq<JobTask>): seq<JobTask> {
    seq(|tasks|, k requires 0 <= k < |tasks| => Folded(tasks[k]))
  }

  /** What keeps a task readable: a label a job writes, or no label and a text that
      does not begin with one. */
  predicate Readable(task: JobTask) {
    IsLabel(task.taskId)
    || (task.taskId == "" && Fields(task.text) != [] && !IsLabel(Fields(task.text)[0]))
  }

  predicate AllReadable(tasks: seq<JobTask>) {
    forall k | 0 <= k < |tasks| :: Readable(tasks[k])
  }

  lemma LabelsAreWords(id: string)
    requires IsLabel(id)
    ensures IsWord(id)
  {
    var n := ParseTaskId(id).value;
    NumberedIdsAreRead(id, TASK_PREFIX, n);
    assert id[0] == 't';
    forall k | 0 <= k < |id| ensures !IsSpace(id[k]) {
      if k > 0 {
        assert id[k] == Itoa(n)[k - 1];
      }
    }
  }

  lemma FieldsAfterALabel(id: string, text: string)
    requires IsWord(id)
    ensures Fields(id + " " + text) == [id] + Fields(text)
  {
    var s := id + " " + text;
    assert s == id + (" " + text);
    FirstWordOf(id, " " + text);
    assert s[0] == id[0] && s[|id|..] == " " + text && (" " + text)[1..] == text;
  }

  /** One line of the list, trimmed, cut, and read. */
  lemma ReadTaskLine(task: JobTask)
    ensures var line := TaskLine(task); var words := Fields(task.taskId + " " + task.text);
      && '\n' !in line && TrimSpace(line) != ""
      && ReadTask(TrimSpace(line)) ==
        if words == [] then JobTask(false, "", if task.done then "[x]" else Join(["[", "]"], " "))
        else if IsLabel(words[0]) then JobTask(task.done, words[0], Join(words[1..], " "))
        else JobTask(task.done, "", Join(words, " "))
  {
    hide ParseTaskId, FirstWord;
    var mark := if task.done then DONE_MARK else TO_DO_MARK;
    var words := Fields(task.taskId + " " + task.text);
    var line := TaskLine(task);
    assert line == mark + Join(words, " ");
    if words == [] {
      assert line == mark;
      BlankTasksAreRead(task.done);
    } else {
      JoinedWordsEndInAWord(words);
      assert line[0] == '[' && line[|line| - 1] == Join(words, " ")[|Join(words, " ")| - 1];
      assert TrimSpace(line) == line;
      assert mark <= line && line[4..] == Join(words, " ");
      assert line[1] == mark[1];
      FieldsOfJoin(words);
    }
  }

  lemma BlankTasksAreRead(done: bool)
    ensures var mark := if done then DONE_MARK else TO_DO_MARK;
      TrimSpace(mark) != ""
      && ReadTask(TrimSpace(mark)) == JobTask(false, "", if done then "[x]" else Join(["[", "]"], " "))
  {
    var mark := if done then DONE_MARK else TO_DO_MARK;
    var trimmed := if done then ["[x]"] else ["[", "]"];
    assert mark[..3] == Join(trimmed, " ");
    assert TrimSpace(mark) == mark[..3];
    FieldsOfJoin(trimmed);
    assert trimmed[0][0] == '[';
    if IsLabel(trimmed[0]) {
      NumberedIdsAreRead(trimmed[0], TASK_PREFIX, ParseTaskId(trimmed[0]).value);
    }
  }

  /** One task comes back whole exactly when it is readable. */
  lemma ATaskIsReadBackExactlyWhenReadable(task: JobTask)
    ensures ReadTask(TrimSpace(TaskLine(task))) == Folded(task) <==> Readable(task)
  {
    hide ReadTask, TaskLine, TrimSpace, ParseTaskId, FirstWord;
    ReadTaskLine(task);
    var words := Fields(task.taskId + " " + task.text);
    if IsLabel(task.taskId) {
      LabelsAreWords(task.taskId);
      FieldsAfterALabel(task.taskId, task.text);
    } else if task.taskId == "" {
      assert (" " + task.text)[1..] == task.text && "" + " " + task.text == " " + task.text;
      assert words == Fields(task.text);
    } else {
      assert Folded(task).taskId == task.taskId;
    }
  }

  lemma {:induction false} ReadLinesOfTasks(tasks: seq<JobTask>)
    ensures |ReadLines(TaskLines(tasks))| == |tasks| && AllOneLine(TaskLines(tasks))
    ensures forall k | 0 <= k < |tasks| ::
      ReadLines(TaskLines(tasks))[k] == ReadTask(TrimSpace(TaskLine(tasks[k])))
  {
    hide ReadTask, TaskLine, TrimSpace;
    if tasks != [] {
      ReadTaskLine(tasks[0]);
      ReadLinesOfTasks(tasks[1..]);
      assert TaskLines(tasks)[1..] == TaskLines(tasks[1..]);
      assert TaskLines(tasks) == [TaskLine(tasks[0])] + TaskLines(tasks[1..]);
    }
  }

  /** The round trip: a list read back is the list written, text folded, exactly when
      every task in it is readable. */
  lemma ListsAreReadBackExactlyWhenReadable(tasks: seq<JobTask>)
    ensures ReadLines(Lines(Join(TaskLines(tasks), "\n"))) == FoldedAll(tasks) <==> AllReadable(tasks)
  {
    hide ReadTask, TaskLine, Folded, Readable, Lines;
    var read := ReadLines(TaskLines(tasks));
    ReadLinesOfTasks(tasks);
    if tasks == [] {
      LinesOfOne("");
      assert TrimSpace("") == "";
    } else {
      LinesOfJoin(TaskLines(tasks));
    }
    forall k | 0 <= k < |tasks| ensures read[k] == FoldedAll(tasks)[k] <==> Readable(tasks[k]) {
      ATaskIsReadBackExactlyWhenReadable(tasks[k]);
    }
  }

  /** In particular, a list whose labels are all ones a job writes. */
  lemma LabelledListsAreReadBack(tasks: seq<JobTask>, numbers: seq<nat>)
    requires |numbers| == |tasks|
    requires forall k | 0 <= k < |tasks| :: 1 <= numbers[k] <= MAX_INT && tasks[k].taskId == TaskId(numbers[k])
    ensures ReadLines(Lines(Join(TaskLines(tasks), "\n"))) == FoldedAll(tasks)
  {
    hide ReadLines, TaskLines, FoldedAll;
    forall k | 0 <= k < |tasks| ensures Readable(tasks[k]) {
      NumberedIdsAreRead(tasks[k].taskId, TASK_PREFIX, numbers[k]);
      assert IsLabel(tasks[k].taskId);
    }
    ListsAreReadBackExactlyWhenReadable(tasks);
  }
}
