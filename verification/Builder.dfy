/** Building the working context for one call, and what holds of every prompt built. */
module Builder {
  import opened Text
  import opened Marker
  import opened Requests
  import opened Estimate
  import opened Pictures
  import opened RecordSplit
  import opened Window

  const JOB_HEADING := "**The job this task belongs to.** It changes only when one of its tasks finishes."
  const STANDING_ORDER_OPENS := "**The project's standing order (NERDGENIE.md, "
  const STANDING_ORDER_CLOSES := " lines):** its rules and how to run and test it. The task's own rules come after it and win."
  const STANDING_ORDER_CUT := "... cut at sixty lines; read NERDGENIE.md for the rest"
  const RECENT_WORK_HEADING := "**Recent work.** The tasks most recently finished or set down, newest first."
  const FIRST_HALF_HEADING := "**The task record, part one: the goal and the rules.** These change rarely."
  const SECOND_HALF_HEADING := "**The task record, part two: the work and the lessons.**"
  const RESULTS_HEADING := "**The task record, part three: every result so far.**"
  const HEADER_HEADING := "**The task record, last of all: where the work stands.**"
  const KNOWN_HEADING := "**What you know, from USER.md and MEMORY.md.** These are yours to add to with the `memory` tool."
  const PINNED_HEADING := "**Pinned evidence, kept word for word.** It stays in front of you until it is unpinned."
  const HINT_HEADING := "**Memory hint.** Up to three lines from a search of what you know."
  const TOOLS_HEADING := "**Your tools.** The tools you may call are sent with this message, each with its name, what it does, and the fields it takes."
  const MAX_STANDING_ORDER_LINES := 60
  const MAX_RECENT_TASKS := 3
  const MEMORY_HINT_LINES := 3

  datatype Pin = Pin(id: string, text: string)

  datatype BuildInput = BuildInput(
    contextLength: int,
    record: Record,
    jobSummary: string,
    standingOrder: string,
    recentWork: seq<string>,
    pinned: seq<Pin>,
    messages: seq<Message>,
    tools: seq<ToolSpec>,
    memoryHint: seq<string>)

  datatype BuildError =
    | NoRoomForTheRecord(needed: int, contextLength: int, outputCap: int)
    | PinnedEvidenceTooLarge(cost: int, largest: Pin)

  /** What the builder holds for as long as it lives. */
  datatype Settings = Settings(maxOutputTokens: int, boundary: string, skills: string, instructions: string)

  // ---------------------------------------------------------------- the pieces

  function AsUserMessage(heading: string, body: string): Message {
    Message(User, heading + "\n\n" + body, [], [])
  }

  /** A piece with nothing in it is left out rather than sent empty. */
  function Piece(heading: string, body: string): seq<Message> {
    if body == "" then [] else [AsUserMessage(heading, body)]
  }

  function JoinBlocks(first: string, second: string): string {
    if first == "" then second else if second == "" then first else first + "\n\n" + second
  }

  function AtMost(lines: seq<string>, most: nat): seq<string> {
    if |lines| > most then lines[..most] else lines
  }

  function StandingOrderMessage(text: string): Message {
    var lines := Lines(TrimRight(text, NEWLINE));
    var shown := if |lines| > MAX_STANDING_ORDER_LINES then lines[..MAX_STANDING_ORDER_LINES] + [STANDING_ORDER_CUT] else lines;
    AsUserMessage(STANDING_ORDER_OPENS + Itoa(|lines|) + STANDING_ORDER_CLOSES, Join(shown, "\n"))
  }

  function PerTaskFront(input: BuildInput, parts: RecordParts): seq<Message> {
    Piece(JOB_HEADING, input.jobSummary)
    + (if input.standingOrder == "" then [] else [StandingOrderMessage(input.standingOrder)])
    + (if input.recentWork == [] then [] else [AsUserMessage(RECENT_WORK_HEADING, Join(AtMost(input.recentWork, MAX_RECENT_TASKS), "\n"))])
    + Piece(FIRST_HALF_HEADING, parts.stable)
  }

  function WrapPin(boundary: string, pin: Pin): string {
    WrapAsData(boundary, "pinned " + pin.id + "\n" + pin.text)
  }

  function PinnedPiece(pins: seq<Pin>, boundary: string): seq<Message> {
    if pins == [] then []
    else [AsUserMessage(PINNED_HEADING, Join(seq(|pins|, k requires 0 <= k < |pins| => WrapPin(boundary, pins[k])), "\n\n"))]
  }

  function HintPiece(lines: seq<string>): seq<Message> {
    if lines == [] then [] else [AsUserMessage(HINT_HEADING, "- " + Join(AtMost(lines, MEMORY_HINT_LINES), "\n- "))]
  }

  function ResultsPiece(boundary: string, results: string): seq<Message> {
    if results == "" then [] else [AsUserMessage(RESULTS_HEADING, MarkResultLines(boundary, results))]
  }

  function NextStepPiece(record: Record): seq<Message> {
    if record.kind == "" || record.nextStep == "" then [] else [Message(User, record.nextStep, [], [])]
  }

  /** What stands above the conversation: what changes from task to task, then
      what barely moves. */
  function Above(settings: Settings, input: BuildInput, parts: RecordParts, known: string): seq<Message> {
    PerTaskFront(input, parts) + Piece(KNOWN_HEADING, known) + PinnedPiece(input.pinned, settings.boundary)
  }

  /** The tail: everything a turn writes anew. */
  function Below(settings: Settings, input: BuildInput, parts: RecordParts, results: string): seq<Message> {
    Piece(SECOND_HALF_HEADING, parts.body) + ResultsPiece(settings.boundary, results) + HintPiece(input.memoryHint)
    + Piece(HEADER_HEADING, parts.standing) + PicturesMessage(Newest(AllPictures(input.messages))) + NextStepPiece(input.record)
  }

  function SystemBlocks(settings: Settings, persona: string, input: BuildInput): seq<SystemBlock> {
    var opens := if persona == "" then [SystemBlock("instructions", settings.instructions, BoundaryA)]
                 else [SystemBlock("instructions", settings.instructions, NoBoundary), SystemBlock("persona", persona, BoundaryA)];
    opens + (if input.tools == [] then [] else [SystemBlock("tools", TOOLS_HEADING, BoundaryB)])
  }

  function WithoutMessages(settings: Settings, persona: string, input: BuildInput): Request {
    Request(SystemBlocks(settings, JoinBlocks(persona, settings.skills), input), [], input.tools, settings.maxOutputTokens)
  }

  // ---------------------------------------------------------------- the window rule

  function FixedCost(settings: Settings, persona: string, known: string, input: BuildInput, parts: RecordParts): nat {
    EstimateRequestTokens(WithoutMessages(settings, persona, input)) + TotalTokens(PerTaskFront(input, parts))
    + TotalTokens(Piece(SECOND_HALF_HEADING, parts.body)) + TotalTokens(Piece(KNOWN_HEADING, known))
    + TotalTokens(ResultsPiece(settings.boundary, parts.results)) + TotalTokens(Piece(HEADER_HEADING, parts.standing))
    + TotalTokens(PicturesMessage(Newest(AllPictures(input.messages)))) + TotalTokens(NextStepPiece(input.record))
  }

  /** The pin to let go of: the largest, and the first of those as large. */
  function LargestPin(pins: seq<Pin>): (largest: Pin)
    requires pins != []
    ensures forall k | 0 <= k < |pins| :: |pins[k].text| <= |largest.text|
    ensures exists at | 0 <= at < |pins| :: pins[at] == largest && forall k | 0 <= k < at :: |pins[k].text| < |largest.text|
  {
    if |pins| == 1 then pins[0]
    else
      var before, last := LargestPin(pins[..|pins| - 1]), pins[|pins| - 1];
      assert pins[..|pins| - 1] + [last] == pins;
      if |last.text| > |before.text| then last else before
  }

  function RoomForTheConversation(settings: Settings, input: BuildInput, fixed: int, pinned: int, hint: int): Result<int, BuildError> {
    var room := input.contextLength - settings.maxOutputTokens - fixed;
    if room <= 0 then Err(NoRoomForTheRecord(fixed, input.contextLength, settings.maxOutputTokens))
    else if room - (pinned + hint) >= 0 then Ok(room - (pinned + hint))
    else if input.pinned != [] then Err(PinnedEvidenceTooLarge(pinned, LargestPin(input.pinned)))
    else Err(NoRoomForTheRecord(fixed + hint, input.contextLength, settings.maxOutputTokens))
  }

  function RoomFor(settings: Settings, persona: string, known: string, input: BuildInput): Result<int, BuildError> {
    RoomForTheConversation(settings, input, FixedCost(settings, persona, known, input, SplitRecord(input.record)),
                           TotalTokens(PinnedPiece(input.pinned, settings.boundary)), TotalTokens(HintPiece(input.memoryHint)))
  }

  function Conversation(settings: Settings, input: BuildInput): (conversation: seq<Message>)
    ensures |conversation| == |input.messages|
  {
    WrapAll(settings.boundary, StrippedAll(input.messages))
  }

  function OnTheTable(settings: Settings, input: BuildInput, room: int): seq<Message> {
    FitNewestFirst(Conversation(settings, input), room)
  }

  function PromptMessages(settings: Settings, known: string, input: BuildInput, room: int): seq<Message> {
    var parts, onTheTable := SplitRecord(input.record), OnTheTable(settings, input, room);
    Above(settings, input, parts, known) + onTheTable
    + Below(settings, input, parts, ResultsThatLeft(parts.results, LabelsOn(onTheTable)))
  }

  function BuildRequest(settings: Settings, persona: string, known: string, input: BuildInput): Result<Request, BuildError> {
    match RoomFor(settings, persona, known, input)
    case Err(error) => Err(error)
    case Ok(room) => Ok(WithoutMessages(settings, persona, input).(messages := PromptMessages(settings, known, input, room)))
  }

  // ---------------------------------------------------------------- the bound

  lemma TotalOfAppend(a: seq<Message>, b: seq<Message>)
    ensures TotalTokens(a + b) == TotalTokens(a) + TotalTokens(b)
  {
    SumOfAppend(a, b, EstimateMessage);
  }

  /** A label line with items under it, wrapped: the label, then the items between
      the marker lines. */
  lemma MarkedList(boundary: string, lines: seq<string>)
    requires IsAList(lines)
    ensures MarkResultLines(boundary, Join(lines, "\n")) == lines[0] + "\n" + WrapAsData(boundary, Join(lines[1..], "\n"))
  {
    hide WrapAsData, Lines;
    LinesOfJoin(lines);
    assert FirstLineIn(lines, LIST_LABELS) == 0;
    assert ItemsEnd(lines, 1) == |lines|;
    var wrapped := WrapAsData(boundary, Join(lines[1..], "\n"));
    assert lines[1..|lines|] == lines[1..];
    assert lines[..1] + [wrapped] + lines[|lines|..] == [lines[0], wrapped];
    assert MarkResultLines(boundary, Join(lines, "\n")) == Join([lines[0], wrapped], "\n");
    assert [lines[0], wrapped][1..] == [wrapped] && Join([wrapped], "\n") == wrapped;
  }

  lemma LabelsAreNoItems(line: string)
    requires line in LIST_LABELS
    ensures !(ITEM_MARK <= line)
  {
    assert RESULT_LIST_LABEL[0] == 'R' && REPORT_LIST_LABEL[0] == 'R' && ITEM_MARK[0] == '-';
  }

  /** The list cut to what left the table, wrapped afresh, costs no more than the
      whole list the room was settled against. */
  lemma ShortenedListCostsNoMore(boundary: string, record: Record, labels: set<string>)
    requires OneLine(boundary)
    ensures var results := SplitRecord(record).results;
      TotalTokens(ResultsPiece(boundary, ResultsThatLeft(results, labels))) <= TotalTokens(ResultsPiece(boundary, results))
  {
    hide *;
    var results := SplitRecord(record).results;
    ResultsAreAList(record);
    if results != "" {
      ShortenedTextIsNoLonger(boundary, Lines(results), labels);
      JoinOfLines(results);
    }
    PieceOfShorterCostsNoMore(boundary, results, ResultsThatLeft(results, labels), labels);
  }

  lemma ShortenedTextIsNoLonger(boundary: string, lines: seq<string>, labels: set<string>)
    requires OneLine(boundary) && IsAList(lines)
    ensures var listed := ResultsThatLeft(Join(lines, "\n"), labels);
      listed == "" || |MarkResultLines(boundary, listed)| <= |MarkResultLines(boundary, Join(lines, "\n"))|
  {
    hide WrapAsData, MarkResultLines, Lines, Join, NameOfItem;
    var items, kept := lines[1..], Unlisted(lines[1..], labels);
    var all := [lines[0]] + kept;
    LinesOfJoin(lines);
    LabelsAreNoItems(lines[0]);
    assert Unlisted(lines, labels) == all;
    if ItemCount(all) > 0 {
      UnlistedIsASublist(items, labels);
      OneLineSublist(items, labels);
      assert all[1..] == kept;
      assert ItemCount(all) == ItemCount(kept);
      forall k | 1 <= k < |all| ensures ITEM_MARK <= all[k] {
        assert kept[k - 1] in items;
      }
      MarkedList(boundary, all);
      MarkedList(boundary, lines);
      DroppingLinesNeverLengthens(boundary, kept, items);
    }
  }

  lemma PieceOfShorterCostsNoMore(boundary: string, results: string, listed: string, labels: set<string>)
    requires results == "" ==> listed == ""
    requires listed == "" || |MarkResultLines(boundary, listed)| <= |MarkResultLines(boundary, results)|
    ensures TotalTokens(ResultsPiece(boundary, listed)) <= TotalTokens(ResultsPiece(boundary, results))
  {
    hide MarkResultLines;
    if listed != "" {
      OneMessageShorter(RESULTS_HEADING, MarkResultLines(boundary, listed), MarkResultLines(boundary, results));
    }
  }

  lemma OneMessageShorter(heading: string, shorter: string, longer: string)
    requires |shorter| <= |longer|
    ensures TotalTokens([AsUserMessage(heading, shorter)]) <= TotalTokens([AsUserMessage(heading, longer)])
  {
    ShorterCostsNoMore(heading + "\n\n" + shorter, heading + "\n\n" + longer);
    assert [AsUserMessage(heading, shorter)][1..] == [] && [AsUserMessage(heading, longer)][1..] == [];
  }

  lemma TableFitsTheRoom(conversation: seq<Message>, room: int)
    requires room >= 0
    ensures TotalTokens(FitNewestFirst(conversation, room)) <= room
  {
    FitIsTheLongestThatFits(conversation, room, FitCount(conversation, room));
    OrphanRemovalCostsNoMore(Last(conversation, FitCount(conversation, room)), {});
  }

  lemma TotalOfSix(a: seq<Message>, b: seq<Message>, c: seq<Message>, d: seq<Message>, e: seq<Message>, f: seq<Message>)
    ensures TotalTokens(a + b + c + d + e + f)
            == TotalTokens(a) + TotalTokens(b) + TotalTokens(c) + TotalTokens(d) + TotalTokens(e) + TotalTokens(f)
  {
    hide TotalTokens;
    TotalOfAppend(a, b);
    TotalOfAppend(a + b, c);
    TotalOfAppend(a + b + c, d);
    TotalOfAppend(a + b + c + d, e);
    TotalOfAppend(a + b + c + d + e, f);
  }

  lemma TotalOfThree(a: seq<Message>, b: seq<Message>, c: seq<Message>)
    ensures TotalTokens(a + b + c) == TotalTokens(a) + TotalTokens(b) + TotalTokens(c)
  {
    hide TotalTokens;
    TotalOfAppend(a, b);
    TotalOfAppend(a + b, c);
  }

  lemma TotalAbove(settings: Settings, input: BuildInput, parts: RecordParts, known: string)
    ensures TotalTokens(Above(settings, input, parts, known))
            == TotalTokens(PerTaskFront(input, parts)) + TotalTokens(Piece(KNOWN_HEADING, known))
               + TotalTokens(PinnedPiece(input.pinned, settings.boundary))
  {
    hide TotalTokens, PerTaskFront, Piece, PinnedPiece;
    TotalOfThree(PerTaskFront(input, parts), Piece(KNOWN_HEADING, known), PinnedPiece(input.pinned, settings.boundary));
  }

  lemma TotalBelow(settings: Settings, input: BuildInput, parts: RecordParts, results: string)
    ensures TotalTokens(Below(settings, input, parts, results))
            == TotalTokens(Piece(SECOND_HALF_HEADING, parts.body)) + TotalTokens(ResultsPiece(settings.boundary, results))
               + TotalTokens(HintPiece(input.memoryHint)) + TotalTokens(Piece(HEADER_HEADING, parts.standing))
               + TotalTokens(PicturesMessage(Newest(AllPictures(input.messages)))) + TotalTokens(NextStepPiece(input.record))
  {
    hide TotalTokens, Piece, ResultsPiece, HintPiece, PicturesMessage, Newest, AllPictures, NextStepPiece;
    TotalOfSix(Piece(SECOND_HALF_HEADING, parts.body), ResultsPiece(settings.boundary, results), HintPiece(input.memoryHint),
               Piece(HEADER_HEADING, parts.standing), PicturesMessage(Newest(AllPictures(input.messages))), NextStepPiece(input.record));
  }

  lemma EstimateWithMessages(request: Request, messages: seq<Message>)
    requires request.messages == []
    ensures EstimateRequestTokens(request.(messages := messages)) == EstimateRequestTokens(request) + TotalTokens(messages)
  {
  }

  /** Whenever a prompt is built, the whole of it as it is sent, with the output
      cap, is inside the model's context length: for every record, pin set, hint,
      tool list and conversation, and for every boundary on one line. */
  lemma BuiltPromptFits(settings: Settings, persona: string, known: string, input: BuildInput)
    requires OneLine(settings.boundary)
    ensures var built := BuildRequest(settings, persona, known, input);
      built.Ok? ==> EstimateRequestTokens(built.value) + settings.maxOutputTokens <= input.contextLength
  {
    hide SplitRecord, SystemBlocks, PerTaskFront, Piece, ResultsPiece, HintPiece, PinnedPiece, PicturesMessage, Newest,
         AllPictures, NextStepPiece, FitNewestFirst, Conversation, ResultsThatLeft, LabelsOn, TotalTokens,
         EstimateRequestTokens, Above, Below, JoinBlocks, LargestPin;
    var room := RoomFor(settings, persona, known, input);
    if room.Ok? {
      var parts, onTheTable := SplitRecord(input.record), OnTheTable(settings, input, room.value);
      var listed := ResultsThatLeft(parts.results, LabelsOn(onTheTable));
      TotalAbove(settings, input, parts, known);
      TotalBelow(settings, input, parts, listed);
      TotalOfThree(Above(settings, input, parts, known), onTheTable, Below(settings, input, parts, listed));
      TableFitsTheRoom(Conversation(settings, input), room.value);
      ShortenedListCostsNoMore(settings.boundary, input.record, LabelsOn(onTheTable));
      EstimateWithMessages(WithoutMessages(settings, persona, input), PromptMessages(settings, known, input, room.value));
    }
  }

  /** A build is refused exactly when the parts that can never be dropped leave no
      room, or leave too little for the pins and the hint; and the pins are blamed
      only when the rest would have fitted. */
  lemma RefusedExactlyWhenThePartsDoNotFit(settings: Settings, persona: string, known: string, input: BuildInput)
    ensures var built := BuildRequest(settings, persona, known, input);
      var fixed := FixedCost(settings, persona, known, input, SplitRecord(input.record));
      var extra := TotalTokens(PinnedPiece(input.pinned, settings.boundary)) + TotalTokens(HintPiece(input.memoryHint));
      var context := input.contextLength - settings.maxOutputTokens;
      && (built.Err? <==> fixed >= context || fixed + extra > context)
      && (built.Err? && built.error.PinnedEvidenceTooLarge?
          ==> fixed < context && built.error.largest in input.pinned
              && forall k | 0 <= k < |input.pinned| :: |input.pinned[k].text| <= |built.error.largest.text|)
      && (built.Err? ==> (built.error.PinnedEvidenceTooLarge? <==> fixed < context && input.pinned != []))
  {
    hide SplitRecord, FixedCost, PinnedPiece, HintPiece, TotalTokens, PromptMessages, WithoutMessages, LargestPin;
  }

  // ---------------------------------------------------------------- the provider's cache

  /** Everything above the tail of a prompt. */
  function StablePrefix(settings: Settings, known: string, input: BuildInput, room: int): seq<Message> {
    Above(settings, input, SplitRecord(input.record), known) + OnTheTable(settings, input, room)
  }

  /** What one turn leaves as it was for the next: everything above the
      conversation, and the conversation itself only grown. */
  predicate SameTask(earlier: BuildInput, later: BuildInput) {
    && earlier.jobSummary == later.jobSummary && earlier.standingOrder == later.standingOrder
    && earlier.recentWork == later.recentWork && earlier.pinned == later.pinned && earlier.tools == later.tools
    && SplitRecord(earlier.record).stable == SplitRecord(later.record).stable
    && earlier.messages <= later.messages
  }

  /** The oldest message the window keeps, counted from the start of the conversation. */
  function Start(settings: Settings, input: BuildInput, room: int): nat {
    |input.messages| - FitCount(Conversation(settings, input), room)
  }

  lemma ConversationOnlyGrows(settings: Settings, earlier: BuildInput, later: BuildInput)
    requires earlier.messages <= later.messages
    ensures Conversation(settings, earlier) <= Conversation(settings, later)
  {
  }

  /** Two builds for the same task keep every byte up to the end of the earlier
      one's conversation, as long as the window still starts at the same message:
      whatever pictures, record body, results, header and hint did, and whatever
      was appended. The system blocks and the tools are the same too. */
  lemma CachePrefixIsStable(settings: Settings, persona: string, known: string,
                            earlier: BuildInput, later: BuildInput, earlierRoom: int, laterRoom: int)
    requires SameTask(earlier, later)
    requires RoomFor(settings, persona, known, earlier) == Ok(earlierRoom)
    requires RoomFor(settings, persona, known, later) == Ok(laterRoom)
    requires Start(settings, earlier, earlierRoom) == Start(settings, later, laterRoom)
    ensures var first := BuildRequest(settings, persona, known, earlier).value;
      var second := BuildRequest(settings, persona, known, later).value;
      && first.systemBlocks == second.systemBlocks && first.tools == second.tools
      && StablePrefix(settings, known, earlier, earlierRoom) <= first.messages
      && StablePrefix(settings, known, earlier, earlierRoom) <= second.messages
  {
    hide SplitRecord, FixedCost, PinnedPiece, HintPiece, Piece, TotalTokens, LargestPin, RoomForTheConversation,
         Below, WithoutOrphans, CalledIn, FitCount, Conversation, Join, Lines, ResultsThatLeft, LabelsOn, StandingOrderMessage;
    var from := Start(settings, earlier, earlierRoom);
    var a, b := Conversation(settings, earlier), Conversation(settings, later);
    ConversationOnlyGrows(settings, earlier, later);
    assert b[from..] == a[from..] + b[|a|..];
    OrphansOfAppend(a[from..], b[|a|..], {});
    var table, grown := OnTheTable(settings, earlier, earlierRoom), OnTheTable(settings, later, laterRoom);
    assert table <= grown;
    assert Above(settings, earlier, SplitRecord(earlier.record), known) == Above(settings, later, SplitRecord(later.record), known);
    assert StablePrefix(settings, known, earlier, earlierRoom) <= StablePrefix(settings, known, later, laterRoom) by {
      PrefixAfter(Above(settings, later, SplitRecord(later.record), known), table, grown);
    }
  }

  lemma PrefixAfter(a: seq<Message>, b: seq<Message>, c: seq<Message>)
    requires b <= c
    ensures a + b <= a + c
  {
  }

  /** In particular when both conversations fit whole. */
  lemma CachePrefixWhenBothFitWhole(settings: Settings, persona: string, known: string,
                                    earlier: BuildInput, later: BuildInput, earlierRoom: int, laterRoom: int)
    requires SameTask(earlier, later)
    requires RoomFor(settings, persona, known, earlier) == Ok(earlierRoom)
    requires RoomFor(settings, persona, known, later) == Ok(laterRoom)
    requires TotalTokens(Conversation(settings, earlier)) <= earlierRoom
    requires TotalTokens(Conversation(settings, later)) <= laterRoom
    ensures StablePrefix(settings, known, earlier, earlierRoom) <= BuildRequest(settings, persona, known, later).value.messages
  {
    hide SplitRecord, FixedCost, PinnedPiece, HintPiece, Piece, TotalTokens, LargestPin, RoomForTheConversation, SystemBlocks,
         WithoutMessages, PromptMessages, StablePrefix, RoomFor, Join, Lines, StandingOrderMessage, WrapAll, StrippedAll;
    var a, b := Conversation(settings, earlier), Conversation(settings, later);
    assert Last(a, |a|) == a && Last(b, |b|) == b;
    FitIsTheLongestThatFits(a, earlierRoom, |a|);
    FitIsTheLongestThatFits(b, laterRoom, |b|);
    CachePrefixIsStable(settings, persona, known, earlier, later, earlierRoom, laterRoom);
  }

  /** The record may be rewritten between the two builds: for records the printer
      writes, the goal and the rules are all the prefix depends on. */
  lemma OnlyTheGoalAndTheRulesAreAbove(earlier: Record, later: Record)
    requires earlier.kind != "" && later.kind != "" && WellPrinted(earlier) && WellPrinted(later)
    requires earlier.goal == later.goal && earlier.rules == later.rules
    ensures SplitRecord(earlier).stable == SplitRecord(later).stable
  {
    SplitIsExact(earlier);
    SplitIsExact(later);
  }

  /** Nothing the model is shown dangles. */
  lemma NoResultDanglesInAPrompt(settings: Settings, input: BuildInput, room: int)
    ensures NothingDangles(OnTheTable(settings, input, room), {})
  {
    OrphanRemovalLeavesNoneDangling(Last(Conversation(settings, input), FitCount(Conversation(settings, input), room)), {});
  }

  // ---------------------------------------------------------------- the builder itself

  class Builder {
    const maxOutputTokens: int
    const boundary: string
    const skills: string
    const instructions: string

    constructor (settings: Settings)
      ensures Holding() == settings
    {
      maxOutputTokens, boundary := settings.maxOutputTokens, settings.boundary;
      skills, instructions := settings.skills, settings.instructions;
    }

    function Holding(): Settings {
      Settings(maxOutputTokens, boundary, skills, instructions)
    }

    method PinsDoNotFit(pins: seq<Pin>, cost: int) returns (error: BuildError)
      requires pins != []
      ensures error == PinnedEvidenceTooLarge(cost, LargestPin(pins))
    {
      var largest := pins[0];
      assert pins[..1] == [pins[0]];
      for i := 1 to |pins|
        invariant largest == LargestPin(pins[..i])
      {
        assert pins[..i + 1][..i] == pins[..i];
        if |pins[i].text| > |largest.text| {
          largest := pins[i];
        }
      }
      assert pins[..|pins|] == pins;
      error := PinnedEvidenceTooLarge(cost, largest);
    }

    /** What every piece that must ride costs, and so the room that is left. */
    method SettleTheRoom(persona: string, known: string, input: BuildInput, parts: RecordParts, pictured: seq<Message>)
      returns (room: Result<int, BuildError>)
      requires parts == SplitRecord(input.record) && pictured == PicturesMessage(Newest(AllPictures(input.messages)))
      ensures room == RoomFor(Holding(), persona, known, input)
    {
      hide SplitRecord, SystemBlocks, PerTaskFront, Piece, PinnedPiece, HintPiece, PicturesMessage, Newest, AllPictures,
           NextStepPiece, TotalTokens, EstimateRequestTokens, LargestPin, JoinBlocks, MarkResultLines, WithoutMessages, AsUserMessage;
      var above := CountRequest(WithoutMessages(Holding(), persona, input));
      var perTask := CountMessages(PerTaskFront(input, parts));
      var recordBody := CountMessages(Piece(SECOND_HALF_HEADING, parts.body));
      var whatIsKnown := CountMessages(Piece(KNOWN_HEADING, known));
      var recordResults := [];
      if parts.results != "" {
        var marked := MarkTheResultLines(boundary, parts.results);
        recordResults := [AsUserMessage(RESULTS_HEADING, marked)];
      }
      var results := CountMessages(recordResults);
      var recordHeader := CountMessages(Piece(HEADER_HEADING, parts.standing));
      var pictures := CountMessages(pictured);
      var nextStep := CountMessages(NextStepPiece(input.record));
      var pinned := CountMessages(PinnedPiece(input.pinned, boundary));
      var hint := CountMessages(HintPiece(input.memoryHint));
      var fixed := above + perTask + recordBody + whatIsKnown + results + recordHeader + pictures + nextStep;
      room := RoomForTheConversation(Holding(), input, fixed, pinned, hint);
    }

    /** The persona and what is known are read off disk before this. The room is
        settled against the whole list of results, and the list is cut to what
        left the table only afterwards. */
    method Build(persona: string, known: string, input: BuildInput) returns (built: Result<Request, BuildError>)
      ensures built == BuildRequest(Holding(), persona, known, input)
    {
      hide SplitRecord, SystemBlocks, PerTaskFront, Piece, PinnedPiece, HintPiece, PicturesMessage, Newest, AllPictures,
           NextStepPiece, RoomFor, FitNewestFirst, ResultsThatLeft, LabelsOn, JoinBlocks, MarkResultLines, WithoutMessages,
           AsUserMessage, WrapAll, StrippedAll;
      var parts := SplitTheRecord(input.record);
      var conversation, pictures := WithoutPictures(input.messages);
      var pictured := PicturesMessage(pictures);
      var room := SettleTheRoom(persona, known, input, parts, pictured);
      if room.Err? {
        return Err(room.error);
      }
      var marked := WrapToolResults(conversation, boundary);
      var onTheTable := FitTheNewestFirst(marked, room.value);
      var labels := LabelsOnTheTable(onTheTable);
      var listed := ResultsThatLeftTheTable(parts.results, labels);
      var recordResults := [];
      if listed != "" {
        var again := MarkTheResultLines(boundary, listed);
        recordResults := [AsUserMessage(RESULTS_HEADING, again)];
      }
      assert recordResults == ResultsPiece(boundary, listed);
      var above := PerTaskFront(input, parts) + Piece(KNOWN_HEADING, known) + PinnedPiece(input.pinned, boundary);
      var below := Piece(SECOND_HALF_HEADING, parts.body) + recordResults + HintPiece(input.memoryHint)
                   + Piece(HEADER_HEADING, parts.standing) + pictured + NextStepPiece(input.record);
      var request := WithoutMessages(Holding(), persona, input);
      built := Ok(request.(messages := above + onTheTable + below));
    }
  }
}
