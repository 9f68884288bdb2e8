/** What a built prompt holds: every part of it word for word and in its place, and
    the lines of the record that the parts are made of. */
module Prompt {
  import opened Text
  import opened Marker
  import opened Requests
  import opened Estimate
  import opened Pictures
  import opened RecordSplit
  import opened Window
  import opened Builder

  /** One part of a prompt, and whether it has anything in it. */
  datatype Part = Part(there: bool, message: Message)

  /** The parts that have something in them, in order. */
  function Present(parts: seq<Part>): seq<Message> {
    if parts == [] then [] else One(parts[0]) + Present(parts[1..])
  }

  function One(part: Part): seq<Message> { if part.there then [part.message] else [] }

  function FromTheUser(text: string): Message { Message(User, text, [], []) }

  lemma {:induction false} EveryPresentPartIsThere(parts: seq<Part>, k: nat)
    requires k < |parts| && parts[k].there
    ensures parts[k].message in Present(parts)
  {
    if k > 0 {
      EveryPresentPartIsThere(parts[1..], k - 1);
    }
  }

  // ---------------------------------------------------------------- the conversation as it is shown

  /** A result as the model reads it: its label, the line that opens data, its text with
      no copy of the boundary in it, and the line that closes data; and no picture. */
  predicate ResultIsShown(boundary: string, shown: ToolResult, said: ToolResult) {
    && shown.callId == said.callId && shown.resultLabel == said.resultLabel && shown.failed == said.failed
    && shown.picture == ""
    && shown.text == (if said.resultLabel == "" then "" else said.resultLabel + ":\n")
                     + (OPEN_WORDS + " " + (boundary + " ---") + "\n"
                        + (Replace([boundary], ESCAPED_BOUNDARY, said.text) + "\n"
                           + (CLOSE_WORDS + " " + (boundary + " ---"))))
  }

  predicate IsShown(boundary: string, shown: Message, said: Message) {
    && shown.role == said.role && shown.text == said.text && shown.toolCalls == said.toolCalls
    && |shown.toolResults| == |said.toolResults|
    && forall k | 0 <= k < |said.toolResults| :: ResultIsShown(boundary, shown.toolResults[k], said.toolResults[k])
  }

  /** What is shown is some of what was said, in the same order. */
  predicate ShownOf(boundary: string, shown: seq<Message>, said: seq<Message>) {
    if said == [] then shown == []
    else
      || ShownOf(boundary, shown, said[1..])
      || (shown != [] && IsShown(boundary, shown[0], said[0]) && ShownOf(boundary, shown[1..], said[1..]))
  }

  lemma WrappedIsShown(boundary: string, said: Message)
    ensures IsShown(boundary, WrapMessage(boundary, Stripped(said)), said)
  {
    hide Replace;
    var shown := WrapMessage(boundary, Stripped(said));
    forall k | 0 <= k < |said.toolResults| ensures ResultIsShown(boundary, shown.toolResults[k], said.toolResults[k]) {
      WrappedResultIsShown(boundary, said.toolResults[k]);
    }
  }

  lemma WrappedResultIsShown(boundary: string, said: ToolResult)
    ensures ResultIsShown(boundary, WrapResult(boundary, WithoutItsPicture(said)), said)
  {
    hide Replace, Join;
    assert boundary + " ---" == boundary + " " + "---";
    var wrapped := WrapAsData(boundary, said.text);
    assert "" + wrapped == wrapped;
  }

  lemma {:induction false} KeptIsShown(boundary: string, said: seq<Message>, shown: seq<Message>, called: set<string>)
    requires |shown| == |said| && forall k | 0 <= k < |said| :: IsShown(boundary, shown[k], said[k])
    ensures ShownOf(boundary, WithoutOrphans(shown, called), said)
  {
    hide IsShown;
    if said != [] {
      if AnswersALostCall(shown[0], called) {
        KeptIsShown(boundary, said[1..], shown[1..], called);
      } else {
        var rest := WithoutOrphans(shown[1..], called + CallIds(shown[0]));
        KeptIsShown(boundary, said[1..], shown[1..], called + CallIds(shown[0]));
        assert WithoutOrphans(shown, called)[1..] == rest;
      }
    }
  }

  /** The window shows the newest of what was said: each message kept word for word,
      each result between the two lines that mark it as data. */
  lemma TheTableIsShown(settings: Settings, input: BuildInput, room: int)
    ensures var from := |input.messages| - FitCount(Conversation(settings, input), room);
      ShownOf(settings.boundary, OnTheTable(settings, input, room), input.messages[from..])
  {
    hide IsShown, WithoutOrphans, WrapMessage, Stripped, FitCount;
    var conversation := Conversation(settings, input);
    var kept := FitCount(conversation, room);
    var said, shown := input.messages[|input.messages| - kept..], Last(conversation, kept);
    forall k | 0 <= k < |said| ensures IsShown(settings.boundary, shown[k], said[k]) {
      WrappedIsShown(settings.boundary, said[k]);
    }
    KeptIsShown(settings.boundary, said, shown, {});
  }

  // ---------------------------------------------------------------- every part, in its place

  /** What stands above the conversation, each part with whether it has anything in it:
      the job, the standing order, the recent work, the goal and the rules, what is
      known, and the pins. */
  function PartsAbove(boundary: string, known: string, input: BuildInput): seq<Part> {
    [Part(input.jobSummary != "", FromTheUser(JOB_HEADING + "\n\n" + input.jobSummary)),
     OrderPart(input.standingOrder),
     RecentPart(input.recentWork),
     Part(SplitRecord(input.record).stable != "",
          FromTheUser(FIRST_HALF_HEADING + "\n\n" + SplitRecord(input.record).stable)),
     Part(known != "", FromTheUser(KNOWN_HEADING + "\n\n" + known)),
     PinnedPart(boundary, input.pinned)]
  }

  function OrderPart(standingOrder: string): Part {
    var order := Lines(TrimRight(standingOrder, NEWLINE));
    Part(standingOrder != "",
         FromTheUser(STANDING_ORDER_OPENS + Itoa(|order|) + STANDING_ORDER_CLOSES + "\n\n"
                     + Join(if |order| > 60 then order[..60] + [STANDING_ORDER_CUT] else order, "\n")))
  }

  function RecentPart(recentWork: seq<string>): Part {
    Part(recentWork != [],
         FromTheUser(RECENT_WORK_HEADING + "\n\n" + Join(if |recentWork| > 3 then recentWork[..3] else recentWork, "\n")))
  }

  function PinnedPart(boundary: string, pinned: seq<Pin>): Part {
    Part(pinned != [], FromTheUser(PINNED_HEADING + "\n\n" + Join(PinTexts(boundary, pinned), "\n\n")))
  }

  function PinTexts(boundary: string, pins: seq<Pin>): seq<string> {
    seq(|pins|, k requires 0 <= k < |pins| => WrapAsData(boundary, "pinned " + pins[k].id + "\n" + pins[k].text))
  }

  /** What stands below it: the work, the results still listed, the memory hint, the
      header, the newest pictures, and the next step. */
  function PartsBelow(boundary: string, input: BuildInput, listed: string): seq<Part> {
    var pictures := Newest(AllPictures(input.messages));
    [Part(SplitRecord(input.record).body != "",
      FromTheUser(SECOND_HALF_HEADING + "\n\n" + SplitRecord(input.record).body)),
     Part(listed != "", FromTheUser(RESULTS_HEADING + "\n\n" + MarkResultLines(boundary, listed))),
     Part(input.memoryHint != [],
      FromTheUser(HINT_HEADING + "\n\n"
                  + ("- " + Join(if |input.memoryHint| > 3 then input.memoryHint[..3] else input.memoryHint, "\n- ")))),
     Part(SplitRecord(input.record).standing != "",
      FromTheUser(HEADER_HEADING + "\n\n" + SplitRecord(input.record).standing)),
     Part(pictures != [],
      Message(User, "## Pictures" + "\n\nthe pictures that came with " + Join(LabelsOf(pictures), " and ")
                    + ", newest first; " + NO_LONGER_SHOWN, [], pictures)),
     Part(input.record.kind != "" && input.record.nextStep != "", FromTheUser(input.record.nextStep))]
  }

  lemma PresentOfThree(a: Part, b: Part, c: Part)
    ensures Present([a, b, c]) == One(a) + One(b) + One(c)
  {
    hide One;
    assert [a, b, c][1..] == [b, c] && [b, c][1..] == [c] && [c][1..] == [];
    assert Present([c]) == One(c) + Present([]);
  }

  lemma PresentOfSix(a: Part, b: Part, c: Part, d: Part, e: Part, f: Part)
    ensures Present([a, b, c, d, e, f]) == One(a) + One(b) + One(c) + One(d) + One(e) + One(f)
  {
    hide One;
    var all := [a, b, c, d, e, f];
    assert all[1..] == [b, c, d, e, f] && [b, c, d, e, f][1..] == [c, d, e, f] && [c, d, e, f][1..] == [d, e, f];
    PresentOfThree(d, e, f);
    assert Present([c, d, e, f]) == One(c) + Present([d, e, f]);
    assert Present([b, c, d, e, f]) == One(b) + Present([c, d, e, f]);
  }

  lemma AboveHolds(settings: Settings, known: string, input: BuildInput)
    ensures Above(settings, input, SplitRecord(input.record), known)
         == Present(PartsAbove(settings.boundary, known, input))
  {
    hide *;
    var stable, parts := SplitRecord(input.record).stable, PartsAbove(settings.boundary, known, input);
    AboveInPieces(settings, known, input);
    PartsAboveInOnes(settings.boundary, known, input);
    PieceIsOne(JOB_HEADING, input.jobSummary);
    PieceIsOne(FIRST_HALF_HEADING, stable);
    PieceIsOne(KNOWN_HEADING, known);
    StandingOrderIsOne(input.standingOrder);
    RecentWorkIsOne(input.recentWork);
    PinnedIsOne(settings.boundary, input.pinned);
  }

  lemma PieceIsOne(heading: string, body: string)
    ensures Piece(heading, body) == One(Part(body != "", FromTheUser(heading + "\n\n" + body)))
  {
  }

  lemma StandingOrderIsOne(standingOrder: string)
    ensures (if standingOrder == "" then [] else [StandingOrderMessage(standingOrder)]) == One(OrderPart(standingOrder))
  {
    hide Lines, TrimRight, Join, Itoa;
  }

  lemma RecentWorkIsOne(recentWork: seq<string>)
    ensures (if recentWork == [] then []
             else [AsUserMessage(RECENT_WORK_HEADING, Join(AtMost(recentWork, MAX_RECENT_TASKS), "\n"))]) == One(RecentPart(recentWork))
  {
    hide Join;
  }

  lemma PinnedIsOne(boundary: string, pinned: seq<Pin>)
    ensures PinnedPiece(pinned, boundary) == One(PinnedPart(boundary, pinned))
  {
    hide Join, WrapAsData;
    assert PinTexts(boundary, pinned) == seq(|pinned|, k requires 0 <= k < |pinned| => WrapPin(boundary, pinned[k]));
  }

  lemma AboveInPieces(settings: Settings, known: string, input: BuildInput)
    ensures Above(settings, input, SplitRecord(input.record), known)
         == Piece(JOB_HEADING, input.jobSummary)
            + (if input.standingOrder == "" then [] else [StandingOrderMessage(input.standingOrder)])
            + (if input.recentWork == [] then []
               else [AsUserMessage(RECENT_WORK_HEADING, Join(AtMost(input.recentWork, MAX_RECENT_TASKS), "\n"))])
            + Piece(FIRST_HALF_HEADING, SplitRecord(input.record).stable) + Piece(KNOWN_HEADING, known)
            + PinnedPiece(input.pinned, settings.boundary)
  {
    hide SplitRecord, Piece, StandingOrderMessage, AsUserMessage, Join, AtMost, PinnedPiece;
  }

  lemma PartsAboveInOnes(boundary: string, known: string, input: BuildInput)
    ensures Present(PartsAbove(boundary, known, input))
         == One(Part(input.jobSummary != "", FromTheUser(JOB_HEADING + "\n\n" + input.jobSummary)))
            + One(OrderPart(input.standingOrder)) + One(RecentPart(input.recentWork))
            + One(Part(SplitRecord(input.record).stable != "",
                       FromTheUser(FIRST_HALF_HEADING + "\n\n" + SplitRecord(input.record).stable)))
            + One(Part(known != "", FromTheUser(KNOWN_HEADING + "\n\n" + known))) + One(PinnedPart(boundary, input.pinned))
  {
    hide OrderPart, RecentPart, PinnedPart, One, Present, SplitRecord, FromTheUser;
    var parts := PartsAbove(boundary, known, input);
    PresentOfSix(parts[0], parts[1], parts[2], parts[3], parts[4], parts[5]);
    assert parts == [parts[0], parts[1], parts[2], parts[3], parts[4], parts[5]];
  }

  lemma BelowHolds(settings: Settings, input: BuildInput, listed: string)
    ensures Below(settings, input, SplitRecord(input.record), listed)
         == Present(PartsBelow(settings.boundary, input, listed))
  {
    hide SplitRecord, Join, MarkResultLines, Present, Newest, AllPictures, LabelsOf;
    var parts := PartsBelow(settings.boundary, input, listed);
    PresentOfSix(parts[0], parts[1], parts[2], parts[3], parts[4], parts[5]);
    assert parts == [parts[0], parts[1], parts[2], parts[3], parts[4], parts[5]];
  }

  /** Whenever a build succeeds its messages are exactly the parts above, the
      conversation as it is shown, and the parts below, in that order and each left out
      only when it has nothing in it. The list of results names what the conversation
      does not show in full. */
  lemma WhatAPromptHolds(settings: Settings, persona: string, known: string, input: BuildInput)
      returns (conversation: seq<Message>, from: nat)
    requires BuildRequest(settings, persona, known, input).Ok?
    ensures from <= |input.messages| && ShownOf(settings.boundary, conversation, input.messages[from..])
    ensures from == |input.messages| - FitCount(Conversation(settings, input), RoomFor(settings, persona, known, input).value)
    ensures BuildRequest(settings, persona, known, input).value.messages
         == Present(PartsAbove(settings.boundary, known, input)) + conversation
            + Present(PartsBelow(settings.boundary, input,
                                 ResultsThatLeft(SplitRecord(input.record).results, LabelsOn(conversation))))
  {
    hide SplitRecord, Above, Below, PartsAbove, PartsBelow, Present, ShownOf, ResultsThatLeft, LabelsOn, OnTheTable, FitCount,
         Conversation, SystemBlocks, RoomFor, WithoutMessages;
    var room := RoomFor(settings, persona, known, input).value;
    conversation := OnTheTable(settings, input, room);
    from := |input.messages| - FitCount(Conversation(settings, input), room);
    TheTableIsShown(settings, input, room);
    AboveHolds(settings, known, input);
    BelowHolds(settings, input, ResultsThatLeft(SplitRecord(input.record).results, LabelsOn(conversation)));
  }

  /** Above the cache line stand the instructions, the persona with the skills under it
      when there is either, and the tools when there are any; the last of the first two
      and the last of all end a part the provider may keep. */
  lemma WhatStandsAboveTheCacheLine(settings: Settings, persona: string, known: string, input: BuildInput)
    requires BuildRequest(settings, persona, known, input).Ok?
    ensures var request := BuildRequest(settings, persona, known, input).value;
      && request.tools == input.tools && request.maxOutputTokens == settings.maxOutputTokens
      && |request.systemBlocks| == 1 + (if persona == "" && settings.skills == "" then 0 else 1) + (if input.tools == [] then 0 else 1)
      && request.systemBlocks[0].name == "instructions" && request.systemBlocks[0].text == settings.instructions
      && (persona == "" && settings.skills == "" ==> request.systemBlocks[0].boundary == BoundaryA)
      && (persona != "" || settings.skills != "" ==>
            && request.systemBlocks[0].boundary == NoBoundary
            && request.systemBlocks[1] == SystemBlock("persona",
                 if settings.skills == "" then persona
                 else if persona == "" then settings.skills
                 else persona + "\n\n" + settings.skills, BoundaryA))
      && (input.tools != [] ==>
            request.systemBlocks[|request.systemBlocks| - 1] == SystemBlock("tools", TOOLS_HEADING, BoundaryB))
  {
    hide RoomFor, PromptMessages;
  }

  // ---------------------------------------------------------------- the room

  /** The request without its conversation, with the whole list of results. */
  function EverythingElse(settings: Settings, persona: string, known: string, input: BuildInput): Request {
    WithoutMessages(settings, persona, input).(messages :=
      Present(PartsAbove(settings.boundary, known, input))
      + Present(PartsBelow(settings.boundary, input, SplitRecord(input.record).results)))
  }

  function WithoutPinsAndHint(input: BuildInput): BuildInput { input.(pinned := [], memoryHint := []) }

  lemma EverythingElseCosts(settings: Settings, persona: string, known: string, input: BuildInput)
    ensures EstimateRequestTokens(EverythingElse(settings, persona, known, input))
         == FixedCost(settings, persona, known, input, SplitRecord(input.record))
            + TotalTokens(PinnedPiece(input.pinned, settings.boundary)) + TotalTokens(HintPiece(input.memoryHint))
  {
    hide SplitRecord, PartsAbove, PartsBelow, Present, PerTaskFront, Piece, PinnedPiece, ResultsPiece, HintPiece, PicturesMessage,
         Newest, AllPictures, NextStepPiece, TotalTokens, SystemBlocks;
    var parts := SplitRecord(input.record);
    var front, told, pins := PerTaskFront(input, parts), Piece(KNOWN_HEADING, known), PinnedPiece(input.pinned, settings.boundary);
    var body, results := Piece(SECOND_HALF_HEADING, parts.body), ResultsPiece(settings.boundary, parts.results);
    var hint, header := HintPiece(input.memoryHint), Piece(HEADER_HEADING, parts.standing);
    var pictures, next := PicturesMessage(Newest(AllPictures(input.messages))), NextStepPiece(input.record);
    AboveHolds(settings, known, input);
    BelowHolds(settings, input, parts.results);
    NoPinsCostNothing(settings.boundary);
    TotalOfAppend(front + told + pins, body + results + hint + header + pictures + next);
    TotalOfAppend(front + told, pins);
    TotalOfAppend(front, told);
    TotalOfAppend(body + results + hint + header + pictures, next);
    TotalOfAppend(body + results + hint + header, pictures);
    TotalOfAppend(body + results + hint, header);
    TotalOfAppend(body + results, hint);
    TotalOfAppend(body, results);
  }

  lemma PinsAndHintAreApart(settings: Settings, persona: string, known: string, input: BuildInput)
    ensures var bare := WithoutPinsAndHint(input);
      && FixedCost(settings, persona, known, bare, SplitRecord(bare.record))
         == FixedCost(settings, persona, known, input, SplitRecord(input.record))
      && PinnedPiece(bare.pinned, settings.boundary) == [] && HintPiece(bare.memoryHint) == [] && TotalTokens([]) == 0
  {
    hide SplitRecord, Piece, PicturesMessage, Newest, AllPictures, ResultsPiece, StandingOrderMessage, AsUserMessage,
         EstimateRequestTokens;
    NoPinsCostNothing(settings.boundary);
    assert WithoutMessages(settings, persona, WithoutPinsAndHint(input)) == WithoutMessages(settings, persona, input);
  }

  /** A build is refused exactly when everything but the conversation, with the whole list
      of results, does not fit: without the pins and the hint it fills the window, or with
      them it passes it. When a part that is not a pin is too much the refusal says what
      was needed; otherwise it names the first of the largest pins and what all of them
      cost. What is left is the room the conversation is fitted to. */
  lemma TheConversationGetsWhatIsLeft(settings: Settings, persona: string, known: string, input: BuildInput)
    ensures var built, context := BuildRequest(settings, persona, known, input), input.contextLength - settings.maxOutputTokens;
      var whole := EstimateRequestTokens(EverythingElse(settings, persona, known, input));
      var bare := EstimateRequestTokens(EverythingElse(settings, persona, known, WithoutPinsAndHint(input)));
      && (built.Err? <==> bare >= context || whole > context)
      && (built.Err? && (bare >= context || input.pinned == []) ==>
            built.error == NoRoomForTheRecord(if bare >= context then bare else whole, input.contextLength, settings.maxOutputTokens))
      && (built.Err? && bare < context && input.pinned != [] ==>
            built.error.PinnedEvidenceTooLarge? && IsFirstLargest(input.pinned, built.error.largest))
      && (built.Ok? ==> RoomFor(settings, persona, known, input) == Ok(context - whole))
  {
    hide SplitRecord, FixedCost, PinnedPiece, HintPiece, TotalTokens, PromptMessages, WithoutMessages, LargestPin,
         EverythingElse, EstimateRequestTokens, IsFirstLargest;
    EverythingElseCosts(settings, persona, known, input);
    EverythingElseCosts(settings, persona, known, WithoutPinsAndHint(input));
    PinsAndHintAreApart(settings, persona, known, input);
    NoPinsCostNothing(settings.boundary);
    if input.pinned != [] {
      TheLargestIsFirst(input.pinned);
    }
  }

  /** And the conversation starts as far back as it can: a run of the newest messages, each
      as it is shown, fits what everything else leaves exactly when it is no longer than
      the one that is kept. */
  lemma TheConversationIsTheLongestThatFits(settings: Settings, persona: string, known: string, input: BuildInput, n: nat)
    requires BuildRequest(settings, persona, known, input).Ok? && n <= |input.messages|
    ensures TotalTokens(Last(Conversation(settings, input), n)) + settings.maxOutputTokens
            + EstimateRequestTokens(EverythingElse(settings, persona, known, input)) <= input.contextLength
      <==> n <= FitCount(Conversation(settings, input), RoomFor(settings, persona, known, input).value)
  {
    hide BuildRequest, EverythingElse, EstimateRequestTokens, Conversation, TotalTokens, Last, FitCount, RoomFor;
    TheConversationGetsWhatIsLeft(settings, persona, known, input);
    RoomIsNotLess(settings, persona, known, input);
    FitIsTheLongestThatFits(Conversation(settings, input), RoomFor(settings, persona, known, input).value, n);
  }

  lemma RoomIsNotLess(settings: Settings, persona: string, known: string, input: BuildInput)
    ensures RoomFor(settings, persona, known, input).Ok? ==> RoomFor(settings, persona, known, input).value >= 0
    ensures BuildRequest(settings, persona, known, input).Ok? <==> RoomFor(settings, persona, known, input).Ok?
  {
    hide SplitRecord, FixedCost, PinnedPiece, HintPiece, TotalTokens, PromptMessages, WithoutMessages, LargestPin;
  }

  predicate IsFirstLargest(pins: seq<Pin>, largest: Pin) {
    exists at | 0 <= at < |pins| :: pins[at] == largest
      && (forall k | 0 <= k < at :: |pins[k].text| < |largest.text|)
      && (forall k | 0 <= k < |pins| :: |pins[k].text| <= |largest.text|)
  }

  lemma TheLargestIsFirst(pins: seq<Pin>)
    requires pins != []
    ensures IsFirstLargest(pins, LargestPin(pins))
  {
    var largest := LargestPin(pins);
    var at :| 0 <= at < |pins| && pins[at] == largest && forall k | 0 <= k < at :: |pins[k].text| < |largest.text|;
  }

  lemma NoPinsCostNothing(boundary: string)
    ensures TotalTokens(PinnedPiece([], boundary)) == 0 && TotalTokens([]) == 0
  {
  }

  // ---------------------------------------------------------------- the lines of the record

  lemma {:induction false} JoinedEnd(lines: seq<string>)
    requires lines != []
    ensures var joined, last := Join(lines, "\n"), lines[|lines| - 1];
      && (last == "" && |lines| > 1 ==> joined == Join(lines[..|lines| - 1], "\n") + "\n")
      && (last != "" ==> joined != "" && joined[|joined| - 1] == last[|last| - 1])
  {
    if |lines| > 1 {
      JoinedEnd(lines[1..]);
      if lines[|lines| - 1] == "" {
        if |lines| == 2 {
          assert lines[1..] == [""] && lines[..1] == [lines[0]];
        } else {
          assert lines[1..][..|lines| - 2] == lines[..|lines| - 1][1..];
        }
      }
    }
  }

  /** Taking the line breaks off the end of joined lines loses no line that says
      anything. */
  lemma {:induction false} TrimmingLosesNoWords(lines: seq<string>, line: string)
    requires AllOneLine(lines) && line in lines && line != ""
    ensures line in Lines(TrimRight(Join(lines, "\n"), NEWLINE))
  {
    hide Lines;
    var last := lines[|lines| - 1];
    JoinedEnd(lines);
    if last == "" {
      var front := lines[..|lines| - 1];
      assert lines == front + [last];
      assert line in front;
      var joined := Join(lines, "\n");
      assert joined[..|joined| - 1] == Join(front, "\n");
      TrimmingLosesNoWords(front, line);
    } else {
      assert OneLine(last);
      LinesOfJoin(lines);
    }
  }

  /** A message of the prompt opens with this heading and has this line under it. */
  ghost predicate ShownUnder(messages: seq<Message>, heading: string, line: string) {
    exists text: string :: FromTheUser(heading + "\n\n" + text) in messages && line in Lines(text)
  }

  lemma PartIsShown(parts: seq<Part>, k: nat, messages: seq<Message>, heading: string, text: string, line: string)
    requires k < |parts| && parts[k] == Part(text != "", FromTheUser(heading + "\n\n" + text))
    requires forall m | m in Present(parts) :: m in messages
    requires line in Lines(text) && line != ""
    ensures ShownUnder(messages, heading, line)
  {
    assert Lines("") == [""];
    EveryPresentPartIsThere(parts, k);
  }

  /** For every record the printer writes, whatever the window does, each line of it that
      says anything is under its own heading: the goal and the rules above the
      conversation, the done list, the work and the lessons below it, and the header
      last. */
  lemma TheRecordIsShown(settings: Settings, persona: string, known: string, input: BuildInput, line: string)
    requires BuildRequest(settings, persona, known, input).Ok?
    requires input.record.kind != "" && WellPrinted(input.record) && line != ""
    ensures var messages := BuildRequest(settings, persona, known, input).value.messages; var record := input.record;
      && (line in record.goal + record.rules ==> ShownUnder(messages, FIRST_HALF_HEADING, line))
      && (line in record.work + record.lessons ==> ShownUnder(messages, SECOND_HALF_HEADING, line))
      && (line in record.doneWhen ==> ShownUnder(messages, SECOND_HALF_HEADING, "- " + line))
      && (line in record.header ==> ShownUnder(messages, HEADER_HEADING, line))
  {
    hide Lines, TrimRight, Join, BuildRequest, ShownOf, RoomFor, Conversation, FitCount, SplitRecord, ResultsThatLeft, LabelsOn, Present, ShownUnder, PinTexts,
         MarkResultLines, Newest, AllPictures, LabelsOf, StableText, BodyText, Itoa;
    var conversation, _ := WhatAPromptHolds(settings, persona, known, input);
    var record, messages := input.record, BuildRequest(settings, persona, known, input).value.messages;
    var listed := ResultsThatLeft(SplitRecord(record).results, LabelsOn(conversation));
    var above, below := PartsAbove(settings.boundary, known, input), PartsBelow(settings.boundary, input, listed);
    SplitIsExact(record);
    LinesOfTheRecord(record, line);
    if line in record.goal + record.rules {
      PartIsShown(above, 3, messages, FIRST_HALF_HEADING, StableText(record), line);
    }
    if line in record.work + record.lessons {
      PartIsShown(below, 0, messages, SECOND_HALF_HEADING, BodyText(record), line);
    }
    if line in record.doneWhen {
      PartIsShown(below, 0, messages, SECOND_HALF_HEADING, BodyText(record), "- " + line);
    }
    if line in record.header {
      PartIsShown(below, 3, messages, HEADER_HEADING, TrimRight(Join(HeaderPart(record), "\n"), NEWLINE), line);
    }
  }

  lemma LinesOfTheRecord(record: Record, line: string)
    requires WellPrinted(record) && line != ""
    ensures line in record.goal + record.rules ==> line in Lines(StableText(record))
    ensures line in record.work + record.lessons ==> line in Lines(BodyText(record))
    ensures line in record.doneWhen ==> "- " + line in Lines(BodyText(record))
    ensures line in record.header ==> line in Lines(TrimRight(Join(HeaderPart(record), "\n"), NEWLINE))
  {
    hide Lines, TrimRight, Join;
    PartsAreOneLine(record);
    if line in record.goal + record.rules {
      assert line in StablePart(record);
      TrimmingLosesNoWords(StablePart(record), line);
    }
    if line in record.header {
      assert line in HeaderPart(record);
      TrimmingLosesNoWords(HeaderPart(record), line);
    }
    BodyIsJoined(record);
    if line in record.work + record.lessons {
      assert line in BodyLines(record);
      TrimmingLosesNoWords(BodyLines(record), line);
    }
    if line in record.doneWhen {
      DoneLineIsThere(record, line);
      TrimmingLosesNoWords(BodyLines(record), "- " + line);
    }
  }

  function BodyLines(record: Record): seq<string> {
    var work := [WORK_HEADING] + record.work + LessonsPart(record);
    if record.doneWhen == [] then work else DoneBlock(record) + [""] + work
  }

  lemma PartsAreOneLine(record: Record)
    requires WellPrinted(record)
    ensures AllOneLine(StablePart(record)) && AllOneLine(HeaderPart(record)) && AllOneLine(BodyLines(record))
  {
    hide DoneBlock;
    ListsAreOneLine(record);
  }

  lemma BodyIsJoined(record: Record)
    ensures BodyText(record) == TrimRight(Join(BodyLines(record), "\n"), NEWLINE)
  {
    hide TrimRight, LessonsPart;
    var work := [WORK_HEADING] + record.work + LessonsPart(record);
    if record.doneWhen != [] {
      var done := DoneBlock(record);
      JoinOfAppend(done + [""], work, "\n");
      JoinOfAppend(done, [""], "\n");
      assert Join([""], "\n") == "";
      assert Join(done, "\n") + "\n" + "" + "\n" + Join(work, "\n") == Join(done, "\n") + "\n\n" + Join(work, "\n");
    }
  }

  lemma DoneLineIsThere(record: Record, line: string)
    requires line in record.doneWhen
    ensures "- " + line in BodyLines(record)
  {
    hide LessonsPart;
    var k :| 0 <= k < |record.doneWhen| && record.doneWhen[k] == line;
    assert MarkedItems(record.doneWhen)[k] == "- " + line;
    assert DoneBlock(record)[k + 1] == "- " + line;
    assert BodyLines(record)[k + 1] == "- " + line;
  }

  /** Each pin is in front of the model word for word, but for copies of the boundary,
      between the two lines that mark it as data. */
  lemma EveryPinIsShown(settings: Settings, persona: string, known: string, input: BuildInput, k: nat)
    requires BuildRequest(settings, persona, known, input).Ok? && k < |input.pinned|
    ensures exists text: string ::
      && FromTheUser(PINNED_HEADING + "\n\n" + text) in BuildRequest(settings, persona, known, input).value.messages
      && Holds(text, WrapAsData(settings.boundary, "pinned " + input.pinned[k].id + "\n" + input.pinned[k].text))
  {
    hide Join, WrapAsData, BuildRequest, ShownOf, RoomFor, Conversation, FitCount, SplitRecord, ResultsThatLeft, LabelsOn, Present, PartsBelow, Lines, TrimRight, Itoa,
         Holds;
    var _, _ := WhatAPromptHolds(settings, persona, known, input);
    var above := PartsAbove(settings.boundary, known, input);
    EveryPresentPartIsThere(above, 5);
    JoinedHoldsEach(PinTexts(settings.boundary, input.pinned), "\n\n", k);
  }

  lemma {:induction false} JoinedHoldsEach(parts: seq<string>, sep: string, k: nat)
    requires k < |parts|
    ensures Holds(Join(parts, sep), parts[k])
  {
    hide Holds;
    var joined := Join(parts, sep);
    if k == 0 {
      assert OccursAt(joined, 0, parts[0]);
      HoldsWhenItOccurs(joined, parts[0], 0);
    } else {
      JoinedHoldsEach(parts[1..], sep, k - 1);
      var rest := Join(parts[1..], sep);
      assert joined[|joined| - |rest|..|joined|] == rest;
      PiecesHoldNoMore(joined, |joined| - |rest|, |joined|, parts[k]);
    }
  }
}
