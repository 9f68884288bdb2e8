# Nerd Genie: a verified model

Nerd Genie is an agent that lives on one machine: people write to it over channels, one
drainer hands their messages to a turn loop, a builder assembles every prompt under one
window rule, and screens watch the work and answer its questions. This project models the
parts of it where the hard promises are and proves them.

- **The prompt.** `Text`, `Marker`, `Estimate`, `Pictures`, `RecordSplit`, `Window` and
  `Builder` model how a prompt is built: the printed record is cut in four, the room is
  settled against the whole list of results, the conversation is fitted newest first, and the
  list is shortened to what left the table. The bound on the whole request and the prefix a
  provider can cache are proved of every build, and `Prompt` says word for word what it holds.
- **The queue and the loop.** `Queue` is the durable table and its histories across restarts,
  and `Line` the line of messages it is shown to keep; `Serving` is the drainer, the tasks, the job driver, `/clear` and the loop's own memory as a
  machine of atomic steps over that table, with a crash possible between any two. Every state of
  every run is shown to keep its owners and its nudge, and which messages it can lose is said
  exactly; `Progress` shows that it goes on, so that a message that waits is taken in bounded steps.
- **The screens.** `Deltas` streams a reply without letting a secret out in pieces,
  `Reappearing` says when a secret can be found in text it was redacted from, `Stream` is the
  feed that drops slow readers, and `Preview` is the protocol that matches answers to questions,
  as a machine with a class that takes its steps.
- **Going back.** `Undo` is `/undo` as an inverse, `Resuming` and `Rebuilding` are the memory of
  screens and its rebuild from the log, which `Restarting` tells from the log alone, `CodeMap` prints
  a map and reads it back, with what the map shows in `MapShows`, and `Wire` is
  the wire form of labels and task lists.

Values are datatypes and pure functions; what the source changes in place is a class whose
methods are proved against those functions; what the source does in a loop is a method with
that loop. Text is a sequence of characters where the source counts bytes or runes.

## What the proofs found

Where the code falls short of a promise it is modelled as it is.

With the exact condition proved and an input that fails:

- A message can be lost although docs/ARCHITECTURE_HISTORY.md:845 says it cannot. One that finds
  the loop busy is put in the loop's memory and marked done; a crash before the running task
  reads it, a stop word read before it, a failed route, or a refused turn leaves nothing of it
  (`Serving.AMessageIsLostExactlyWhen`, `Serving.ASteerIsLostInACrash`).
- A message can wait for good. When a take fails the drainer goes back to waiting for a nudge, and
  the one that woke it is spent; what waits is then left until another message comes or the program
  starts again (`Progress.AMessageIsStrandedExactlyWhen`, `Progress.AFailedTakeStrands`).
- `/undo` reads 20000 events past the newest message, and a file over 4 MiB is logged as having
  existed with empty contents, although internal/tool/write/change.go:14-17 says the log can
  tell the two apart (`Undo.UndoIsAnInverseExactlyWhen`, `Undo.ABigFileComesBackEmpty`,
  `Undo.ALateChangeStays`).
- Holding back 64 runes does not cover every known secret of up to 64 runes: one that contains
  another can show, cut short, as more than 64 runes of markers
  (`Deltas.HoldingBackIsEnoughExactlyWhenSteady`, `Deltas.ASecretInsideAnotherIsNotSteady`).
- Screens redact every piece a second time as it is written. What they show is what they were
  told exactly when no secret but the marker's own words can be found in redacted text; a
  password "redact" can (`Deltas.ShownAsToldExactlyWhen`, `Deltas.ASecretInTheMarkerIsShownTwice`).
- A source file or a test whose first line is shaped as a heading spoils the listing of a map
  (`CodeMap.ListedExactlyWhenNoHeading`, `CodeMap.OneFileReadAsAHeading`).
- The screen forgotten at the cap is the one that first spoke longest ago, not the one quiet
  longest as cmd/nerdgenie/resuming.go:18-22 says (`Resuming.TheOrderIsByFirstWord`,
  `Resuming.FrontIsQuietestExactlyWhen`, `Resuming.TheLoudestIsForgotten`).
- A job task with no label and no words is not read back from its line, nor is one whose text
  begins with a label it does not have (`Wire.ATaskIsReadBackExactlyWhenReadable`).
- A start names a task interrupted again exactly when its mark did not decide; a running task
  whose record has one checkpoint that does not decode is never marked
  (`Resuming.StartingAgainIsTheSame`, `Resuming.AnUndecodableCheckpointIsNeverMarked`).
- A pinned result's line begins with the pin mark, which is what the list takes for its name,
  so it stays listed while it is also shown in full (`Window.EveryResultIsListedOrShown`,
  `Window.APinnedResultIsListedAndShown`).

And one edge of a rule, proved exactly: a prompt whose parts fill the window to the last token is
refused (`Builder.RefusedExactlyWhenThePartsDoNotFit`).

The bound on a prompt is proved for a boundary on one line, which is the only kind `NewBoundary`
makes.

## Model

| member | source | states |
|---|---|---|
| Builder.BuiltPromptFits | internal/context/window.go:49-126 | Whenever a build succeeds, the estimate of the whole request returned plus the output cap is at most the context length, for every record, pins, hint, tools and conversation |
| Builder.ShortenedListCostsNoMore | internal/context/window.go:55-94 | The list of results cut to what left the table and wrapped afresh never costs more than the whole list the room was settled against |
| Builder.RefusedExactlyWhenThePartsDoNotFit | internal/context/window.go:113-126 | A build is refused exactly when the parts that must ride leave no room, and the pin it names is a largest one |
| Builder.CachePrefixIsStable | internal/context/doc.go:17-37 | Two builds of one task whose windows start at the same message have the same system blocks and tools, and everything of the first prompt up to the end of its conversation begins both |
| Builder.CachePrefixWhenBothFitWhole | internal/context/window.go:79-107 | When both conversations fit whole, that prefix of the first prompt begins the second whatever pictures, results, body and header did |
| Builder.OnlyTheGoalAndTheRulesAreAbove | internal/context/recordsplit.go:56-76 | Of a record, only its goal and rules can move the text above the conversation |
| Builder.NoResultDanglesInAPrompt | internal/context/window.go:222-247 | No tool result in a built prompt's conversation answers a call that is not in it |
| Builder.Builder.SettleTheRoom | internal/context/window.go:83-126 | The room computed piece by piece is the window rule's, with the refusal that names what did not fit |
| Builder.Builder.PinsDoNotFit | internal/context/window.go:294-303 | The refusal names the first of the largest pins |
| Builder.Builder.Build | internal/context/builder.go:178-215 | The program's own building appends the pieces in the order of how often each changes and returns exactly the specified request or refusal |
| Prompt.WhatAPromptHolds | internal/context/window.go:49-108 | Whenever a build succeeds its messages are exactly the parts above, the conversation as it is shown, and the parts below: every part that is not empty as one message of its literal heading, a blank line and its text, in the source's order; the conversation is some of the newest messages, word for word, each result under its label between the two marker lines with no copy of the boundary in it |
| Prompt.TheRecordIsShown | internal/context/window.go:142-158 | For every record the printer writes, whatever the window does, each goal and rule line is under the first heading, each work, lesson and done line under the second, and each header line under the last |
| Prompt.EveryPinIsShown | internal/context/builder.go:178-215 | Each pin is in the prompt, wrapped as data, under its heading |
| Prompt.TheTableIsShown | internal/context/window.go:207-273 | What the window shows is some of the newest messages in order, each result marked as data and without its picture |
| Prompt.TheConversationGetsWhatIsLeft | internal/context/window.go:83-126 | A build is refused exactly when the estimate of everything but the conversation, with the whole list of results, fills the window without the pins and the hint or passes it with them; the refusal says what was needed, or names the first of the largest pins; otherwise the rest is the room |
| Prompt.TheConversationIsTheLongestThatFits | internal/context/window.go:207-216 | A run of newest messages, as shown, fits what everything else leaves if and only if it is no longer than the one the prompt keeps |
| Prompt.WhatStandsAboveTheCacheLine | internal/context/builder.go:221-250 | The system blocks are the instructions, the persona with the skills under it, and the tools, with the two boundaries where the provider may keep what is before them |
| Window.FitIsTheLongestThatFits | internal/context/window.go:207-216 | A run of newest messages fits the room if and only if it is no longer than what is kept |
| Window.OrphanRemovalLeavesNoneDangling | internal/context/window.go:222-235 | After removal every result answers a call kept earlier |
| Window.KeptExactlyWhenItsCallsAre | internal/context/window.go:222-246 | The next message is kept if and only if every result in it answers a call that a message kept before it made |
| Window.NothingDanglingIsKept | internal/context/window.go:222-235 | A run in which nothing dangles is left whole |
| Window.OrphansOfAppend | internal/context/window.go:222-235 | What is dropped from a run does not depend on what follows it |
| Window.OrphanRemovalCostsNoMore | internal/context/window.go:222-235 | Removing orphans never costs tokens |
| Window.AnItemIsListedUnlessOnTheTable | internal/context/window.go:180-202 | An item of any list is still listed exactly when its name is not the label of a result in the window |
| Window.EveryResultIsListedOrShown | internal/context/window.go:161-202 | A result of the record is listed if and only if it is pinned or not shown in full, so nothing is lost |
| Window.APinnedResultIsListedAndShown | internal/record/print.go:319-326 | A pinned result shown in full is still listed: the concrete overlap |
| Window.FitTheNewestFirst | internal/context/window.go:207-216 | The loop from the newest message back keeps the specified window |
| Window.WithoutOrphanResults | internal/context/window.go:222-235 | The loop over calls seen so far removes exactly the orphans |
| Window.LosesItsCall | internal/context/window.go:239-246 | A message loses its call when one of its results answers a call not seen |
| Window.WhichLabelsAreOn | internal/context/window.go:161-171 | A label is on the table if and only if it is some result's there and is not empty |
| Window.LabelsOnTheTable | internal/context/window.go:161-171 | The labels collected are those of every labelled result |
| Window.ResultsThatLeftTheTable | internal/context/window.go:180-202 | The loop drops the items on the table, and the label with the last of them |
| Window.WrapToolResults | internal/context/window.go:251-273 | Results are marked on copies, and everything else is left as it was |
| Marker.WrapLeavesTwoBoundaries | internal/context/marker.go:77-94 | Wrapped text carries the boundary exactly twice, in its first and last line, for every text and every number of overlapping copies in it |
| Marker.WrapKeepsTheText | internal/context/marker.go:77-94 | Text with no copy of the boundary is between the lines word for word |
| Marker.DroppingLinesNeverLengthens | internal/context/marker.go:77-94 | Dropping lines before wrapping never lengthens the result, for every boundary that is one line |
| Marker.DroppingLengthensAcrossANewline | internal/context/marker.go:89-94 | A boundary with a newline in it, and lines whose dropping lengthens the result |
| Marker.TheResultLabel | internal/context/marker.go:145-152 | The scan finds the first label of a list of results |
| Marker.MarkTheResultLines | internal/context/marker.go:124-140 | Only the items of the list are wrapped, and what follows them stays outside |
| Marker.OnlyTheItemsAreMarked | internal/context/marker.go:124-140 | Of the lines of any text exactly the items of the first list in it are wrapped, and a list with none is left word for word |
| Marker.NothingElseIsMarked | internal/context/marker.go:124-128 | Text with no list in it comes back word for word |
| Pictures.WithoutPictures | internal/context/pictures.go:31-52 | The backward loops strip every picture and keep the newest of all of them, newest first |
| Pictures.StripOne | internal/context/pictures.go:34-50 | One message's pictures, newest first, added until the cap |
| Pictures.TheNewestAreShown | internal/context/pictures.go:31-52 | Every picture with fewer than two after it is kept, alone under its label, at the place that says how many come after it |
| Pictures.LaterMessagesFirst | internal/context/pictures.go:34-50 | The pictures of a longer conversation are those of its later part before those of its earlier one |
| Estimate.CountRequest | internal/context/estimate.go:57-68 | The loops count the sum of what each block, message and tool costs |
| Estimate.CountMessage | internal/context/estimate.go:74-87 | A message costs its text, its calls and its results |
| Estimate.CountToolSpec | internal/context/estimate.go:91-98 | A tool costs its names, its words and its fields |
| Estimate.ShorterCostsNoMore | internal/context/estimate.go:49-51 | Text no longer is never counted at more tokens |
| Estimate.TheCountFollowsTheText | internal/context/estimate.go:57-98 | For every request, the characters of all blocks, messages, calls, results, tools and fields cost at least thirty-three hundredths of their number, with eight a message, twelve a call, result, tool and field and eight hundred a picture, and at most what rounding every text up adds |
| RecordSplit.SplitIsExact | internal/context/recordsplit.go:56-116 | For every record the printer writes, the four pieces are the goal and rules, the done list and body, the list of results, and the header, and nothing is lost between them |
| RecordSplit.PrintedReadsBack | internal/record/print.go:122-136 | Splitting a printed record at its line breaks gives back the lines that were printed |
| RecordSplit.ResultsAreAList | internal/context/recordsplit.go:101-116 | The results cut out of any record are nothing, or a label line and its items |
| RecordSplit.SplitTheRecord | internal/context/recordsplit.go:56-76 | The cuts at the three headings and the two lists give the specified pieces |
| RecordSplit.CutOutTheList | internal/context/recordsplit.go:82-116 | The loop of both cutters ends at the first line that is not an item and rejoins what is left |
| RecordSplit.TheResultsAreCutOut | internal/context/recordsplit.go:101-116 | For any lines, the list cut out is the first under a label with all of its items, and one with none stays |
| RecordSplit.TheDoneListIsCutOut | internal/context/recordsplit.go:82-96 | The done list is cut out with its label and all of its items |
| RecordSplit.AGoalIsCutFromTheWork | internal/context/recordsplit.go:56-76 | For any lines with a goal before their work, what is before the goal is the header, and the goal and the work are cut each on its own |
| RecordSplit.NoGoalIsAllBody | internal/context/recordsplit.go:56-66 | Lines with no goal before their work are all body |
| RecordSplit.ATaskIsPrinted | internal/record/print.go:100-110 | A task, line by line |
| RecordSplit.AJobIsPrinted | internal/record/print.go:100-110 | A job, line by line, under the label of its reports, with a pinned one marked |
| Queue.QueueKeepsOrderAndBound | internal/channel/queue.go:164-218 | Over every history of adds, takes, finishes and restarts: messages go out in increasing order within a run, one is marked a duplicate exactly when an earlier run had handed it out, and the unfinished never pass the capacity |
| Queue.HandledStaysBelowWaiting | internal/channel/queue.go:194-218 | When only what was taken is finished, every taken or finished number is below every waiting one |
| Queue.RecoveryLosesNone | internal/channel/queue.go:303-316 | Opening puts every unfinished message back in the line with its count of takes |
| Queue.RecoveryAddsNone | internal/channel/queue.go:303-316 | And nothing else is in the line |
| Queue.RecoveryKeepsTheOrder | internal/channel/queue.go:303-316 | Opening keeps numbers increasing and below the next |
| Queue.MessageQueue.Open | internal/channel/queue.go:113-133 | A queue opened holds exactly what recovery leaves |
| Queue.MessageQueue.Add | internal/channel/queue.go:164-189 | A message is accepted exactly when it says something, names a channel, the queue is open and below capacity; then it is on disk under the next number and the nudge is full |
| Queue.MessageQueue.Take | internal/channel/queue.go:194-218 | The oldest waiting message is handed out and marked taken, or nothing changes |
| Queue.MessageQueue.Finish | internal/channel/queue.go:223-244 | The unfinished message with that number is done, or the refusal says why and nothing changes |
| Line.TheTableKeepsTheLine | internal/channel/queue.go:164-244 | Over every history of adds, takes, finishes and restarts the table keeps exactly a line of messages with no table in it: what is unfinished, what may be handed out next, what was handed out, when and whether before, and how many are held |
| Line.WhatIsHandedOutWasAdded | internal/channel/queue.go:194-218 | What is handed out under a number is the very message added under it, restarts included |
| Line.TheOldestIsTheLeast | internal/channel/queue.go:201-205 | The row a take finds is the least number that is unfinished and not handed out since the start |
| Serving.EveryRunKeepsItsPromises | cmd/nerdgenie/serving.go:57-130 | Over every interleaving and every crash: an accepted message is in a row, in the loop's memory, or something came of it, unless a step that loses messages lost it; each taken message has exactly one owner, at most two are taken, none is finished twice in a run, what is finished is in hand, the loop is busy exactly when it has its one owner and every taking is matched by one freeing or that owner, and a drainer that saw the queue empty is nudged when anything waits |
| Serving.AMessageIsLostExactlyWhen | internal/loop/loop.go:364-382 | Over every run, a message is in no row and no memory with nothing come of it if and only if an earlier step marked it done after its route failed, its turn was refused or it was dropped unread, or dropped it or crashed when it was done and unread |
| Serving.WhatAStepLoses | internal/loop/midturn.go:34-47 | Each step loses exactly those messages, and what is lost stays lost |
| Serving.ASteerIsLostInACrash | cmd/nerdgenie/starting.go:51-53 | A run in which a person's words to a running task are accepted, marked done, and gone after a crash |
| Serving.MemoryStaysOnce | internal/loop/loop.go:364-382 | Every step keeps each delivered message in memory once, and only done or just delivered |
| Serving.OutcomesStayTrue | cmd/nerdgenie/serving.go:72-94 | Every step keeps what the drainer and the tasks take to have come of a message true |
| Serving.Loop.DeliverTo | internal/loop/loop.go:364-373 | A message is put in the loop's memory exactly when it has room, and is otherwise a failed route |
| Serving.Loop.TakeThemAll | internal/loop/loop.go:376-382 | The running task takes everything delivered, oldest first, and leaves nothing |
| Serving.EveryRunIsSafe | cmd/nerdgenie/serving.go:57-130 | Every state of every run keeps the loop owned, the messages owned, the memory once, the outcomes true, finishes single and the nudge |
| Serving.LoopStaysOwned | cmd/nerdgenie/starting.go:98-131 | Every step keeps the loop with at most one owner, busy exactly when it has one |
| Serving.MessagesStayOwned | cmd/nerdgenie/serving.go:97-121 | Every step keeps each taken message with the drainer or with one task |
| Serving.FinishedStaysOnce | cmd/nerdgenie/serving.go:106-130 | No step asks to finish a message a second time in a run |
| Serving.NudgeStays | internal/channel/queue.go:280-299 | No step leaves a drainer that saw an empty queue asleep over a waiting message with no nudge |
| Serving.AtMostTwoInHand | cmd/nerdgenie/starting.go:71-88 | At most two messages are ever in the taken state |
| Progress.AWaitingMessageIsTaken | cmd/nerdgenie/serving.go:57-94 | Over every run, whatever else happens short of a crash or a take that fails, a message that waits is taken before the drainer has made eight steps for it and eight for each message ahead of it, not counting the two of a `/clear` |
| Progress.TheDrainerIsNeverStuck | cmd/nerdgenie/serving.go:57-94 | In every state of every run a step that brings the drainer nearer is possible, or it is ending a `/clear`, or it is asleep with nothing waiting, or asleep after a take that failed with no nudge since |
| Progress.AWaitingMessageWakesTheDrainer | cmd/nerdgenie/serving.go:57-67 | A drainer that saw the queue empty while a message waits comes out of its wait and takes the oldest |
| Progress.AWaitingMessageCanBeTaken | cmd/nerdgenie/serving.go:57-94 | From every state of every run in which it is not stranded the drainer alone can take any waiting message, in a bounded list of its own steps |
| Progress.AMessageIsStrandedExactlyWhen | cmd/nerdgenie/serving.go:74-78 | Over every run, the drainer sleeps on over a message if and only if a take failed with messages waiting and no nudge to come, and none has been added since |
| Progress.AFailedTakeStrands | cmd/nerdgenie/serving.go:57-78 | A run in which a message is added, the take it wakes the drainer for fails, and no step of the drainer is possible any more |
| Progress.WhatAStepStrands | cmd/nerdgenie/serving.go:57-78 | Each step strands a message exactly so, and what is stranded stays so until one more is added or the program starts again |
| Progress.OneStepNearer | cmd/nerdgenie/serving.go:72-94 | Every step of the drainer brings a waiting message one nearer, the end of a pass included, and no other step takes it further off |
| Progress.TheQueueIsBounded | internal/channel/queue.go:164-189 | Over every run the messages that wait and are in hand never pass the capacity, and one more is added if and only if there is room |
| Progress.TheLoopCanBeFreed | cmd/nerdgenie/starting.go:98-131 | Whoever owns the loop can free it, by its own steps and the reading of what was delivered |
| Progress.WhatIsDeliveredCanBeRead | internal/loop/loop.go:376-382 | A turn that runs can read everything delivered to it |
| Progress.ATakenMessageCanBeCarriedThrough | cmd/nerdgenie/starting.go:71-131 | A message taken with the loop free can be carried to its end by the drainer and its own task: done, with something come of it, and the loop free |
| Progress.AClearCanBeCarriedThrough | cmd/nerdgenie/clear.go:25-56 | A `/clear` taken with the loop free can be carried to its end by the drainer alone |
| Progress.TheDriverCanGoRound | cmd/nerdgenie/serving.go:134-213 | With the loop free the job driver can run a task, begin the nightly one or find nothing, and the loop is free again |
| Progress.WordsAreReadInATurn | internal/loop/midturn.go:34-47 | Over every run no words are in a turn's hands once every turn is over |
| Progress.WhatAStepFinds | cmd/nerdgenie/starting.go:98-131 | Over every run a message is delivered only to a task or job that has the loop, and a task, job or `/clear` begins only when no one else has it |
| Serving.Agent.TakeTheLoop | cmd/nerdgenie/starting.go:116-124 | The loop is taken exactly when it was free |
| Serving.Agent.FreeTheLoop | cmd/nerdgenie/starting.go:127-131 | The loop is freed |
| Serving.Agent.HoldTheMessage | cmd/nerdgenie/serving.go:97-102 | The message is held and not handed over |
| Serving.Agent.TookTheMessage | cmd/nerdgenie/serving.go:106-112 | The task is given the very message the drainer holds |
| Serving.Agent.StillHolding | cmd/nerdgenie/serving.go:116-120 | The drainer finishes a message exactly when no task took it over |
| Deltas.HoldingBackIsEnoughExactlyWhenSteady | internal/channel/deltas.go:17-25 | For known values kept longest first, what may be shown of every text is the beginning of the redaction of every continuation if and only if the values are steady |
| Deltas.HoldingBackIsEnough | internal/channel/deltas.go:41-60 | For steady known values, the held-back redaction of a text is a prefix of the redaction of the text and anything after it |
| Deltas.ShortSecretsAreSteady | internal/channel/deltas.go:17-25 | Secrets of at most sixty-four runes, none inside another, are steady |
| Deltas.OneShortSecretIsSteady | internal/channel/deltas.go:17-25 | Any one secret of at most sixty-four runes is steady |
| Deltas.ASecretInsideAnotherIsNotSteady | internal/channel/deltas.go:20-23 | Two secrets of at most sixty-four runes that the hold-back does not cover |
| Deltas.ShownAsToldExactlyWhen | internal/channel/client.go:81-90 | For the values the vault keeps, every reply is displayed as it was told, however its redaction is cut into pieces, if and only if no value but the marker itself can be found in redacted text |
| Deltas.OneSecretIsShownAsToldExactlyWhen | internal/channel/client.go:81-90 | For one value: if and only if it is the marker or agrees with the marker at no place the scan can leave one |
| Deltas.ABracketInsideDoesNoHarm | internal/channel/client.go:81-90 | A value with a bracket in it that is always displayed as told |
| Deltas.PiecesOfRedactedTextAreKept | internal/channel/client.go:81-90 | Every piece of redacted text passes a second redaction unchanged when only the marker can reappear |
| Reappearing.ReappearsExactlyWhen | internal/vault/redact.go:61-70 | A needle can be found in text it was replaced in if and only if one of finitely many texts built from it shows it |
| Reappearing.OneNeedleReappearsExactlyWhen | internal/vault/redact.go:61-70 | For one needle: if and only if it agrees with the marker at a place before which the scan finds none |
| Deltas.AReplyOfOneSecret | internal/channel/client.go:81-90 | A reply that is one secret is told as the marker and displayed as the redaction of the marker |
| Deltas.ASecretInTheMarkerIsShownTwice | internal/channel/client.go:81-90 | A reply through the streamer that is displayed with a marker inside a marker |
| Deltas.WithoutTail | internal/channel/deltas.go:129-139 | The loop takes the last sixty-four runes off |
| Deltas.Socket.SendDelta | internal/channel/deltas.go:41-60 | When the screens can be reached, nothing was missed, and the last piece went out thirty milliseconds ago or more, or none has, nothing is left gathered and the screens have been told all that may be shown; when it went out less than thirty ago no piece is sent; they are told to take the text down if and only if what was shown is no longer how it begins; and what a failed send leaves is said. When nothing was missed, what the screens were told with what is gathered is the held-back redaction of the whole, whatever the pass over shapes does |
| Deltas.Socket.FinishDelta | internal/channel/deltas.go:68-88 | When nothing was missed, a screen attached since the reply began ends with exactly the trimmed redaction of the whole reply, resets included, and displays it when no value can reappear and there are no shapes |
| Deltas.Socket.ResetDelta | internal/channel/deltas.go:93-98 | The reply is forgotten, and the screens are told to take it down when they can be reached |
| Deltas.Socket.EndStreaming | internal/channel/deltas.go:103-107 | The reply in progress is forgotten and nothing is sent |
| Deltas.Socket.FlushGathered | internal/channel/deltas.go:118-126 | What has gathered is let go of and goes out as one piece, or is gone when the screens cannot be reached |
| Deltas.Socket.WhatWasToldStands | internal/channel/deltas.go:41-60 | For steady known values, in text with no shapes and with nothing missed, everything the screens were told is how the redaction of the reply begins, however it goes on |
| Stream.Stream.Publish | internal/channel/stream.go:151-172 | An event is accepted if and only if the stream is open and it is of a kind the program sends, a status naming one of the five states or none. Every reader gets the event, except those a whole backlog behind, who are dropped; every live reader has its first status and everything since, and every one that left has a beginning of that |
| Stream.Stream.OfferToAll | internal/channel/stream.go:162-170 | Exactly the readers a backlog behind are let go, whatever order they are gone over in |
| Stream.Stream.Subscribe | internal/channel/stream.go:123-146 | A reader is refused exactly when the stream is closed or full, and otherwise starts with the status alone, unless it has no fields or names no state |
| Stream.Stream.Close | internal/channel/stream.go:203-217 | Every subscription ends, none marked dropped, and nothing is published after |
| Stream.Stream.LetTheReaderTake | internal/channel/stream.go:232-234 | A reader taking its next event keeps every reader's promise |
| Stream.Stream.Leave | internal/channel/stream.go:246-249 | The first half of a reader's close takes it off the stream |
| Stream.Stream.EndAfterLeaving | internal/channel/stream.go:250-262 | The second half ends it once, whatever happened in between |
| Stream.Subscription.Finish | internal/channel/stream.go:255-263 | A channel is closed at most once and the first reason stands |
| Stream.Subscription.Send | internal/channel/stream.go:163-165 | An event is sent only to an open channel with room |
| Preview.AnAnswerIsToThatVeryQuestion | internal/channel/ask.go:21-50 | Over every interleaving, an answer a caller gets was sent by a screen that looked its number up while that very question was registered, so none crosses to a later question with the number |
| Preview.AYesWasApproved | internal/channel/ask.go:16-20 | A yes comes only of an approve of that question, and says once or always as the approve did |
| Preview.AnApproveIsOnceUnlessItSaysAlways | internal/channel/client.go:310-315 | An approve is for always if and only if, without the space around it, it spells always in any case; any other is for this once |
| Preview.WhatTheCallerIsTold | internal/channel/ask.go:21-50 | What each end of a question tells its caller: which of them is an error and which is not, and the answer when there was one |
| Preview.WhatABeginDoes | internal/channel/ask.go:22-25 | A caller with a number keeps it, and one without gets the next of the socket's own |
| Preview.WhatAShowDoes | internal/channel/ask.go:31-41 | A question is over at once if and only if its preview failed to show or no screen was there |
| Preview.WhatADenyAndACancelSay | internal/channel/client.go:247-250 | A deny is a no in the screen's words, and so is a cancel unless it has none |
| Preview.NoQuestionIsStuck | internal/channel/ask.go:21-50 | In every state of every run a question that has not returned has a step of its own that brings it nearer, of at most four |
| Preview.NoScreenIsStuck | internal/channel/client.go:230-245 | A screen may always send or hand over, and hands an answer over once |
| Preview.AQuestionCanBeAnswered | internal/channel/ask.go:21-50 | A run in which an approve is looked up, handed over and received, and its number freed |
| Preview.TheFirstAnswerWins | internal/channel/client.go:240-244 | The answer a caller gets is the first any screen handed over |
| Preview.ANumberIsFreeAfterReturn | internal/channel/ask.go:160-176 | Once a question returns its number is free, and a question is turned away exactly when another waits under its number |
| Preview.NoTwoWaitUnderOneNumber | internal/channel/ask.go:160-168 | Two questions waiting under one number are one question |
| Preview.OwnNumbersDiffer | internal/channel/ask.go:178-186 | Numbers the socket makes itself never repeat |
| Preview.EveryRunIsSound | internal/channel/ask.go:156-176 | In every state the map of waiting questions is exactly the registered ones, and channels hold the first answer |
| Preview.EveryAnswerCameFromAScreen | internal/channel/client.go:230-245 | In every state every answer in a hand or a channel came of a lookup that found its question |
| Preview.Socket.NextAskId | internal/channel/ask.go:181-186 | A caller with no number gets the next of the socket's own |
| Preview.Socket.WaitOnPreview | internal/channel/ask.go:160-168 | A question is registered exactly when its number is not taken |
| Preview.Socket.StopWaitingOnPreview | internal/channel/ask.go:172-176 | The number is forgotten |
| Preview.Socket.LookUpPreview | internal/channel/client.go:231-238 | The locked half of an answer finds whose channel the number stands for |
| Preview.Socket.HandOver | internal/channel/client.go:240-244 | The unlocked half leaves a full channel as it is |
| Preview.Socket.ReceiveAnswer | internal/channel/ask.go:137-139 | The caller is told what its channel held |
| Undo.UndoIsAnInverseExactlyWhen | internal/command/undo.go:76-133 | For every turn of logged writes with any other events among them, undoing restores every path's existence and contents if and only if each file whose change is read was small enough to keep and each changed only past the part that is read holds what it did; more than two hundred changes are refused and nothing is written |
| Undo.OrdinaryTurnsAreUndone | internal/command/undo.go:26-37 | A turn within the caps is undone whole, repeated writes, created files and failed writes included |
| Undo.ABigFileComesBackEmpty | internal/tool/write/change.go:66-69 | A file over the cap comes back empty |
| Undo.ALateChangeStays | internal/command/undo.go:85-86 | A change past the part that is read is not put back |
| Undo.UndoneAt | internal/command/undo.go:116-131 | Whatever the files hold now, putting back leaves each path as its first change found it and every other alone |
| Undo.TheTurnIsRead | internal/command/undo.go:76-112 | One undo reads exactly the changes recorded in the window after the newest message, or says there are too many |
| Undo.WhatUndoReads | internal/command/undo.go:76-112 | For any log whatever: the read fails if and only if the part it reads has a change that cannot be read with no more than two hundred before it; there are too many if and only if that part has more than two hundred; otherwise the turn is exactly its changes in order |
| Undo.ChangesIn | internal/command/undo.go:95-112 | The loop is the specified read, which `Undo.WhatUndoReads` says of any log |
| Undo.Disk.PutBack | internal/command/undo.go:116-133 | The backward loop applies the changes newest first and reports the paths put back and removed |
| Undo.ReportNamesEachChange | internal/command/undo.go:137-151 | The report names every change once, among what was put back if and only if the file was there before |
| Undo.ReportIsNewestFirst | internal/command/undo.go:118-132 | And names the newest first |
| Undo.Disk.Undo | internal/command/undo.go:42-59 | For any log: it fails if and only if it reaches a change it cannot read, with no more than two hundred before it; then, and when there are more than two hundred, every file is as it was; otherwise exactly the changes of the part that is read are put back |
| Undo.WhatIsLogged | internal/tool/write/change.go:55-91 | A file is logged as it was there or not, with what it held if and only if that was no more than four mebibytes |
| Undo.Disk.WriteFile | internal/tool/write/change.go:36-91 | What a file held is logged before it is touched |
| Resuming.TheOrderIsByFirstWord | cmd/nerdgenie/resuming.go:84-106 | Over every session the memory holds each screen that has spoken since it was last cleared or pushed out, once and at most sixty-four, in the order of their first words since then |
| Resuming.FrontIsQuietestExactlyWhen | cmd/nerdgenie/resuming.go:18-22 | The screen the next new one pushes out has been quiet longest if and only if each screen that first spoke before its last word has spoken since |
| Resuming.OneWordIsQuietest | cmd/nerdgenie/resuming.go:18-22 | In particular when it has spoken once |
| Resuming.TheLoudestIsForgotten | cmd/nerdgenie/resuming.go:98-105 | Sixty-four screens speak, the first speaks again, another arrives: the one that spoke last is forgotten |
| Resuming.RememberingForgetsTheFirst | cmd/nerdgenie/resuming.go:94-106 | One word keeps the memory sound and at the cap forgets only the screen at the front |
| Resuming.ForgettingStartsFresh | cmd/nerdgenie/resuming.go:84-89 | A cleared screen carries nothing on and no other screen is touched |
| Resuming.AClearedScreenCarriesNothingOn | cmd/nerdgenie/resuming.go:79-89 | After a clear a screen carries nothing on until it speaks again, whatever the others say |
| Resuming.WhatAStartCarriesOn | cmd/nerdgenie/resuming.go:123-138 | The first words after a start carry on exactly the newest task of their screen among those looked at, and steer it unless it was waiting or they only say to carry on |
| Restarting.WhatTheLogCarriesOn | cmd/nerdgenie/resuming.go:215-244 | Told from the log alone, the first words of a screen carry a task on if and only if its first ask came from there, its newest checkpoint is running, waiting, stopped or failed, fewer than sixty-four newer tasks are so, and no newer one of that screen is; and they steer it unless that checkpoint is waiting or they only say to carry on |
| Restarting.WhatAStartLooksAt | cmd/nerdgenie/resuming.go:284-320 | A task is looked at if and only if its newest checkpoint is running, waiting, stopped or failed and fewer than sixty-four newer ones are so: a running one as stopped and interrupted, any other as it was |
| Restarting.AFinishedTaskIsNotCarriedOn | cmd/nerdgenie/resuming.go:304-317 | A screen whose tasks are all done, or have no checkpoint that reads as a record, carries nothing on |
| Restarting.WhatAStartNames | cmd/nerdgenie/resuming.go:245-264 | A task is named interrupted if and only if its newest checkpoint is running and it is what its screen now carries on |
| Restarting.WhatAStartMarks | cmd/nerdgenie/resuming.go:331-337 | A start leaves one more checkpoint, stopped and numbered after the last, if and only if the newest is running, the record loads and the write went through |
| Restarting.WhatSaysCarryOn | cmd/nerdgenie/resuming.go:148-154 | A message only says to carry on if and only if, without the space around it and the marks at its end, it spells one of the four ways in any case |
| Resuming.EachScreenHasItsNewestTask | cmd/nerdgenie/resuming.go:215-244 | After a start each screen has its highest-numbered task among those looked at, as its newest checkpoint says, a running one as stopped |
| Resuming.TheNewestAreLookedAt | cmd/nerdgenie/resuming.go:221-226 | The tasks looked at are the newest sixty-four that can be picked up |
| Resuming.StartingAgainIsTheSame | cmd/nerdgenie/resuming.go:274-337 | Starting again on the log a start left gives every screen the same task in the same state, and names a task interrupted again exactly when its mark did not decide |
| Resuming.OrderlyMarksDecide | internal/record/checkpoint.go:28-34 | When a task's checkpoints all decode and number upwards, its mark decides |
| Resuming.AnUndecodableCheckpointIsNeverMarked | internal/record/checkpoint.go:148-152 | A log every start leaves as it was, finds its task running in, and names it from |
| Resuming.ScreenTasks.Remember | cmd/nerdgenie/resuming.go:94-106 | The loop forgets from the front until no more than the cap are left |
| Resuming.ScreenTasks.InterruptedNewest | cmd/nerdgenie/resuming.go:249-264 | An interrupted task is named once for each screen whose newest it is, in order, whatever order the map gives |
| Rebuilding.NewestCheckpoints | cmd/nerdgenie/resuming.go:289-302 | The loop over the log keeps for each task its checkpoint of highest number, the later of two |
| Rebuilding.Store.MarkInterrupted | cmd/nerdgenie/resuming.go:331-337 | A task is marked by one more checkpoint, or not at all |
| Rebuilding.Store.TasksToPickUp | cmd/nerdgenie/resuming.go:284-320 | The tasks that can be picked up come back in order whatever order the map gives, and the running ones are marked |
| Rebuilding.Store.RememberedFromTheLog | cmd/nerdgenie/resuming.go:215-244 | A start builds exactly the specified memory and names exactly the specified tasks |
| CodeMap.ListedExactlyWhenNoHeading | internal/codemap/contents.go:73-107 | For files otherwise in order, reading a printed map lists exactly one line for each as it should be listed if and only if the first line of no source file or test is shaped as a heading |
| CodeMap.EveryFileHasOneLine | internal/codemap/contents.go:73-107 | For files whose paths and first lines are single lines not shaped as headings or fences: exactly one line each, its path first and then what the map says of it, the source files, the tests and the others in that order |
| CodeMap.TheListingIsTheFolder | internal/codemap/print.go:16-52 | Every file is listed as often as it is there, in its own section, each section in the order of its paths |
| CodeMap.AHeadingSpoilsTheListing | internal/codemap/contents.go:81-87 | The first file that reads as a heading is left with its path alone, for good |
| CodeMap.OneFileReadAsAHeading | internal/codemap/contents.go:81-87 | A map of one file, with a heading of either kind, that is listed wrong |
| CodeMap.AHeadingShapedFirstLineIsAnotherFile | internal/codemap/contents.go:81-84 | A third-level heading becomes a second file |
| CodeMap.Print | internal/codemap/print.go:16-52 | The printed map is the opening, the legend and the three sections |
| CodeMap.PrintLegend | internal/codemap/print.go:56-75 | One line per top folder in order with its count |
| CodeMap.PrintEntry | internal/codemap/print.go:97-126 | A source file's heading, first line, names and what is left out |
| CodeMap.PrintTest | internal/codemap/print.go:129-139 | A test file's heading, first line and count |
| MapShows.ASourceFileIsShown | internal/codemap/print.go:97-126 | In any map, each source file's heading, first line, every name with its signature, kind and words, and what is left out, stand together in that order |
| MapShows.ATestFileIsShown | internal/codemap/print.go:129-139 | Each test file's heading, first line and count stand together |
| MapShows.TheLegendCountsTheFiles | internal/codemap/print.go:56-75 | The legend has one line for each top folder that holds a file, in order, with how many it holds, and the numbers add up to all of the files |
| CodeMap.FileLinesOf | internal/codemap/contents.go:73-107 | The line loop reads as the specified reader does |
| CodeMap.WhatIsATestCount | internal/codemap/contents.go:110-116 | A line of two words is a count if and only if the first is a number and the second says test or tests |
| CodeMap.CountLinesAreCounts | internal/codemap/contents.go:110-116 | Every count the printer writes is recognised as one |
| Wire.ListsAreReadBackExactlyWhenReadable | internal/contract/socket.go:264-305 | A printed task list is read back, text folded, if and only if every task has a label a job writes, or none and a text that does not begin with one |
| Wire.LabelledListsAreReadBack | internal/contract/socket.go:264-305 | Every list whose labels the program writes is read back |
| Wire.ATaskIsReadBackExactlyWhenReadable | internal/contract/socket.go:282-304 | The same of one task |
| Wire.JobTaskLines | internal/contract/socket.go:264-274 | The loop writes one line per task |
| Wire.ParseJobTaskLines | internal/contract/socket.go:282-305 | The loop reads every line that is not blank |
| Wire.FoldingKeepsWhatIsSeen | internal/contract/socket.go:264-274 | Folding a text keeps every character that is not a space, in order |
| Wire.FieldsBreakAtSpace | internal/contract/socket.go:282-304 | And breaks it into words exactly where there is space |
| Wire.TrimSpaceTakesOnlySpace | internal/contract/socket.go:282-290 | Trimming takes off only space, and all of it at both ends |
| Wire.NumberedIdsAreRead | internal/contract/identifier.go:104-137 | A label is read as a number if and only if it is what the program writes for that number, and the number fits |
| Wire.ReportIdsAreRead | internal/contract/identifier.go:35-59 | A report label is read as its job and number if and only if it is what the program writes for them |
| Wire.LogKeysClashOnlyAcrossKinds | internal/contract/identifier.go:89-94 | Two records share a log key in exactly one way |
| Wire.LogKeysOfNumbersDiffer | internal/contract/identifier.go:89-94 | No two numbered records share a log key |

## Left out

- SQLite, files, sockets and the clock: a table is a sequence of rows, a file tree a map, a channel a bounded sequence, the time a parameter; reading and writing do not fail except where a crash, a failed write or a failed mark is a step.
- UTF-8: text is a sequence of characters, one for each byte the context package counts and one for each rune elsewhere; of letters outside ASCII only those are folded that fold to one of a to z.
- Deltas.HoldingBackIsEnoughExactlyWhenSteady: known values only. The vault's pass over shapes of secrets (internal/vault/redact.go:74-95) is any function of the text in the streamer, and none in what the hold-back is proved to cover; of its shapes only a private key block can run past sixty-four runes before it is recognised.
- Serving.EveryRunKeepsItsPromises: assumes marking done does not fail, and that a take that fails changes nothing, and leaves out closing the queue at shutdown; the timed second look for a loop about to be freed is any number of tries; what comes of a message is that it was answered, that a turn ran for it, or that the running task wrote it into its record, not what was said.
- Progress.AWaitingMessageIsTaken: counts the drainer's steps and not time, and a `/clear` that waits out a running task by the tries it takes.
- Preview: masked prompts (internal/channel/ask.go:61-114), which share the protocol but not the check for a number in use.
- Stream: the heartbeat's timing; its status is published like any other event.
- RecordSplit: the record's printed parts are kept as the lines the printer writes; how it words each one is not modelled.
- Builder: reading the persona and memory files, and the wording of recent work and the next step, which come in as text.
- Undo.UndoIsAnInverseExactlyWhen: file modes, folders, and changes of files that are not logged; sequence numbers are places in the log.
- Rebuilding.Store.TasksToPickUp: a task's key is the number it is written with, so keys that read as a number but are never written so are left out, and so are records of the wrong kind under a task's key.
- CodeMap: reading source files for names, the listing of roots and the cap on listed files, and that sorting happens in the caller's slice; files with equal paths come in an order of the model's choosing.
- Job task times, status lines, the turn loop, the job store, permissions, the browser and desktop workers, the terminal screen, and the words of errors.
