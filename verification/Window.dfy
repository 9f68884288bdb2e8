/** Filling the window: newest messages first, no result without its call, and a
    list of results that names only what left. */
module Window {
  import opened Text
  import opened Marker
  import opened Requests
  import opened Estimate
  import opened RecordSplit

  // ---------------------------------------------------------------- marking results as data

  function WrapResult(boundary: string, result: ToolResult): ToolResult {
    var wrapped := WrapAsData(boundary, result.text);
    result.(text := if result.resultLabel != "" then result.resultLabel + ":\n" + wrapped else wrapped)
  }

  function WrapMessage(boundary: string, message: Message): Message {
    message.(toolResults := seq(|message.toolResults|, k requires 0 <= k < |message.toolResults| => WrapResult(boundary, message.toolResults[k])))
  }

  function WrapAll(boundary: string, messages: seq<Message>): (wrapped: seq<Message>)
    ensures |wrapped| == |messages|
  {
    seq(|messages|, k requires 0 <= k < |messages| => WrapMessage(boundary, messages[k]))
  }

  method WrapOne(message: Message, boundary: string) returns (marked: Message)
    ensures marked == WrapMessage(boundary, message)
  {
    hide WrapAsData;
    var results := [];
    for j := 0 to |message.toolResults|
      invariant |results| == j
      invariant forall k | 0 <= k < j :: results[k] == WrapResult(boundary, message.toolResults[k])
    {
      var result := message.toolResults[j];
      result := result.(text := WrapAsData(boundary, result.text));
      if result.resultLabel != "" {
        result := result.(text := result.resultLabel + ":\n" + result.text);
      }
      results := results + [result];
    }
    marked := message.(toolResults := results);
    assert results == WrapMessage(boundary, message).toolResults;
  }

  /** Marking is done on copies, because the caller keeps the conversation. */
  method WrapToolResults(messages: seq<Message>, boundary: string) returns (marked: seq<Message>)
    ensures marked == WrapAll(boundary, messages)
  {
    marked := [];
    for i := 0 to |messages|
      invariant |marked| == i && forall k | 0 <= k < i :: marked[k] == WrapMessage(boundary, messages[k])
    {
      var copied := WrapOne(messages[i], boundary);
      marked := marked + [copied];
    }
  }

  // ---------------------------------------------------------------- newest first

  /** How many of the newest messages the room holds, each in full. */
  function FitCount(messages: seq<Message>, room: int): (kept: nat)
    ensures kept <= |messages|
  {
    if messages == [] then 0
    else
      var cost := EstimateMessage(messages[|messages| - 1]);
      if cost > room then 0 else 1 + FitCount(messages[..|messages| - 1], room - cost)
  }

  function Last(messages: seq<Message>, kept: nat): seq<Message>
    requires kept <= |messages|
  {
    messages[|messages| - kept..]
  }

  lemma LastOfOneMore(messages: seq<Message>, kept: nat)
    requires messages != [] && kept < |messages|
    ensures TotalTokens(Last(messages, kept + 1))
            == EstimateMessage(messages[|messages| - 1]) + TotalTokens(Last(messages[..|messages| - 1], kept))
  {
    var front, last := Last(messages[..|messages| - 1], kept), messages[|messages| - 1];
    assert Last(messages, kept + 1) == front + [last];
    SumOfAppend(front, [last], EstimateMessage);
    assert [last][1..] == [];
  }

  /** What is kept is the longest run of newest messages that fits: it fits, and
      no longer run does. */
  lemma {:induction false} FitIsTheLongestThatFits(messages: seq<Message>, room: int, kept: nat)
    requires room >= 0 && kept <= |messages|
    ensures TotalTokens(Last(messages, kept)) <= room <==> kept <= FitCount(messages, room)
  {
    if kept > 0 {
      var front, cost := messages[..|messages| - 1], EstimateMessage(messages[|messages| - 1]);
      LastOfOneMore(messages, kept - 1);
      if cost <= room {
        FitIsTheLongestThatFits(front, room - cost, kept - 1);
      }
    } else {
      assert Last(messages, 0) == [];
    }
  }

  // ---------------------------------------------------------------- no result without its call

  function CallIds(message: Message): set<string> {
    set k | 0 <= k < |message.toolCalls| :: message.toolCalls[k].id
  }

  predicate AnswersALostCall(message: Message, called: set<string>) {
    exists k | 0 <= k < |message.toolResults| :: message.toolResults[k].callId !in called
  }

  function WithoutOrphans(messages: seq<Message>, called: set<string>): seq<Message> {
    if messages == [] then []
    else if AnswersALostCall(messages[0], called) then WithoutOrphans(messages[1..], called)
    else [messages[0]] + WithoutOrphans(messages[1..], called + CallIds(messages[0]))
  }

  /** Every result answers a call some earlier message of the run made, or one
      that was made before the run. */
  predicate NothingDangles(messages: seq<Message>, called: set<string>) {
    forall i, k | 0 <= i < |messages| && 0 <= k < |messages[i].toolResults| ::
      messages[i].toolResults[k].callId in called || CalledBefore(messages, i, messages[i].toolResults[k].callId)
  }

  predicate CalledBefore(messages: seq<Message>, i: nat, id: string)
    requires i <= |messages|
  {
    exists j | 0 <= j < i :: id in CallIds(messages[j])
  }

  lemma {:induction false} OrphanRemovalLeavesNoneDangling(messages: seq<Message>, called: set<string>)
    ensures NothingDangles(WithoutOrphans(messages, called), called)
  {
    if messages != [] {
      var first := messages[0];
      if AnswersALostCall(first, called) {
        OrphanRemovalLeavesNoneDangling(messages[1..], called);
      } else {
        var kept := WithoutOrphans(messages[1..], called + CallIds(first));
        OrphanRemovalLeavesNoneDangling(messages[1..], called + CallIds(first));
        var all := [first] + kept;
        forall i, k | 0 <= i < |all| && 0 <= k < |all[i].toolResults|
          ensures all[i].toolResults[k].callId in called || CalledBefore(all, i, all[i].toolResults[k].callId)
        {
          if i > 0 {
            var id := all[i].toolResults[k].callId;
            assert all[i] == kept[i - 1];
            if id in CallIds(first) {
              assert id in CallIds(all[0]);
            } else if id !in called {
              var j :| 0 <= j < i - 1 && id in CallIds(kept[j]);
              assert all[j + 1] == kept[j];
            }
          }
        }
      }
    }
  }

  /** A run in which nothing dangles is left whole, so removal takes nothing more
      than it must. */
  lemma {:induction false} NothingDanglingIsKept(messages: seq<Message>, called: set<string>)
    requires NothingDangles(messages, called)
    ensures WithoutOrphans(messages, called) == messages
  {
    if messages != [] {
      var rest, after := messages[1..], called + CallIds(messages[0]);
      forall k | 0 <= k < |messages[0].toolResults| ensures messages[0].toolResults[k].callId in called {
        assert !CalledBefore(messages, 0, messages[0].toolResults[k].callId);
      }
      forall i, k | 0 <= i < |rest| && 0 <= k < |rest[i].toolResults|
        ensures rest[i].toolResults[k].callId in after || CalledBefore(rest, i, rest[i].toolResults[k].callId)
      {
        var id := rest[i].toolResults[k].callId;
        assert rest[i] == messages[i + 1];
        if id !in called {
          var j :| 0 <= j < i + 1 && id in CallIds(messages[j]);
          if j > 0 {
            assert id in CallIds(rest[j - 1]);
          }
        }
      }
      NothingDanglingIsKept(rest, after);
    }
  }

  /** What the kept messages of a run have called by its end. */
  function CalledIn(messages: seq<Message>, called: set<string>): set<string> {
    if messages == [] then called
    else if AnswersALostCall(messages[0], called) then CalledIn(messages[1..], called)
    else CalledIn(messages[1..], called + CallIds(messages[0]))
  }

  /** What is dropped from a run does not depend on what follows it. */
  lemma {:induction false} OrphansOfAppend(a: seq<Message>, b: seq<Message>, called: set<string>)
    ensures WithoutOrphans(a + b, called) == WithoutOrphans(a, called) + WithoutOrphans(b, CalledIn(a, called))
    ensures CalledIn(a + b, called) == CalledIn(b, CalledIn(a, called))
  {
    if a == [] {
      assert a + b == b;
    } else {
      assert (a + b)[1..] == a[1..] + b;
      if AnswersALostCall(a[0], called) {
        OrphansOfAppend(a[1..], b, called);
      } else {
        OrphansOfAppend(a[1..], b, called + CallIds(a[0]));
      }
    }
  }

  lemma {:induction false} OrphanRemovalCostsNoMore(messages: seq<Message>, called: set<string>)
    ensures TotalTokens(WithoutOrphans(messages, called)) <= TotalTokens(messages)
  {
    if messages != [] {
      if AnswersALostCall(messages[0], called) {
        OrphanRemovalCostsNoMore(messages[1..], called);
      } else {
        var rest := WithoutOrphans(messages[1..], called + CallIds(messages[0]));
        OrphanRemovalCostsNoMore(messages[1..], called + CallIds(messages[0]));
        assert ([messages[0]] + rest)[1..] == rest;
      }
    }
  }

  /** One of these messages made the call. */
  predicate IsCalledIn(messages: seq<Message>, id: string) {
    exists i, k | 0 <= i < |messages| && 0 <= k < |messages[i].toolCalls| :: messages[i].toolCalls[k].id == id
  }

  lemma CalledInOne(message: Message, rest: seq<Message>, id: string)
    ensures IsCalledIn([message] + rest, id) <==> id in CallIds(message) || IsCalledIn(rest, id)
  {
    var all := [message] + rest;
    if IsCalledIn(rest, id) {
      var i, k :| 0 <= i < |rest| && 0 <= k < |rest[i].toolCalls| && rest[i].toolCalls[k].id == id;
      assert all[i + 1] == rest[i];
    }
    if id in CallIds(message) {
      assert all[0] == message;
    }
    if IsCalledIn(all, id) {
      var i, k :| 0 <= i < |all| && 0 <= k < |all[i].toolCalls| && all[i].toolCalls[k].id == id;
      assert i > 0 ==> all[i] == rest[i - 1];
    }
  }

  lemma {:induction false} CalledInKept(messages: seq<Message>, called: set<string>, id: string)
    ensures id in CalledIn(messages, called) <==> id in called || IsCalledIn(WithoutOrphans(messages, called), id)
  {
    hide CallIds, IsCalledIn;
    if messages == [] {
      assert !IsCalledIn([], id) by { NoneCalled(id); }
    } else if AnswersALostCall(messages[0], called) {
      CalledInKept(messages[1..], called, id);
    } else {
      CalledInKept(messages[1..], called + CallIds(messages[0]), id);
      CalledInOne(messages[0], WithoutOrphans(messages[1..], called + CallIds(messages[0])), id);
    }
  }

  lemma NoneCalled(id: string)
    ensures !IsCalledIn([], id)
  {
  }

  /** The next message is kept exactly when every result in it answers a call that a
      message kept before it made. */
  lemma KeptExactlyWhenItsCallsAre(messages: seq<Message>, next: Message)
    ensures var kept := WithoutOrphans(messages, {});
      WithoutOrphans(messages + [next], {})
      == kept + if forall k | 0 <= k < |next.toolResults| :: IsCalledIn(kept, next.toolResults[k].callId) then [next] else []
  {
    hide CallIds, IsCalledIn, CalledIn;
    OrphansOfAppend(messages, [next], {});
    forall k | 0 <= k < |next.toolResults|
      ensures next.toolResults[k].callId in CalledIn(messages, {})
          <==> IsCalledIn(WithoutOrphans(messages, {}), next.toolResults[k].callId)
    {
      CalledInKept(messages, {}, next.toolResults[k].callId);
    }
    assert [next][1..] == [];
  }

  function FitNewestFirst(messages: seq<Message>, room: int): seq<Message> {
    WithoutOrphans(Last(messages, FitCount(messages, room)), {})
  }

  method LosesItsCall(message: Message, called: set<string>) returns (lost: bool)
    ensures lost == AnswersALostCall(message, called)
  {
    for k := 0 to |message.toolResults|
      invariant forall j | 0 <= j < k :: message.toolResults[j].callId in called
    {
      if message.toolResults[k].callId !in called {
        return true;
      }
    }
    return false;
  }

  method WithoutOrphanResults(messages: seq<Message>) returns (kept: seq<Message>)
    ensures kept == WithoutOrphans(messages, {})
  {
    var called: set<string> := {};
    kept := [];
    for i := 0 to |messages|
      invariant kept == WithoutOrphans(messages[..i], {}) && called == CalledIn(messages[..i], {})
    {
      assert messages[..i + 1] == messages[..i] + [messages[i]];
      OrphansOfAppend(messages[..i], [messages[i]], {});
      assert [messages[i]][1..] == [];
      var lost := LosesItsCall(messages[i], called);
      if !lost {
        called := called + CallIds(messages[i]);
        kept := kept + [messages[i]];
      }
    }
    assert messages[..|messages|] == messages;
  }

  method FitTheNewestFirst(messages: seq<Message>, room: int) returns (fitted: seq<Message>)
    ensures fitted == FitNewestFirst(messages, room)
  {
    var left, kept := room, 0;
    assert messages[..|messages|] == messages;
    for at := |messages| downto 0
      invariant kept == |messages| - at
      invariant FitCount(messages, room) == kept + FitCount(messages[..at], left)
    {
      var cost := CountMessage(messages[at]);
      assert messages[..at + 1][..at] == messages[..at];
      if cost > left {
        break;
      }
      left := left - cost;
      kept := kept + 1;
    }
    assert kept == FitCount(messages, room);
    fitted := WithoutOrphanResults(messages[|messages| - kept..]);
  }

  // ---------------------------------------------------------------- the list of what left

  /** The label of every result whose full text is in the window. */
  function LabelsOn(messages: seq<Message>): set<string> {
    set i, k | 0 <= i < |messages| && 0 <= k < |messages[i].toolResults| && messages[i].toolResults[k].resultLabel != ""
      :: messages[i].toolResults[k].resultLabel
  }

  /** A label is on the table when a result there has it, and no label is none. */
  lemma WhichLabelsAreOn(messages: seq<Message>, name: string)
    ensures name in LabelsOn(messages)
      <==> name != "" && exists i | 0 <= i < |messages| :: HasLabel(messages[i], name)
  {
  }

  predicate HasLabel(message: Message, name: string) {
    exists k | 0 <= k < |message.toolResults| :: message.toolResults[k].resultLabel == name
  }

  method LabelsOnTheTable(messages: seq<Message>) returns (labels: set<string>)
    ensures labels == LabelsOn(messages)
  {
    labels := {};
    for i := 0 to |messages|
      invariant labels == LabelsOn(messages[..i])
    {
      var results := messages[i].toolResults;
      for k := 0 to |results|
        invariant labels == LabelsOn(messages[..i]) + set j | 0 <= j < k && results[j].resultLabel != "" :: results[j].resultLabel
      {
        if results[k].resultLabel != "" {
          labels := labels + {results[k].resultLabel};
        }
      }
      var upTo := messages[..i + 1];
      forall name ensures name in LabelsOn(upTo) <==> name in labels {
        if name in LabelsOn(messages[..i]) {
          var a, b :| 0 <= a < i && 0 <= b < |messages[..i][a].toolResults| && messages[..i][a].toolResults[b].resultLabel != ""
                      && name == messages[..i][a].toolResults[b].resultLabel;
          assert upTo[a].toolResults[b].resultLabel == name;
        }
        if j :| 0 <= j < |results| && results[j].resultLabel != "" && name == results[j].resultLabel {
          assert upTo[i].toolResults[j].resultLabel == name;
        }
        if name in LabelsOn(upTo) {
          var a, b :| 0 <= a < i + 1 && 0 <= b < |upTo[a].toolResults| && upTo[a].toolResults[b].resultLabel != ""
                      && name == upTo[a].toolResults[b].resultLabel;
          if a < i {
            assert messages[..i][a].toolResults[b].resultLabel == name;
          } else {
            assert results[b].resultLabel == name;
          }
        }
      }
    }
    assert messages[..|messages|] == messages;
  }

  /** What comes before the first space, which is all of it when there is none. */
  function UpToASpace(text: string): string {
    if text == "" || text[0] == ' ' then "" else [text[0]] + UpToASpace(text[1..])
  }

  /** The name an item of the list is known by. */
  function NameOfItem(line: string): string
    requires ITEM_MARK <= line
  {
    UpToASpace(line[|ITEM_MARK|..])
  }

  predicate IsOnTheTable(line: string, labels: set<string>) {
    ITEM_MARK <= line && NameOfItem(line) in labels
  }

  function Unlisted(lines: seq<string>, labels: set<string>): seq<string> {
    if lines == [] then []
    else (if IsOnTheTable(lines[0], labels) then [] else [lines[0]]) + Unlisted(lines[1..], labels)
  }

  function ItemCount(lines: seq<string>): nat {
    if lines == [] then 0 else (if ITEM_MARK <= lines[0] then 1 else 0) + ItemCount(lines[1..])
  }

  function ResultsThatLeft(listed: string, labels: set<string>): (left: string)
    ensures listed == "" ==> left == ""
  {
    if listed == "" then ""
    else
      var kept := Unlisted(Lines(listed), labels);
      if ItemCount(kept) == 0 then "" else Join(kept, "\n")
  }

  lemma {:induction false} UnlistedOfAppend(a: seq<string>, b: seq<string>, labels: set<string>)
    ensures Unlisted(a + b, labels) == Unlisted(a, labels) + Unlisted(b, labels)
  {
    if a == [] {
      assert a + b == b;
    } else {
      assert (a + b)[1..] == a[1..] + b;
      UnlistedOfAppend(a[1..], b, labels);
    }
  }

  lemma {:induction false} ItemsOfAppend(a: seq<string>, b: seq<string>)
    ensures ItemCount(a + b) == ItemCount(a) + ItemCount(b)
  {
    if a == [] {
      assert a + b == b;
    } else {
      assert (a + b)[1..] == a[1..] + b;
      ItemsOfAppend(a[1..], b);
    }
  }

  method ResultsThatLeftTheTable(listed: string, labels: set<string>) returns (left: string)
    ensures left == ResultsThatLeft(listed, labels)
  {
    if listed == "" {
      return "";
    }
    var lines := Lines(listed);
    var kept: seq<string>, items := [], 0;
    for i := 0 to |lines|
      invariant kept == Unlisted(lines[..i], labels) && items == ItemCount(kept)
    {
      assert lines[..i + 1] == lines[..i] + [lines[i]];
      UnlistedOfAppend(lines[..i], [lines[i]], labels);
      assert [lines[i]][1..] == [];
      ItemsOfAppend(kept, [lines[i]]);
      if ITEM_MARK <= lines[i] {
        if UpToASpace(lines[i][|ITEM_MARK|..]) in labels {
          continue;
        }
        items := items + 1;
      }
      kept := kept + [lines[i]];
    }
    assert lines[..|lines|] == lines;
    if items == 0 {
      return "";
    }
    return Join(kept, "\n");
  }

  lemma {:induction false} UnlistedIsASublist(lines: seq<string>, labels: set<string>)
    ensures IsSublist(Unlisted(lines, labels), lines)
    ensures forall line :: line in Unlisted(lines, labels) <==> line in lines && !IsOnTheTable(line, labels)
  {
    if lines != [] {
      UnlistedIsASublist(lines[1..], labels);
      var rest := Unlisted(lines[1..], labels);
      assert lines == [lines[0]] + lines[1..];
      if IsOnTheTable(lines[0], labels) {
        assert Unlisted(lines, labels) == rest;
      } else {
        assert Unlisted(lines, labels)[1..] == rest;
      }
    }
  }

  lemma {:induction false} ItemsAreCounted(lines: seq<string>, line: string)
    requires line in lines && ITEM_MARK <= line
    ensures ItemCount(lines) > 0
  {
    if lines[0] != line {
      ItemsAreCounted(lines[1..], line);
    }
  }

  lemma {:induction false} OneLineSublist(lines: seq<string>, labels: set<string>)
    requires AllOneLine(lines)
    ensures AllOneLine(Unlisted(lines, labels))
  {
    if lines != [] {
      OneLineSublist(lines[1..], labels);
    }
  }

  /** For every list: an item of it is still listed exactly when the name it goes
      by is not on a result shown in full, and nothing else is listed. */
  lemma AnItemIsListedUnlessOnTheTable(listed: string, labels: set<string>, line: string)
    requires listed != "" && ITEM_MARK <= line
    ensures line in Lines(ResultsThatLeft(listed, labels)) <==> line in Lines(listed) && NameOfItem(line) !in labels
  {
    var lines := Lines(listed);
    var kept := Unlisted(lines, labels);
    UnlistedIsASublist(lines, labels);
    if ItemCount(kept) == 0 {
      if line in kept {
        ItemsAreCounted(kept, line);
      }
      assert Lines("") == [""];
    } else {
      OneLineSublist(lines, labels);
      LinesOfJoin(kept);
    }
  }

  // ---------------------------------------------------------------- the record's results

  /** The harness's own result ids are one word that folding leaves alone. */
  predicate PlainId(id: string) {
    ' ' !in id && '\\' !in id && OneLine(id) && '\r' !in id
  }

  lemma {:induction false} UpToASpaceOfWord(word: string, rest: string)
    requires ' ' !in word
    ensures UpToASpace(word + " " + rest) == word
  {
    var text := word + " " + rest;
    if word == "" {
      assert text[0] == ' ';
    } else {
      assert text[1..] == word[1..] + " " + rest;
      UpToASpaceOfWord(word[1..], rest);
    }
  }

  lemma {:induction false} PlainIdsStay(id: string)
    requires PlainId(id)
    ensures FoldText(id) == id
  {
    if id != "" {
      PlainIdsStay(id[1..]);
    }
  }

  /** An unpinned result goes by its id; a pinned one goes by the pin mark, which
      the printer writes before the id. */
  lemma NameOfResultItem(result: ResultLine)
    requires PlainId(result.id)
    ensures ITEM_MARK <= ResultItem(result)
    ensures NameOfItem(ResultItem(result)) == if result.pinned then PINNED_MARK else result.id
  {
    hide FoldText, UpToASpace;
    PlainIdsStay(result.id);
    var tail := FoldText(result.id) + " " + FoldText(result.summary);
    if result.pinned {
      assert ResultItem(result)[|ITEM_MARK|..] == PINNED_MARK + " " + tail;
      UpToASpaceOfWord(PINNED_MARK, tail);
    } else {
      assert ResultItem(result)[|ITEM_MARK|..] == result.id + " " + FoldText(result.summary);
      UpToASpaceOfWord(result.id, FoldText(result.summary));
    }
  }

  /** For every record, window and result of the record: the result is listed
      exactly when it is pinned or not shown in full. So none is lost, and the one
      kind that is both listed and shown is a pinned one on the table: its line is
      never dropped, because the name read off it is the pin mark. */
  lemma EveryResultIsListedOrShown(record: Record, onTheTable: seq<Message>, result: ResultLine)
    requires record.kind != "" && WellPrinted(record)
    requires result in record.results && PlainId(result.id) && PINNED_MARK !in LabelsOn(onTheTable)
    ensures ResultItem(result) in Lines(ResultsThatLeft(SplitRecord(record).results, LabelsOn(onTheTable)))
            <==> result.pinned || result.id !in LabelsOn(onTheTable)
  {
    var item, listed := ResultItem(result), SplitRecord(record).results;
    SplitIsExact(record);
    NameOfResultItem(result);
    ListsAreOneLine(record);
    LinesOfJoin(ResultBlock(record));
    var k :| 0 <= k < |record.results| && record.results[k] == result;
    assert ResultItems(record.results)[k] == item;
    assert ResultBlock(record)[k + 1] == item;
    AnItemIsListedUnlessOnTheTable(listed, LabelsOn(onTheTable), item);
  }

  lemma LabelsOnOne(result: ToolResult)
    requires result.resultLabel != ""
    ensures LabelsOn([Message(User, "", [], [result])]) == {result.resultLabel}
  {
    var messages := [Message(User, "", [], [result])];
    assert messages[0].toolResults[0].resultLabel == result.resultLabel;
  }

  /** The list and the table do overlap: a pinned result shown in full keeps its
      line as well. */
  lemma APinnedResultIsListedAndShown(record: Record, result: ResultLine, shown: ToolResult)
    requires result == ResultLine("r1", "ok", true) && shown == ToolResult("c1", "r1", "ok", false, "")
    requires record == Record("task", [], [], [], [], [], [result], [], "")
    ensures result.id in LabelsOn([Message(User, "", [], [shown])])
    ensures ResultItem(result) in Lines(ResultsThatLeft(SplitRecord(record).results, LabelsOn([Message(User, "", [], [shown])])))
  {
    LabelsOnOne(shown);
    assert PINNED_MARK[0] == '[' && shown.resultLabel[0] == 'r';
    EveryResultIsListedOrShown(record, [Message(User, "", [], [shown])], result);
  }
}
