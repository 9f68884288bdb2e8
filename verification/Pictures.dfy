/** Pictures ride at the very end of the prompt and never inside the conversation. */
module Pictures {
  import opened Text
  import opened Requests

  const MAX_PICTURES_SHOWN := 2
  const PICTURES_HEADING := "## Pictures"
  const NO_LONGER_SHOWN := "older pictures are no longer shown; read the file a result names to see one again"

  function WithoutItsPicture(result: ToolResult): ToolResult {
    result.(picture := "")
  }

  function Stripped(message: Message): Message {
    message.(toolResults := seq(|message.toolResults|, k requires 0 <= k < |message.toolResults| => WithoutItsPicture(message.toolResults[k])))
  }

  function StrippedAll(messages: seq<Message>): (stripped: seq<Message>)
    ensures |stripped| == |messages|
  {
    seq(|messages|, k requires 0 <= k < |messages| => Stripped(messages[k]))
  }

  /** The picture on its own: labelled by its result, answering no call. */
  function OnItsOwn(result: ToolResult): ToolResult {
    ToolResult("", result.resultLabel, "", false, result.picture)
  }

  /** The pictures of one run of results, newest first. */
  function PicturesIn(results: seq<ToolResult>): seq<ToolResult> {
    if results == [] then []
    else
      var last := results[|results| - 1];
      (if last.picture != "" then [OnItsOwn(last)] else []) + PicturesIn(results[..|results| - 1])
  }

  /** Every picture of the conversation, newest first. */
  function AllPictures(messages: seq<Message>): seq<ToolResult> {
    if messages == [] then []
    else PicturesIn(messages[|messages| - 1].toolResults) + AllPictures(messages[..|messages| - 1])
  }

  function Newest(pictures: seq<ToolResult>): seq<ToolResult> {
    if |pictures| <= MAX_PICTURES_SHOWN then pictures else pictures[..MAX_PICTURES_SHOWN]
  }

  /** Of one result: its picture, under its label, answering nothing. */
  lemma OnePicture(result: ToolResult)
    ensures PicturesIn([result]) == if result.picture == "" then [] else [ToolResult("", result.resultLabel, "", false, result.picture)]
  {
    assert [result][..0] == [];
  }

  lemma LastApart<T>(earlier: seq<T>, later: seq<T>)
    requires later != []
    ensures var front, last := later[..|later| - 1], later[|later| - 1];
      front + [last] == later && earlier + front + [last] == earlier + later
  {
  }

  lemma OneMorePicture(results: seq<ToolResult>, last: ToolResult)
    ensures PicturesIn(results + [last]) == PicturesIn([last]) + PicturesIn(results)
  {
    OnePicture(last);
    assert (results + [last])[..|results|] == results;
  }

  lemma OneMoreMessage(messages: seq<Message>, last: Message)
    ensures AllPictures(messages + [last]) == PicturesIn(last.toolResults) + AllPictures(messages)
  {
    assert (messages + [last])[..|messages|] == messages;
  }

  /** Of a run of results, and of a run of messages: the later one's first. */
  lemma {:induction false} LaterPicturesFirst(earlier: seq<ToolResult>, later: seq<ToolResult>)
    ensures PicturesIn(earlier + later) == PicturesIn(later) + PicturesIn(earlier)
  {
    if later == [] {
      assert earlier + later == earlier;
    } else {
      hide PicturesIn;
      var front, last := later[..|later| - 1], later[|later| - 1];
      LaterPicturesFirst(earlier, front);
      OneMorePicture(earlier + front, last);
      OneMorePicture(front, last);
      LastApart(earlier, later);
      Regrouped(PicturesIn([last]), PicturesIn(front), PicturesIn(earlier));
    }
  }

  lemma {:induction false} LaterMessagesFirst(earlier: seq<Message>, later: seq<Message>)
    ensures AllPictures(earlier + later) == AllPictures(later) + AllPictures(earlier)
  {
    if later == [] {
      assert earlier + later == earlier;
    } else {
      hide PicturesIn, AllPictures;
      var front, last := later[..|later| - 1], later[|later| - 1];
      LaterMessagesFirst(earlier, front);
      OneMoreMessage(earlier + front, last);
      OneMoreMessage(front, last);
      LastApart(earlier, later);
      Regrouped(PicturesIn(last.toolResults), AllPictures(front), AllPictures(earlier));
    }
  }

  lemma OneMessagesPictures(message: Message)
    ensures AllPictures([message]) == PicturesIn(message.toolResults)
  {
    assert [message][..0] == [] && AllPictures([]) == [];
  }

  /** The result is one of these, with fewer than two pictures after it. */
  predicate IsAmongTheNewest(messages: seq<Message>, i: nat, k: nat) {
    && i < |messages| && k < |messages[i].toolResults| && messages[i].toolResults[k].picture != ""
    && |PicturesIn(messages[i].toolResults[k + 1..])| + |AllPictures(messages[i + 1..])| < 2
  }

  /** A picture rides at the end of a prompt when fewer than two come after it, at the
      place that says how many do. */
  lemma TheNewestAreShown(messages: seq<Message>, i: nat, k: nat)
    requires IsAmongTheNewest(messages, i, k)
    ensures var at := |PicturesIn(messages[i].toolResults[k + 1..])| + |AllPictures(messages[i + 1..])|;
      var result, newest := messages[i].toolResults[k], Newest(AllPictures(messages));
      |newest| <= 2 && at < |newest| && newest[at] == ToolResult("", result.resultLabel, "", false, result.picture)
  {
    hide PicturesIn, AllPictures;
    var results := messages[i].toolResults;
    var before, one, after := PicturesIn(results[..k]), PicturesIn([results[k]]), PicturesIn(results[k + 1..]);
    OnePicture(results[k]);
    LaterPicturesFirst(results[..k], [results[k]]);
    LaterPicturesFirst(results[..k] + [results[k]], results[k + 1..]);
    assert results == results[..k] + [results[k]] + results[k + 1..];
    OneMessagesPictures(messages[i]);
    LaterMessagesFirst(messages[..i], [messages[i]]);
    LaterMessagesFirst(messages[..i] + [messages[i]], messages[i + 1..]);
    assert messages == messages[..i] + [messages[i]] + messages[i + 1..];
    assert AllPictures(messages) == AllPictures(messages[i + 1..]) + (after + (one + before) + AllPictures(messages[..i]));
  }

  lemma PicturesStep(results: seq<ToolResult>, back: nat)
    requires back < |results|
    ensures PicturesIn(results[..back + 1])
            == (if results[back].picture != "" then [OnItsOwn(results[back])] else []) + PicturesIn(results[..back])
  {
    assert results[..back + 1][..back] == results[..back];
  }

  lemma Regrouped(a: seq<ToolResult>, b: seq<ToolResult>, c: seq<ToolResult>)
    ensures a + (b + c) == (a + b) + c
  {
  }

  lemma NewestGrows(before: seq<ToolResult>, one: ToolResult)
    ensures Newest(before + [one])
            == if |Newest(before)| < MAX_PICTURES_SHOWN then Newest(before) + [one] else Newest(before)
    ensures before + [] == before
  {
  }

  /** One message of the scan: its results are copied and stripped from the last
      to the first, and their pictures join those already shown while there is room. */
  method StripOne(message: Message, shown: seq<ToolResult>, ghost seen: seq<ToolResult>)
    returns (stripped: Message, pictures: seq<ToolResult>)
    requires shown == Newest(seen)
    ensures stripped == Stripped(message)
    ensures pictures == Newest(seen + PicturesIn(message.toolResults))
  {
    hide Newest;
    var originals := message.toolResults;
    var results := originals;
    pictures := shown;
    ghost var found: seq<ToolResult> := [];
    assert originals[..|originals|] == originals;
    assert seen + found == seen;
    for back := |originals| downto 0
      invariant |results| == |originals|
      invariant forall k | 0 <= k < back :: results[k] == originals[k]
      invariant forall k | back <= k < |originals| :: results[k] == WithoutItsPicture(originals[k])
      invariant PicturesIn(originals) == found + PicturesIn(originals[..back])
      invariant pictures == Newest(seen + found)
    {
      PicturesStep(originals, back);
      ghost var step := if originals[back].picture != "" then [OnItsOwn(originals[back])] else [];
      Regrouped(found, step, PicturesIn(originals[..back]));
      Regrouped(seen, found, step);
      NewestGrows(seen + found, OnItsOwn(originals[back]));
      found := found + step;
      if results[back].picture != "" {
        if |pictures| < MAX_PICTURES_SHOWN {
          pictures := pictures + [OnItsOwn(results[back])];
        }
        results := results[back := results[back].(picture := "")];
      }
    }
    assert found == PicturesIn(originals);
    stripped := message.(toolResults := results);
    assert results == Stripped(message).toolResults;
  }

  /** Taking the pictures off goes from the newest message to the oldest; it keeps
      the newest two and strips every result, on a copy. */
  method WithoutPictures(messages: seq<Message>) returns (stripped: seq<Message>, pictures: seq<ToolResult>)
    ensures stripped == StrippedAll(messages)
    ensures pictures == Newest(AllPictures(messages))
  {
    hide Stripped, PicturesIn, OnItsOwn;
    stripped, pictures := messages, [];
    ghost var seen: seq<ToolResult> := [];
    assert messages[..|messages|] == messages;
    for at := |messages| downto 0
      invariant |stripped| == |messages|
      invariant forall k | 0 <= k < at :: stripped[k] == messages[k]
      invariant forall k | at <= k < |messages| :: stripped[k] == Stripped(messages[k])
      invariant AllPictures(messages) == seen + AllPictures(messages[..at])
      invariant pictures == Newest(seen)
    {
      var message;
      message, pictures := StripOne(messages[at], pictures, seen);
      seen := seen + PicturesIn(messages[at].toolResults);
      stripped := stripped[at := message];
      assert messages[..at + 1][..at] == messages[..at];
    }
    assert AllPictures(messages) == seen;
  }

  function LabelsOf(pictures: seq<ToolResult>): seq<string> {
    seq(|pictures|, k requires 0 <= k < |pictures| => pictures[k].resultLabel)
  }

  function PicturesMessage(pictures: seq<ToolResult>): seq<Message> {
    if pictures == [] then []
    else
      [Message(User,
               PICTURES_HEADING + "\n\nthe pictures that came with " + Join(LabelsOf(pictures), " and ")
               + ", newest first; " + NO_LONGER_SHOWN,
               [], pictures)]
  }
}
