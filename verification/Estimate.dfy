/** What a request holds, and how many tokens it is counted at. */
module Requests {

  datatype Role = User | Assistant

  datatype ToolCall = ToolCall(id: string, name: string, input: string)

  datatype ToolResult = ToolResult(callId: string, resultLabel: string, text: string, failed: bool, picture: string)

  datatype Message = Message(role: Role, text: string, toolCalls: seq<ToolCall>, toolResults: seq<ToolResult>)

  datatype ToolField = ToolField(name: string, kind: string, description: string)

  datatype ToolSpec = ToolSpec(name: string, description: string, fields: seq<ToolField>)

  datatype CacheBoundary = NoBoundary | BoundaryA | BoundaryB

  datatype SystemBlock = SystemBlock(name: string, text: string, boundary: CacheBoundary)

  datatype Request = Request(systemBlocks: seq<SystemBlock>, messages: seq<Message>, tools: seq<ToolSpec>, maxOutputTokens: int)
}

/** The one place the size of a prompt is measured. */
module Estimate {
  import opened Requests

  const TOKENS_PER_HUNDRED_CHARACTERS := 33
  const TOKENS_PER_MESSAGE := 8
  const TOKENS_PER_TOOL_PART := 12
  const TOKENS_PER_PICTURE := 800

  function Sum<T>(parts: seq<T>, cost: T -> nat): nat {
    if parts == [] then 0 else cost(parts[0]) + Sum(parts[1..], cost)
  }

  lemma {:induction false} SumOfAppend<T>(a: seq<T>, b: seq<T>, cost: T -> nat)
    ensures Sum(a + b, cost) == Sum(a, cost) + Sum(b, cost)
  {
    if a == [] {
      assert a + b == b;
    } else {
      assert (a + b)[1..] == a[1..] + b;
      SumOfAppend(a[1..], b, cost);
    }
  }

  lemma SumOfOneMore<T>(parts: seq<T>, i: nat, cost: T -> nat)
    requires i < |parts|
    ensures Sum(parts[..i + 1], cost) == Sum(parts[..i], cost) + cost(parts[i])
  {
    assert parts[..i + 1] == parts[..i] + [parts[i]];
    SumOfAppend(parts[..i], [parts[i]], cost);
    assert Sum([parts[i]], cost) == cost(parts[i]) by {
      assert [parts[i]][1..] == [];
    }
  }

  function EstimateTokens(text: string): nat {
    (|text| * TOKENS_PER_HUNDRED_CHARACTERS + 99) / 100
  }

  function EstimateCall(call: ToolCall): nat {
    TOKENS_PER_TOOL_PART + EstimateTokens(call.name) + EstimateTokens(call.input)
  }

  function EstimateResult(result: ToolResult): nat {
    TOKENS_PER_TOOL_PART + EstimateTokens(result.callId) + EstimateTokens(result.text)
    + if result.picture != "" then TOKENS_PER_PICTURE else 0
  }

  function EstimateMessage(message: Message): nat {
    TOKENS_PER_MESSAGE + EstimateTokens(message.text)
    + Sum(message.toolCalls, EstimateCall) + Sum(message.toolResults, EstimateResult)
  }

  function EstimateBlock(block: SystemBlock): nat {
    EstimateTokens(block.text)
  }

  function EstimateField(field: ToolField): nat {
    TOKENS_PER_TOOL_PART + EstimateTokens(field.name) + EstimateTokens(field.kind) + EstimateTokens(field.description)
  }

  function EstimateToolSpec(spec: ToolSpec): nat {
    TOKENS_PER_TOOL_PART + EstimateTokens(spec.name) + EstimateTokens(spec.description)
    + Sum(spec.fields, EstimateField)
  }

  function TotalTokens(messages: seq<Message>): nat {
    Sum(messages, EstimateMessage)
  }

  function EstimateRequestTokens(request: Request): nat {
    Sum(request.systemBlocks, EstimateBlock) + TotalTokens(request.messages) + Sum(request.tools, EstimateToolSpec)
  }

  /** No longer text is ever counted at fewer tokens. */
  lemma ShorterCostsNoMore(shorter: string, longer: string)
    requires |shorter| <= |longer|
    ensures EstimateTokens(shorter) <= EstimateTokens(longer)
  {
  }

  // ---------------------------------------------------------------- the count and the text

  function Flat<T>(parts: seq<T>, texts: T -> seq<string>): seq<string> {
    if parts == [] then [] else texts(parts[0]) + Flat(parts[1..], texts)
  }

  function Characters(texts: seq<string>): nat {
    if texts == [] then 0 else |texts[0]| + Characters(texts[1..])
  }

  /** Everything the model reads of a request, text by text. */
  function TextsOf(request: Request): seq<string> {
    Flat(request.systemBlocks, (block: SystemBlock) => [block.text])
    + Flat(request.messages, TextsOfMessage) + Flat(request.tools, TextsOfTool)
  }

  function TextsOfMessage(message: Message): seq<string> {
    [message.text] + Flat(message.toolCalls, (call: ToolCall) => [call.name, call.input])
    + Flat(message.toolResults, (result: ToolResult) => [result.callId, result.text])
  }

  function TextsOfTool(spec: ToolSpec): seq<string> {
    [spec.name, spec.description]
    + Flat(spec.fields, (field: ToolField) => [field.name, field.kind, field.description])
  }

  function PicturesOfMessage(message: Message): seq<string> {
    Flat(message.toolResults, (result: ToolResult) => if result.picture == "" then [] else [result.picture])
  }

  function PicturesOf(request: Request): seq<string> { Flat(request.messages, PicturesOfMessage) }

  /** What is wrapped around it: the calls, the results, the tools and their fields. */
  function PartsOf(request: Request): nat {
    Sum(request.messages, (message: Message) => |message.toolCalls| + |message.toolResults|)
    + Sum(request.tools, (spec: ToolSpec) => 1 + |spec.fields|)
  }

  lemma {:induction false} CostOfTexts(texts: seq<string>)
    ensures 33 * Characters(texts) <= 100 * Sum(texts, EstimateTokens) <= 33 * Characters(texts) + 99 * |texts|
  {
    if texts != [] {
      CostOfTexts(texts[1..]);
    }
  }

  /** A list of parts costs what its texts do, and what is around them. */
  lemma {:induction false} CostOfParts<T>(parts: seq<T>, cost: T -> nat, texts: T -> seq<string>, around: T -> nat)
    requires forall part :: cost(part) == around(part) + Sum(texts(part), EstimateTokens)
    ensures Sum(parts, cost) == Sum(parts, around) + Sum(Flat(parts, texts), EstimateTokens)
  {
    if parts != [] {
      CostOfParts(parts[1..], cost, texts, around);
      SumOfAppend(texts(parts[0]), Flat(parts[1..], texts), EstimateTokens);
    }
  }

  lemma {:induction false} SumOfSame<T>(parts: seq<T>, same: nat)
    ensures Sum(parts, (part: T) => same) == same * |parts|
  {
    if parts != [] {
      SumOfSame(parts[1..], same);
      assert same * |parts| == same + same * |parts[1..]|;
    }
  }

  lemma {:induction false} SumOfBoth<T>(parts: seq<T>, a: T -> nat, b: T -> nat, both: T -> nat)
    requires forall part :: both(part) == a(part) + b(part)
    ensures Sum(parts, both) == Sum(parts, a) + Sum(parts, b)
  {
    if parts != [] {
      SumOfBoth(parts[1..], a, b, both);
    }
  }

  lemma {:induction false} SumOfTimes<T>(parts: seq<T>, times: nat, cost: T -> nat, product: T -> nat)
    requires forall part :: product(part) == times * cost(part)
    ensures Sum(parts, product) == times * Sum(parts, cost)
  {
    if parts != [] {
      SumOfTimes(parts[1..], times, cost, product);
      assert times * (cost(parts[0]) + Sum(parts[1..], cost)) == times * cost(parts[0]) + times * Sum(parts[1..], cost);
    }
  }

  lemma {:induction false} PictureCost(results: seq<ToolResult>)
    ensures Sum(results, (result: ToolResult) => 12 + (if result.picture == "" then 0 else 800))
         == 12 * |results| + 800 * |Flat(results, (result: ToolResult) => if result.picture == "" then [] else [result.picture])|
  {
    if results != [] {
      PictureCost(results[1..]);
    }
  }

  lemma SumOfTexts(a: string, b: string, c: string)
    ensures Sum([a], EstimateTokens) == EstimateTokens(a)
    ensures Sum([a, b], EstimateTokens) == EstimateTokens(a) + EstimateTokens(b)
    ensures Sum([a, b, c], EstimateTokens) == EstimateTokens(a) + EstimateTokens(b) + EstimateTokens(c)
  {
    hide EstimateTokens;
    assert [c][1..] == [] && [b, c][1..] == [c] && [a, b, c][1..] == [b, c] && [a, b][1..] == [b] && [a][1..] == [];
    assert Sum([b, c], EstimateTokens) == EstimateTokens(b) + Sum([c], EstimateTokens);
  }

  lemma MessageCosts(message: Message)
    ensures EstimateMessage(message) == 8 + Sum(TextsOfMessage(message), EstimateTokens)
                                        + 12 * (|message.toolCalls| + |message.toolResults|) + 800 * |PicturesOfMessage(message)|
  {
    hide EstimateTokens;
    var callTexts := (call: ToolCall) => [call.name, call.input];
    var resultTexts := (result: ToolResult) => [result.callId, result.text];
    var twelve := (call: ToolCall) => 12;
    var around := (result: ToolResult) => 12 + (if result.picture == "" then 0 else 800);
    forall call: ToolCall ensures EstimateCall(call) == twelve(call) + Sum(callTexts(call), EstimateTokens) {
      SumOfTexts(call.name, call.input, "");
    }
    forall result: ToolResult ensures EstimateResult(result) == around(result) + Sum(resultTexts(result), EstimateTokens) {
      SumOfTexts(result.callId, result.text, "");
    }
    CostOfParts(message.toolCalls, EstimateCall, callTexts, twelve);
    CostOfParts(message.toolResults, EstimateResult, resultTexts, around);
    SumOfSame(message.toolCalls, 12);
    PictureCost(message.toolResults);
    SumOfTexts(message.text, "", "");
    SumOfAppend([message.text], Flat(message.toolCalls, callTexts), EstimateTokens);
    SumOfAppend([message.text] + Flat(message.toolCalls, callTexts), Flat(message.toolResults, resultTexts), EstimateTokens);
  }

  lemma ToolCosts(spec: ToolSpec)
    ensures EstimateToolSpec(spec) == 12 * (1 + |spec.fields|) + Sum(TextsOfTool(spec), EstimateTokens)
  {
    hide EstimateTokens;
    var fieldTexts := (field: ToolField) => [field.name, field.kind, field.description];
    var twelve := (field: ToolField) => 12;
    forall field: ToolField ensures EstimateField(field) == twelve(field) + Sum(fieldTexts(field), EstimateTokens) {
      SumOfTexts(field.name, field.kind, field.description);
    }
    CostOfParts(spec.fields, EstimateField, fieldTexts, twelve);
    SumOfSame(spec.fields, 12);
    SumOfTexts(spec.name, spec.description, "");
    SumOfAppend([spec.name, spec.description], Flat(spec.fields, fieldTexts), EstimateTokens);
  }

  lemma {:induction false} PicturesSum(messages: seq<Message>)
    ensures |Flat(messages, PicturesOfMessage)| == Sum(messages, (message: Message) => |PicturesOfMessage(message)|)
  {
    if messages != [] {
      PicturesSum(messages[1..]);
    }
  }

  lemma MessagesCost(messages: seq<Message>)
    ensures TotalTokens(messages) == Sum(Flat(messages, TextsOfMessage), EstimateTokens) + 8 * |messages|
         + 12 * Sum(messages, (message: Message) => |message.toolCalls| + |message.toolResults|)
         + 800 * |Flat(messages, PicturesOfMessage)|
  {
    hide EstimateTokens, EstimateMessage, TextsOfMessage, PicturesOfMessage;
    var parts := (message: Message) => |message.toolCalls| + |message.toolResults|;
    var pictures := (message: Message) => |PicturesOfMessage(message)|;
    var twelve := (message: Message) => 12 * (|message.toolCalls| + |message.toolResults|);
    var eight := (message: Message) => 8;
    var hundreds := (message: Message) => 800 * |PicturesOfMessage(message)|;
    var wrapped := (message: Message) => 8 + 12 * (|message.toolCalls| + |message.toolResults|);
    var around := (message: Message) =>
      8 + 12 * (|message.toolCalls| + |message.toolResults|) + 800 * |PicturesOfMessage(message)|;
    forall message: Message ensures EstimateMessage(message) == around(message) + Sum(TextsOfMessage(message), EstimateTokens) {
      MessageCosts(message);
    }
    CostOfParts(messages, EstimateMessage, TextsOfMessage, around);
    SumOfBoth(messages, eight, twelve, wrapped);
    SumOfBoth(messages, wrapped, hundreds, around);
    SumOfSame(messages, 8);
    SumOfTimes(messages, 12, parts, twelve);
    SumOfTimes(messages, 800, pictures, hundreds);
    PicturesSum(messages);
  }

  lemma ToolsCost(tools: seq<ToolSpec>)
    ensures Sum(tools, EstimateToolSpec) == Sum(Flat(tools, TextsOfTool), EstimateTokens)
         + 12 * Sum(tools, (spec: ToolSpec) => 1 + |spec.fields|)
  {
    hide EstimateTokens, EstimateToolSpec, TextsOfTool;
    var parts := (spec: ToolSpec) => 1 + |spec.fields|;
    var twelve := (spec: ToolSpec) => 12 * (1 + |spec.fields|);
    forall spec: ToolSpec ensures EstimateToolSpec(spec) == twelve(spec) + Sum(TextsOfTool(spec), EstimateTokens) {
      ToolCosts(spec);
    }
    CostOfParts(tools, EstimateToolSpec, TextsOfTool, twelve);
    SumOfTimes(tools, 12, parts, twelve);
  }

  /** The whole request costs at least a third, by the constant, of the characters of
      every text in it, with eight for each message, twelve for each call, result, tool
      and field, and eight hundred for each picture; and at most what rounding every text
      up adds to that. */
  lemma TheCountFollowsTheText(request: Request)
    ensures var around := 8 * |request.messages| + 12 * PartsOf(request) + 800 * |PicturesOf(request)|;
      var characters := Characters(TextsOf(request)); var counted := EstimateRequestTokens(request);
      33 * characters + 100 * around <= 100 * counted <= 33 * characters + 99 * |TextsOf(request)| + 100 * around
  {
    hide EstimateTokens, Characters, TextsOfMessage, TextsOfTool, PicturesOfMessage, TotalTokens, EstimateToolSpec;
    var blockTexts := (block: SystemBlock) => [block.text];
    var nothing := (block: SystemBlock) => 0;
    forall block: SystemBlock ensures EstimateBlock(block) == nothing(block) + Sum(blockTexts(block), EstimateTokens) {
      SumOfTexts(block.text, "", "");
    }
    CostOfParts(request.systemBlocks, EstimateBlock, blockTexts, nothing);
    SumOfSame(request.systemBlocks, 0);
    MessagesCost(request.messages);
    ToolsCost(request.tools);
    var inBlocks, inMessages := Flat(request.systemBlocks, blockTexts), Flat(request.messages, TextsOfMessage);
    SumOfAppend(inBlocks, inMessages, EstimateTokens);
    SumOfAppend(inBlocks + inMessages, Flat(request.tools, TextsOfTool), EstimateTokens);
    CostOfTexts(TextsOf(request));
  }

  method CountMessage(message: Message) returns (counted: nat)
    ensures counted == EstimateMessage(message)
  {
    counted := TOKENS_PER_MESSAGE + EstimateTokens(message.text);
    ghost var start := counted;
    for i := 0 to |message.toolCalls|
      invariant counted == start + Sum(message.toolCalls[..i], EstimateCall)
    {
      var call := message.toolCalls[i];
      counted := counted + TOKENS_PER_TOOL_PART + EstimateTokens(call.name) + EstimateTokens(call.input);
      SumOfOneMore(message.toolCalls, i, EstimateCall);
    }
    start := counted;
    for i := 0 to |message.toolResults|
      invariant counted == start + Sum(message.toolResults[..i], EstimateResult)
    {
      var result := message.toolResults[i];
      counted := counted + TOKENS_PER_TOOL_PART + EstimateTokens(result.callId) + EstimateTokens(result.text);
      if result.picture != "" {
        counted := counted + TOKENS_PER_PICTURE;
      }
      SumOfOneMore(message.toolResults, i, EstimateResult);
    }
    assert message.toolCalls[..|message.toolCalls|] == message.toolCalls;
    assert message.toolResults[..|message.toolResults|] == message.toolResults;
  }

  method CountToolSpec(spec: ToolSpec) returns (counted: nat)
    ensures counted == EstimateToolSpec(spec)
  {
    counted := TOKENS_PER_TOOL_PART + EstimateTokens(spec.name) + EstimateTokens(spec.description);
    ghost var start := counted;
    for i := 0 to |spec.fields|
      invariant counted == start + Sum(spec.fields[..i], EstimateField)
    {
      var field := spec.fields[i];
      counted := counted + TOKENS_PER_TOOL_PART + EstimateTokens(field.name)
                 + EstimateTokens(field.kind) + EstimateTokens(field.description);
      SumOfOneMore(spec.fields, i, EstimateField);
    }
    assert spec.fields[..|spec.fields|] == spec.fields;
  }

  method CountMessages(messages: seq<Message>) returns (counted: nat)
    ensures counted == TotalTokens(messages)
  {
    counted := 0;
    for i := 0 to |messages|
      invariant counted == Sum(messages[..i], EstimateMessage)
    {
      var cost := CountMessage(messages[i]);
      counted := counted + cost;
      SumOfOneMore(messages, i, EstimateMessage);
    }
    assert messages[..|messages|] == messages;
  }

  method CountRequest(request: Request) returns (counted: nat)
    ensures counted == EstimateRequestTokens(request)
  {
    counted := 0;
    for i := 0 to |request.systemBlocks|
      invariant counted == Sum(request.systemBlocks[..i], EstimateBlock)
    {
      counted := counted + EstimateTokens(request.systemBlocks[i].text);
      SumOfOneMore(request.systemBlocks, i, EstimateBlock);
    }
    assert request.systemBlocks[..|request.systemBlocks|] == request.systemBlocks;
    var inMessages := CountMessages(request.messages);
    counted := counted + inMessages;
    ghost var start := counted;
    for i := 0 to |request.tools|
      invariant counted == start + Sum(request.tools[..i], EstimateToolSpec)
    {
      var cost := CountToolSpec(request.tools[i]);
      counted := counted + cost;
      SumOfOneMore(request.tools, i, EstimateToolSpec);
    }
    assert request.tools[..|request.tools|] == request.tools;
  }
}
