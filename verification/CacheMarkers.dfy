/** Chat messages of the OpenAI provider and the explicit cache marker for DashScope
    (`buildRequestBody`, `convertMessage`, `applyDashScopeSystemCacheControl`,
    internal/infra/openai/provider.go). */
module CacheMarkers {
  import opened Options
  import opened GoStrings

  // Requests

  datatype Role = System | User | Assistant | Unspecified

  /** A text, an image with the URL it is sent under (empty when it has none), or a part of a
      kind this provider does not send. */
  datatype Part = TextPart(text: string) | ImagePart(url: string) | OtherPart

  datatype ToolCall = ToolCall(id: string, name: string, arguments: string)

  datatype InputItem =
    | MessageItem(role: Role, parts: seq<Part>, toolCalls: seq<ToolCall>)
    | ToolOutputItem(callId: string, output: string, images: seq<string>)
    | EmptyItem

  // Messages on the wire

  datatype BlockBody = TextBlock(text: string) | ImageBlock(url: string)

  datatype Block = Block(body: BlockBody, cached: bool)

  datatype Content = Absent | Plain(text: string) | Blocks(blocks: seq<Block>)

  datatype Message = Message(role: string, content: Content, toolCalls: seq<ToolCall>, callId: string)

  // Conversion

  /** The results for all elements, one after another. */
  function FlatMap<A, B>(f: A -> seq<B>, s: seq<A>): seq<B> {
    if s == [] then [] else FlatMap(f, s[..|s| - 1]) + f(s[|s| - 1])
  }

  lemma {:induction false} FlatMapAppend<A, B>(f: A -> seq<B>, s: seq<A>, t: seq<A>)
    ensures FlatMap(f, s + t) == FlatMap(f, s) + FlatMap(f, t)
  {
    if t == [] {
      assert s + t == s;
    } else {
      assert (s + t)[..|s + t| - 1] == s + t[..|t| - 1];
      FlatMapAppend(f, s, t[..|t| - 1]);
    }
  }

  function RoleString(role: Role): string {
    match role
    case System => "system"
    case Assistant => "assistant"
    case _ => "user"
  }

  function MessageText(parts: seq<Part>): string {
    FlatMap((part: Part) => if part.TextPart? then part.text else "", parts)
  }

  function BlockOf(part: Part): seq<Block> {
    match part
    case TextPart(text) => if text == "" then [] else [Block(TextBlock(text), false)]
    case ImagePart(url) => if url == "" then [] else [Block(ImageBlock(url), false)]
    case OtherPart => []
  }

  function BlocksOf(parts: seq<Part>): seq<Block> {
    FlatMap(BlockOf, parts)
  }

  predicate OnlyText(parts: seq<Part>) { forall i :: 0 <= i < |parts| ==> parts[i].TextPart? }

  predicate Calls(item: InputItem) { item.MessageItem? && item.role == Assistant && item.toolCalls != [] }

  function Converted(item: InputItem): Message
    requires item.MessageItem?
  {
    var text := MessageText(item.parts);
    if Calls(item) then Message("assistant", if text == "" then Absent else Plain(text), item.toolCalls, "")
    else Message(RoleString(item.role), if OnlyText(item.parts) then Plain(text)
        else Blocks(BlocksOf(item.parts)), [], "")
  }

  /** Under which role a message is sent, and with which tool calls. */
  lemma ConvertedHeader(item: InputItem)
    requires item.MessageItem?
    ensures Converted(item).role == "system" <==> item.role == System
    ensures Converted(item).role == "assistant" <==> item.role == Assistant
    ensures Converted(item).role == "user" <==> item.role == User || item.role == Unspecified
    ensures Converted(item).toolCalls == (if item.role == Assistant then item.toolCalls else [])
    ensures Converted(item).callId == ""
  {
    assert "system"[0] != "assistant"[0] && "system"[0] != "user"[0] && "assistant"[0] != "user"[0];
  }

  method Text(parts: seq<Part>) returns (text: string)
    ensures text == MessageText(parts)
  {
    text := "";
    for i := 0 to |parts|
      invariant text == MessageText(parts[..i])
    {
      if parts[i].TextPart? { text := text + parts[i].text; }
      assert parts[..i + 1][..i] == parts[..i];
    }
    assert parts[..|parts|] == parts;
  }

  method ConvertMessage(item: InputItem) returns (m: Message)
    requires item.MessageItem?
    ensures m == Converted(item)
  {
    var text := Text(item.parts);
    if item.role == Assistant && item.toolCalls != [] {
      return Message("assistant", if text != "" then Plain(text) else Absent, item.toolCalls, "");
    }
    var hasMedia := false;
    for i := 0 to |item.parts|
      invariant !hasMedia && OnlyText(item.parts[..i])
    {
      if !item.parts[i].TextPart? { hasMedia := true; break; }
    }
    if !hasMedia { return Message(RoleString(item.role), Plain(text), [], ""); }
    var blocks: seq<Block> := [];
    for i := 0 to |item.parts|
      invariant blocks == BlocksOf(item.parts[..i])
    {
      match item.parts[i] {
        case TextPart(t) => if t != "" { blocks := blocks + [Block(TextBlock(t), false)]; }
        case ImagePart(url) => if url != "" { blocks := blocks + [Block(ImageBlock(url), false)]; }
        case OtherPart =>
      }
      assert item.parts[..i + 1][..i] == item.parts[..i];
    }
    assert item.parts[..|item.parts|] == item.parts;
    m := Message(RoleString(item.role), Blocks(blocks), [], "");
  }

  function ImageMessage(url: string): Message { Message("user", Blocks([Block(ImageBlock(url), false)]), [], "") }

  function ImageMessages(urls: seq<string>): seq<Message> {
    FlatMap((url: string) => if url == "" then [] else [ImageMessage(url)], urls)
  }

  method ToolImages(urls: seq<string>) returns (list: seq<Message>)
    ensures list == ImageMessages(urls)
  {
    list := [];
    for j := 0 to |urls|
      invariant list == ImageMessages(urls[..j])
    {
      if urls[j] != "" { list := list + [ImageMessage(urls[j])]; }
      assert urls[..j + 1][..j] == urls[..j];
    }
    assert urls[..|urls|] == urls;
  }

  function MessagesOfItem(item: InputItem): seq<Message> {
    match item
    case MessageItem(_, _, _) => [Converted(item)]
    case ToolOutputItem(callId, output, images) => [Message("tool", Plain(output), [], callId)] + ImageMessages(images)
    case EmptyItem => []
  }

  function MessagesOf(items: seq<InputItem>): seq<Message> {
    FlatMap(MessagesOfItem, items)
  }

  // Marking

  predicate HasText(block: Block) { block.body.TextBlock? && !Blank(block.body.text) }

  /** The index of the last block with text, or -1. */
  function LastText(blocks: seq<Block>): (k: int)
    ensures -1 <= k < |blocks| && (k >= 0 ==> HasText(blocks[k]))
    ensures forall j :: k < j < |blocks| ==> !HasText(blocks[j])
  {
    if blocks == [] then -1
    else if HasText(blocks[|blocks| - 1]) then |blocks| - 1
    else LastText(blocks[..|blocks| - 1])
  }

  function MarkedContent(content: Content): Content {
    match content
    case Plain(text) => if Blank(text) then content else Blocks([Block(TextBlock(text), true)])
    case Blocks(blocks) =>
      var k := LastText(blocks);
      if k < 0 then content else Blocks(blocks[k := blocks[k].(cached := true)])
    case Absent => content
  }

  /** The index of the first system message, or the number of messages. */
  function FirstSystem(messages: seq<Message>): (i: nat)
    ensures i <= |messages| && (i < |messages| ==> messages[i].role == "system")
    ensures forall j :: 0 <= j < i ==> messages[j].role != "system"
  {
    if messages == [] || messages[0].role == "system" then 0 else 1 + FirstSystem(messages[1..])
  }

  function Marked(messages: seq<Message>): seq<Message> {
    var i := FirstSystem(messages);
    if i == |messages| then messages else messages[i := messages[i].(content := MarkedContent(messages[i].content))]
  }

  method ApplySystemCacheControl(messages: array<Message>)
    modifies messages
    ensures messages[..] == Marked(old(messages[..]))
  {
    for m := 0 to messages.Length
      invariant messages[..] == old(messages[..])
      invariant m <= FirstSystem(messages[..])
    {
      var message := messages[m];
      if message.role != "system" { continue; }
      match message.content {
        case Plain(text) =>
          if Blank(text) { return; }
          messages[m] := message.(content := Blocks([Block(TextBlock(text), true)]));
        case Blocks(blocks) =>
          var lastText := -1;
          for i := 0 to |blocks|
            invariant lastText == LastText(blocks[..i])
          {
            assert blocks[..i + 1][..i] == blocks[..i];
            if !blocks[i].body.TextBlock? { continue; }
            if !Blank(blocks[i].body.text) { lastText := i; }
          }
          assert blocks[..|blocks|] == blocks;
          if lastText < 0 { return; }
          messages[m] := message.(content := Blocks(blocks[lastText := blocks[lastText].(cached := true)]));
        case Absent =>
      }
      return;
    }
  }

  /** `dashScopeExplicitCacheEligible`; `caching` is absent when the request has no caching
      section, `host` when the base URL does not parse. */
  method CacheEligible(model: string, caching: Option<bool>, host: Option<string>) returns (eligible: bool)
    ensures eligible <==>
            && model in {"qwen-flash", "qwen3.7-flash", "qwen3.8-flash", "qwen3.5-flash", "qwen3-vl-plus"}
            && caching == Some(true) && host == Some("dashscope.aliyuncs.com")
  {
    match model {
      case "qwen-flash" | "qwen3.7-flash" | "qwen3.8-flash" | "qwen3.5-flash" | "qwen3-vl-plus" =>
      case _ => return false;
    }
    if caching.None? || !caching.value { return false; }
    if host.None? || host.value != "dashscope.aliyuncs.com" { return false; }
    eligible := true;
  }

  /** The messages part of `buildRequestBody`. */
  method BuildMessages(model: string, caching: Option<bool>, host: Option<string>, items: seq<InputItem>)
    returns (messages: array<Message>)
    ensures messages[..] ==
              if model in {"qwen-flash", "qwen3.7-flash", "qwen3.8-flash", "qwen3.5-flash", "qwen3-vl-plus"} &&
                 caching == Some(true) && host == Some("dashscope.aliyuncs.com")
              then Marked(MessagesOf(items)) else MessagesOf(items)
  {
    var list: seq<Message> := [];
    for i := 0 to |items|
      invariant list == MessagesOf(items[..i])
    {
      match items[i] {
        case MessageItem(_, _, _) =>
          var m := ConvertMessage(items[i]);
          list := list + [m];
        case ToolOutputItem(callId, output, images) =>
          var followers := ToolImages(images);
          list := list + ([Message("tool", Plain(output), [], callId)] + followers);
        case EmptyItem =>
      }
      assert items[..i + 1][..i] == items[..i];
    }
    assert items[..|items|] == items;
    messages := new Message[|list|](i requires 0 <= i < |list| => list[i]);
    assert messages[..] == list;
    var eligible := CacheEligible(model, caching, host);
    if eligible { ApplySystemCacheControl(messages); }
  }

  // What marking does

  /** Message `i` carries a marker on block `k`. */
  predicate MarkedAt(messages: seq<Message>, i: int, k: int) {
    && 0 <= i < |messages| && messages[i].content.Blocks?
    && 0 <= k < |messages[i].content.blocks| && messages[i].content.blocks[k].cached
  }

  ghost predicate Unmarked(messages: seq<Message>) { forall i, k :: !MarkedAt(messages, i, k) }

  predicate IsFirstSystem(messages: seq<Message>, i: int) {
    0 <= i < |messages| && messages[i].role == "system" && forall j :: 0 <= j < i ==> messages[j].role != "system"
  }

  /** Text `k` of a content is its last one that is not blank; a plain content is one text. */
  predicate IsLastText(content: Content, k: int) {
    match content
    case Absent => false
    case Plain(text) => k == 0 && !Blank(text)
    case Blocks(blocks) => 0 <= k < |blocks| && HasText(blocks[k]) && forall j :: k < j < |blocks| ==>
        !HasText(blocks[j])
  }

  /** The marker is on the last text of the first system message, and nowhere else. */
  lemma MarkerPlace(messages: seq<Message>, i: int, k: int)
    requires Unmarked(messages)
    ensures MarkedAt(Marked(messages), i, k) <==> IsFirstSystem(messages, i) && IsLastText(messages[i].content, k)
  {
    var first := FirstSystem(messages);
    assert !MarkedAt(messages, i, k);
    if first < |messages| {
      assert IsFirstSystem(messages, first);
      var content := messages[first].content;
      if content.Blocks? {
        assert forall j :: !MarkedAt(messages, first, j);
      }
    }
  }

  predicate SaysSomething(content: Content) {
    match content
    case Absent => false
    case Plain(text) => !Blank(text)
    case Blocks(blocks) => exists k :: 0 <= k < |blocks| && HasText(blocks[k])
  }

  /** There is one marker when the first system message has text, and none otherwise. */
  lemma OneMarkerOrNone(messages: seq<Message>)
    requires Unmarked(messages)
    ensures Unmarked(Marked(messages)) <==> forall i :: IsFirstSystem(messages, i) ==>
            !SaysSomething(messages[i].content)
    ensures forall i, k, i', k' :: MarkedAt(Marked(messages), i, k) && MarkedAt(Marked(messages), i', k') ==>
            i == i' && k == k'
  {
    forall i, k ensures MarkedAt(Marked(messages), i, k) <==>
        IsFirstSystem(messages, i) && IsLastText(messages[i].content, k) {
      MarkerPlace(messages, i, k);
    }
    forall i | IsFirstSystem(messages, i) && SaysSomething(messages[i].content)
      ensures exists k :: MarkedAt(Marked(messages), i, k) {
      var content := messages[i].content;
      var k := if content.Blocks? then LastText(content.blocks) else 0;
      assert IsLastText(content, k);
      assert MarkedAt(Marked(messages), i, k);
    }
  }

  function Cleared(blocks: seq<Block>): (r: seq<Block>)
    ensures |r| == |blocks| && forall k :: 0 <= k < |r| ==> r[k] == blocks[k].(cached := false)
  {
    seq(|blocks|, k requires 0 <= k < |blocks| => blocks[k].(cached := false))
  }

  /** Without markers, and with a lone text block as a plain text. */
  function Flattened(content: Content): Content {
    if content.Blocks? then
      var blocks := Cleared(content.blocks);
      if |blocks| == 1 && blocks[0].body.TextBlock? then Plain(blocks[0].body.text) else Blocks(blocks)
    else content
  }

  function AllFlattened(messages: seq<Message>): (r: seq<Message>)
    ensures |r| == |messages| && forall i :: 0 <= i < |r| ==>
            r[i] == messages[i].(content := Flattened(messages[i].content))
  {
    seq(|messages|, i requires 0 <= i < |messages| => messages[i].(content := Flattened(messages[i].content)))
  }

  lemma ContentKeepsItsMeaning(content: Content)
    ensures Flattened(MarkedContent(content)) == Flattened(content)
  {
    if content.Blocks? { assert Cleared(MarkedContent(content).blocks) == Cleared(content.blocks); }
  }

  /** Marking keeps the messages, their order, roles, tool calls and content. */
  lemma MarkingKeepsMeaning(messages: seq<Message>)
    ensures AllFlattened(Marked(messages)) == AllFlattened(messages)
  {
    var i := FirstSystem(messages);
    if i < |messages| { ContentKeepsItsMeaning(messages[i].content); }
  }

  predicate SpeakingSystem(messages: seq<Message>, j: int) {
    0 <= j < |messages| && messages[j].role == "system" && SaysSomething(messages[j].content)
  }

  predicate FirstSystemWithText(messages: seq<Message>, i: int) {
    SpeakingSystem(messages, i) && forall j :: 0 <= j < i ==> !SpeakingSystem(messages, j)
  }

  /** Every first system message with text gets the marker. */
  ghost predicate MarksTheFirstText(messages: seq<Message>) {
    forall i :: FirstSystemWithText(messages, i) ==> exists k :: MarkedAt(Marked(messages), i, k)
  }

  /** The comment above the function speaks of the first system message that has text. The
      code looks at the first system message only, so the two agree exactly when that message
      has text or no system message has. */
  lemma MarksTheFirstTextExactlyWhen(messages: seq<Message>)
    requires Unmarked(messages)
    ensures MarksTheFirstText(messages) <==>
            forall i, j :: IsFirstSystem(messages, i) && SpeakingSystem(messages, j) ==> SpeakingSystem(messages, i)
  {
    forall i, k ensures MarkedAt(Marked(messages), i, k) <==>
        IsFirstSystem(messages, i) && IsLastText(messages[i].content, k) {
      MarkerPlace(messages, i, k);
    }
    var first := FirstSystem(messages);
    if MarksTheFirstText(messages) {
      forall j | SpeakingSystem(messages, j)
        ensures IsFirstSystem(messages, first) && SpeakingSystem(messages, first)
      {
        var i := EarliestText(messages, j);
        var k :| MarkedAt(Marked(messages), i, k);
      }
    } else {
      var i :| FirstSystemWithText(messages, i) && !exists k :: MarkedAt(Marked(messages), i, k);
      assert IsFirstSystem(messages, first) && SpeakingSystem(messages, i);
      if first == i {
        var content := messages[i].content;
        var k := if content.Blocks? then LastText(content.blocks) else 0;
        assert MarkedAt(Marked(messages), i, k);
      }
    }
  }

  lemma {:induction false} EarliestText(messages: seq<Message>, j: nat) returns (i: nat)
    requires SpeakingSystem(messages, j)
    ensures FirstSystemWithText(messages, i)
    decreases j
  {
    if h :| 0 <= h < j && SpeakingSystem(messages, h) {
      i := EarliestText(messages, h);
    } else {
      i := j;
    }
  }

  // What conversion does

  /** Content as the model reads it, character by character and image by image. */
  datatype Token = Letter(c: char) | Picture(url: string)

  function Letters(text: string): (r: seq<Token>)
    ensures |r| == |text| && forall i :: 0 <= i < |r| ==> r[i] == Letter(text[i])
  {
    seq(|text|, i requires 0 <= i < |text| => Letter(text[i]))
  }

  function PartTokens(part: Part): seq<Token> {
    match part
    case TextPart(text) => Letters(text)
    case ImagePart(url) => if url == "" then [] else [Picture(url)]
    case OtherPart => []
  }

  function TokensOfParts(parts: seq<Part>): seq<Token> {
    FlatMap(PartTokens, parts)
  }

  function BlockTokens(block: Block): seq<Token> {
    match block.body
    case TextBlock(text) => Letters(text)
    case ImageBlock(url) => [Picture(url)]
  }

  function TokensOfBlocks(blocks: seq<Block>): seq<Token> {
    FlatMap(BlockTokens, blocks)
  }

  function TokensOf(content: Content): seq<Token> {
    match content
    case Absent => []
    case Plain(text) => Letters(text)
    case Blocks(blocks) => TokensOfBlocks(blocks)
  }

  lemma {:induction false} BlocksKeepTokens(parts: seq<Part>)
    ensures TokensOfBlocks(BlocksOf(parts)) == TokensOfParts(parts)
  {
    if parts != [] {
      var before, last := BlocksOf(parts[..|parts| - 1]), BlockOf(parts[|parts| - 1]);
      BlocksKeepTokens(parts[..|parts| - 1]);
      if last == [] {
        assert before + last == before;
      } else {
        assert (before + last)[..|before|] == before && (before + last)[|before|] == last[0];
      }
    }
  }

  predicate ShowsImage(part: Part) { part.ImagePart? && part.url != "" }

  lemma {:induction false} TextKeepsTokens(parts: seq<Part>)
    ensures |MessageText(parts)| <= |TokensOfParts(parts)|
    ensures if exists i :: 0 <= i < |parts| && ShowsImage(parts[i]) then |MessageText(parts)| < |TokensOfParts(parts)|
            else Letters(MessageText(parts)) == TokensOfParts(parts)
  {
    if parts != [] {
      var init, last := parts[..|parts| - 1], parts[|parts| - 1];
      TextKeepsTokens(init);
      if i :| 0 <= i < |init| && ShowsImage(init[i]) { assert ShowsImage(parts[i]); }
      if ShowsImage(last) { assert ShowsImage(parts[|parts| - 1]); }
    }
  }

  /** Conversion keeps every character and image, in order, except the images of an assistant
      message that also calls tools. */
  lemma ConversionKeepsTokensExactlyWhen(item: InputItem)
    requires item.MessageItem?
    ensures TokensOf(Converted(item).content) == TokensOfParts(item.parts) <==>
            !(Calls(item) && exists i :: 0 <= i < |item.parts| && ShowsImage(item.parts[i]))
  {
    TextKeepsTokens(item.parts);
    BlocksKeepTokens(item.parts);
    assert Letters("") == [];
  }

  lemma {:induction false} ImagesAreUnmarked(urls: seq<string>)
    ensures Unmarked(ImageMessages(urls))
  {
    if urls != [] {
      var last := urls[|urls| - 1];
      ImagesAreUnmarked(urls[..|urls| - 1]);
      UnmarkedTogether(ImageMessages(urls[..|urls| - 1]), if last == "" then [] else [ImageMessage(last)]);
    }
  }

  lemma UnmarkedTogether(a: seq<Message>, b: seq<Message>)
    requires Unmarked(a) && Unmarked(b)
    ensures Unmarked(a + b)
  {
    forall i, k ensures !MarkedAt(a + b, i, k) {
      assert !MarkedAt(a, i, k) && !MarkedAt(b, i - |a|, k);
    }
  }

  lemma {:induction false} BlocksAreUnmarked(parts: seq<Part>)
    ensures forall k :: 0 <= k < |BlocksOf(parts)| ==> !BlocksOf(parts)[k].cached
  {
    if parts != [] {
      BlocksAreUnmarked(parts[..|parts| - 1]);
      assert BlocksOf(parts) == BlocksOf(parts[..|parts| - 1]) + BlockOf(parts[|parts| - 1]);
    }
  }

  /** Before marking, no message carries a marker, whatever the input was. */
  lemma {:induction false} ConvertedIsUnmarked(items: seq<InputItem>)
    ensures Unmarked(MessagesOf(items))
  {
    if items != [] {
      var last := items[|items| - 1];
      ConvertedIsUnmarked(items[..|items| - 1]);
      match last {
        case MessageItem(_, parts, _) => BlocksAreUnmarked(parts);
        case ToolOutputItem(callId, output, images) =>
          ImagesAreUnmarked(images);
          UnmarkedTogether([Message("tool", Plain(output), [], callId)], ImageMessages(images));
        case EmptyItem =>
      }
      UnmarkedTogether(MessagesOf(items[..|items| - 1]), MessagesOfItem(last));
    }
  }

  // From items to the wire

  lemma OrderIsKept(earlier: seq<InputItem>, later: seq<InputItem>)
    ensures MessagesOf(earlier + later) == MessagesOf(earlier) + MessagesOf(later)
  {
    FlatMapAppend(MessagesOfItem, earlier, later);
  }

  /** The index of the first message of item `j`. */
  function Place(items: seq<InputItem>, j: nat): nat
    requires j <= |items|
  {
    |MessagesOf(items[..j])|
  }

  lemma MessagesOfOne(item: InputItem)
    ensures MessagesOf([item]) == MessagesOfItem(item)
  {
    assert [item][..0] == [] && MessagesOf([item]) == MessagesOf([]) + MessagesOfItem(item);
  }

  lemma MessagesAround(items: seq<InputItem>, j: nat)
    requires j < |items|
    ensures MessagesOf(items) == MessagesOf(items[..j]) + MessagesOfItem(items[j]) + MessagesOf(items[j + 1..])
  {
    assert items == (items[..j] + [items[j]]) + items[j + 1..];
    OrderIsKept(items[..j] + [items[j]], items[j + 1..]);
    OrderIsKept(items[..j], [items[j]]);
    MessagesOfOne(items[j]);
  }

  /** The images that have a URL. */
  function Shown(urls: seq<string>): seq<string> {
    FlatMap((url: string) => if url == "" then [] else [url], urls)
  }

  lemma {:induction false} ImagesInOrder(urls: seq<string>)
    ensures |ImageMessages(urls)| == |Shown(urls)|
    ensures forall n :: 0 <= n < |Shown(urls)| ==> ImageMessages(urls)[n] == ImageMessage(Shown(urls)[n])
  {
    if urls != [] { ImagesInOrder(urls[..|urls| - 1]); }
  }

  /** A tool output is sent where its item stands, with its images directly after it, in order. */
  lemma ToolImagesFollowTheirItem(items: seq<InputItem>, j: nat)
    requires j < |items| && items[j].ToolOutputItem?
    ensures var wire := MessagesOf(items); var p := Place(items, j); var shown := Shown(items[j].images);
      && p + 1 + |shown| == Place(items, j + 1) <= |wire|
      && wire[p] == Message("tool", Plain(items[j].output), [], items[j].callId)
      && forall n :: 0 <= n < |shown| ==> wire[p + 1 + n] == ImageMessage(shown[n])
  {
    MessagesAround(items, j);
    ImagesInOrder(items[j].images);
    assert items[..j + 1] == items[..j] + [items[j]];
    OrderIsKept(items[..j], [items[j]]);
    MessagesOfOne(items[j]);
  }

  predicate IsSystem(item: InputItem) { item.MessageItem? && item.role == System }

  predicate IsFirstSystemItem(items: seq<InputItem>, j: int) {
    0 <= j < |items| && IsSystem(items[j]) && forall h :: 0 <= h < j ==> !IsSystem(items[h])
  }

  predicate NoSystem(messages: seq<Message>) { forall i :: 0 <= i < |messages| ==> messages[i].role != "system" }

  lemma RolesOfItem(item: InputItem)
    requires !IsSystem(item)
    ensures NoSystem(MessagesOfItem(item))
  {
    if item.ToolOutputItem? { ImagesInOrder(item.images); }
  }

  lemma {:induction false} NoSystemItems(items: seq<InputItem>)
    requires forall h :: 0 <= h < |items| ==> !IsSystem(items[h])
    ensures NoSystem(MessagesOf(items))
  {
    if items != [] {
      NoSystemItems(items[..|items| - 1]);
      RolesOfItem(items[|items| - 1]);
    }
  }

  /** The first system message is that of the first system item. */
  lemma FirstSystemPlace(items: seq<InputItem>, j: nat)
    requires IsFirstSystemItem(items, j)
    ensures Place(items, j) < |MessagesOf(items)| && MessagesOf(items)[Place(items, j)] == Converted(items[j])
    ensures forall i :: IsFirstSystem(MessagesOf(items), i) <==> i == Place(items, j)
  {
    MessagesAround(items, j);
    NoSystemItems(items[..j]);
    assert IsFirstSystem(MessagesOf(items), Place(items, j));
  }

  lemma {:induction false} FirstSystemItem(items: seq<InputItem>, h: nat) returns (j: nat)
    requires h < |items| && IsSystem(items[h])
    ensures IsFirstSystemItem(items, j)
    decreases h
  {
    if g :| 0 <= g < h && IsSystem(items[g]) {
      j := FirstSystemItem(items, g);
    } else {
      j := h;
    }
  }

  /** The wire messages of an eligible request, from its items alone: one marker, on the last
      non-blank text of the first system item, when there is such a text; and apart from markers
      and lone text blocks, the messages of a request that is not eligible. */
  lemma EligibleRequestIsMarked(items: seq<InputItem>, i: int, k: int)
    ensures MarkedAt(Marked(MessagesOf(items)), i, k) <==>
            exists j :: IsFirstSystemItem(items, j) && i == Place(items, j) &&
                IsLastText(Converted(items[j]).content, k)
    ensures AllFlattened(Marked(MessagesOf(items))) == AllFlattened(MessagesOf(items))
  {
    var plain := MessagesOf(items);
    ConvertedIsUnmarked(items);
    MarkerPlace(plain, i, k);
    MarkingKeepsMeaning(plain);
    if h :| 0 <= h < |items| && IsSystem(items[h]) {
      var j := FirstSystemItem(items, h);
      FirstSystemPlace(items, j);
      assert forall g :: IsFirstSystemItem(items, g) ==> g == j;
    } else {
      NoSystemItems(items);
    }
  }
}
