/** Streamed text: the SSE loop of the OpenAI provider (`GenerateStream`,
    internal/infra/openai/provider.go) under the event numbering of `generateText`
    (internal/service/modelhub/service.go). */
module TextStream {
  import opened Options
  import opened Delivery

  const UINT32 := 0x1_0000_0000
  const INT32 := 0x8000_0000

  /** One tool-call fragment; `index` is absent when the provider sent none. */
  datatype ToolDelta = ToolDelta(index: Option<int>, id: string, name: string, arguments: string)

  datatype Usage = Usage(input: int, output: int)

  datatype Choice = Choice(content: string, tools: seq<ToolDelta>, finishReason: string)

  datatype Chunk = Chunk(id: string, choices: seq<Choice>, usage: Option<Usage>)

  /** A line of the response body: a decoded chunk, `data: [DONE]`, a data line that is not a
      valid chunk, or a line without the data prefix. */
  datatype Line = Data(chunk: Chunk) | DoneMarker | Invalid | NoData

  datatype Item = Text(text: string) | Tool(call: ToolDelta)

  datatype Meta = Meta(responseId: string, finishReason: string, usage: Option<Usage>)

  const NO_META := Meta("", "", None)

  datatype Event = Event(sequence: nat, final: bool, items: seq<Item>, meta: Meta)

  datatype Result = Success | SendFailed | ContextEnded | InvalidChunk | ReadFailed

  // What a body means

  /** `int32(*tc.Index)`. */
  function ToInt32(x: int): int { (x + INT32) % UINT32 - INT32 }

  function Fragment(delta: ToolDelta): Item {
    Tool(delta.(index := if delta.index.Some? then Some(ToInt32(delta.index.value)) else None))
  }

  function Fragments(tools: seq<ToolDelta>): (r: seq<Item>)
    ensures |r| == |tools| && forall i :: 0 <= i < |r| ==> r[i] == Fragment(tools[i])
  {
    seq(|tools|, i requires 0 <= i < |tools| => Fragment(tools[i]))
  }

  /** A choice's text, when there is any, and then its tool fragments. */
  function ItemsOfChoice(choice: Choice): seq<Item> {
    (if choice.content != "" then [Text(choice.content)] else []) + Fragments(choice.tools)
  }

  /** What one line adds to the output: its first choice. */
  function ItemsOfLine(line: Line): seq<Item> {
    if line.Data? && line.chunk.choices != [] then ItemsOfChoice(line.chunk.choices[0]) else []
  }

  function MetaAfter(meta: Meta, line: Line): Meta {
    if !line.Data? then meta else
    var chunk := line.chunk;
    Meta(if chunk.id != "" then chunk.id else meta.responseId,
         if chunk.choices != [] && chunk.choices[0].finishReason != "" then chunk.choices[0].finishReason
             else meta.finishReason,
         if chunk.usage.Some? then chunk.usage else meta.usage)
  }

  function ItemsOf(lines: seq<Line>): seq<Item> {
    if lines == [] then [] else ItemsOf(lines[..|lines| - 1]) + ItemsOfLine(lines[|lines| - 1])
  }

  function MetaOf(lines: seq<Line>): Meta {
    if lines == [] then NO_META else MetaAfter(MetaOf(lines[..|lines| - 1]), lines[|lines| - 1])
  }

  /** A body, the line before which the context is found ended (if any), and whether the
      scanner reports an error afterwards. */
  datatype Body = Body(lines: seq<Line>, endsBefore: Option<nat>, readError: bool)

  predicate StopsAt(body: Body, i: nat)
    requires i <= |body.lines|
  {
    i == |body.lines| || body.endsBefore == Some(i) || body.lines[i] == DoneMarker || body.lines[i] == Invalid
  }

  /** The first line at which the loop stops, from line `i` on. */
  function StopFrom(body: Body, i: nat): (k: nat)
    requires i <= |body.lines|
    ensures i <= k <= |body.lines| && StopsAt(body, k)
    ensures forall j :: i <= j < k ==> !StopsAt(body, j)
    decreases |body.lines| - i
  {
    if StopsAt(body, i) then i else StopFrom(body, i + 1)
  }

  /** The lines whose output is delivered. */
  function Consumed(body: Body): seq<Line> { body.lines[..StopFrom(body, 0)] }

  /** How the loop ends when every send succeeds. */
  function LoopResult(body: Body): Result {
    var k := StopFrom(body, 0);
    if k < |body.lines| && body.endsBefore == Some(k) then ContextEnded
    else if k < |body.lines| && body.lines[k] == Invalid then InvalidChunk
    else if body.readError then ReadFailed
    else Success
  }

  function Numbered(items: seq<Item>): (r: seq<Event>)
    ensures |r| == |items|
    ensures forall i :: 0 <= i < |r| ==> r[i] == Event(i % UINT32, false, [items[i]], NO_META)
  {
    seq(|items|, i requires 0 <= i < |items| => Event(i % UINT32, false, [items[i]], NO_META))
  }

  function FinalEvent(body: Body): Event {
    Event(|ItemsOf(Consumed(body))| % UINT32, true, [], MetaOf(Consumed(body)))
  }

  /** What the caller's stream is offered. */
  function Offers(body: Body): seq<Event> {
    Numbered(ItemsOf(Consumed(body))) + (if LoopResult(body) == Success then [FinalEvent(body)] else [])
  }

  /** The result of the whole call, given what the stream answered. */
  function Verdict(body: Body, log: seq<Attempt<Event>>): Result {
    if Refused(log) then SendFailed else LoopResult(body)
  }

  // The code

  /** The state of the `emit` closure: it numbers events and remembers a failed send. */
  class Emitter {
    const stream: Receiver<Event>
    var sequence: nat
    var failed: bool

    constructor (stream: Receiver<Event>)
      ensures this.stream == stream && sequence == 0 && !failed
    {
      this.stream, sequence, failed := stream, 0, false;
    }

    /** Every item so far went out, in order and numbered. */
    ghost predicate Sent(before: seq<Attempt<Event>>, items: seq<Item>)
      reads this, stream
    {
      !failed && sequence == |items| % UINT32 && stream.log == before + AllTaken(Numbered(items))
    }

    /** The send of the last of these items was refused, and it was the last send. */
    ghost predicate Broke(before: seq<Attempt<Event>>, items: seq<Item>)
      reads this, stream
    {
      failed && items != [] && stream.log == before + LastRefused(Numbered(items))
    }

    method Emit(item: Item, ghost before: seq<Attempt<Event>>, ghost items: seq<Item>) returns (ok: bool)
      requires Sent(before, items)
      modifies this, stream
      ensures if ok then Sent(before, items + [item]) else Broke(before, items + [item])
    {
      var event := Event(sequence, false, [item], NO_META);
      sequence := (sequence + 1) % UINT32;
      ok := stream.Take(event);
      failed := !ok;
      OneMoreNumbered(items, item);
    }
  }

  lemma OneMoreNumbered(items: seq<Item>, item: Item)
    ensures var event := Event(|items| % UINT32, false, [item], NO_META);
      && AllTaken(Numbered(items + [item])) == AllTaken(Numbered(items)) + [Attempt(event, true)]
      && LastRefused(Numbered(items + [item])) == AllTaken(Numbered(items)) + [Attempt(event, false)]
  {
    var event := Event(|items| % UINT32, false, [item], NO_META);
    assert Numbered(items + [item]) == Numbered(items) + [event];
    assert Numbered(items + [item])[..|items|] == Numbered(items);
  }

  lemma OneMoreLine(lines: seq<Line>, i: nat)
    requires i < |lines|
    ensures ItemsOf(lines[..i + 1]) == ItemsOf(lines[..i]) + ItemsOfLine(lines[i])
    ensures MetaOf(lines[..i + 1]) == MetaAfter(MetaOf(lines[..i]), lines[i])
  {
    assert lines[..i + 1][..i] == lines[..i];
  }

  lemma OneMoreFragment(items: seq<Item>, tools: seq<ToolDelta>, j: nat)
    requires j < |tools|
    ensures var all := items + Fragments(tools);
            all[..|items| + j] + [Fragment(tools[j])] == all[..|items| + j + 1]
  {
  }

  /** The loop over the tool fragments of a chunk; `k` items were tried in all. */
  method EmitTools(tools: seq<ToolDelta>, emitter: Emitter, ghost before: seq<Attempt<Event>>, ghost items: seq<Item>)
    returns (ok: bool, ghost k: nat)
    requires emitter.Sent(before, items)
    modifies emitter, emitter.stream
    ensures var all := items + Fragments(tools);
      if ok then emitter.Sent(before, all) else |items| < k <= |all| && emitter.Broke(before, all[..k])
  {
    ghost var all := items + Fragments(tools);
    assert all[..|items|] == items && all[..|all|] == all;
    ok := true;
    for j := 0 to |tools|
      invariant ok && emitter.Sent(before, all[..|items| + j])
    {
      k := |items| + j + 1;
      OneMoreFragment(items, tools, j);
      ok := emitter.Emit(Fragment(tools[j]), before, all[..|items| + j]);
      if !ok { return; }
    }
    k := |all|;
  }

  /** Emits what one chunk with choices contains. */
  method EmitChunk(choice: Choice, emitter: Emitter, ghost before: seq<Attempt<Event>>, ghost items: seq<Item>)
    returns (ok: bool, ghost k: nat)
    requires emitter.Sent(before, items)
    modifies emitter, emitter.stream
    ensures var all := items + ItemsOfChoice(choice);
      if ok then emitter.Sent(before, all) else |items| < k <= |all| && emitter.Broke(before, all[..k])
  {
    ghost var text := if choice.content != "" then [Text(choice.content)] else [];
    assert items + ItemsOfChoice(choice) == (items + text) + Fragments(choice.tools);
    if choice.content != "" {
      ok := emitter.Emit(Text(choice.content), before, items);
      k := |items| + 1;
      if !ok {
        assert (items + ItemsOfChoice(choice))[..k] == items + [Text(choice.content)];
        return;
      }
    } else {
      assert items + text == items;
    }
    ok, k := EmitTools(choice.tools, emitter, before, items + text);
  }

  /** One line of the loop that is neither `[DONE]` nor invalid. */
  method TakeLine(line: Line, meta: Meta, emitter: Emitter, ghost before: seq<Attempt<Event>>, ghost items: seq<Item>)
    returns (ok: bool, next: Meta, ghost k: nat)
    requires line.Data? || line.NoData?
    requires emitter.Sent(before, items)
    modifies emitter, emitter.stream
    ensures var all := items + ItemsOfLine(line);
      if ok then emitter.Sent(before, all) && next == MetaAfter(meta, line)
      else |items| < k <= |all| && emitter.Broke(before, all[..k])
  {
    ok, next, k := true, meta, |items|;
    assert items + [] == items;
    if line.NoData? { return; }
    var chunk := line.chunk;
    if chunk.id != "" { next := next.(responseId := chunk.id); }
    if chunk.choices == [] {
      if chunk.usage.Some? { next := next.(usage := chunk.usage); }
      return;
    }
    ok, k := EmitChunk(chunk.choices[0], emitter, before, items);
    if !ok { return; }
    if chunk.choices[0].finishReason != "" { next := next.(finishReason := chunk.choices[0].finishReason); }
    if chunk.usage.Some? { next := next.(usage := chunk.usage); }
  }

  datatype StreamEnd = Final(meta: Meta) | Broken(error: Result)

  /** The loop over the lines, up to the line at which it stops or a refused send. */
  method EmitLines(body: Body, emitter: Emitter, ghost before: seq<Attempt<Event>>)
    returns (ok: bool, i: nat, meta: Meta, ghost k: nat)
    requires emitter.Sent(before, [])
    modifies emitter, emitter.stream
    ensures var all := ItemsOf(Consumed(body));
      if ok then i == StopFrom(body, 0) && emitter.Sent(before, all) && meta == MetaOf(Consumed(body))
      else 0 < k <= |all| && emitter.Broke(before, all[..k])
  {
    meta, i, ok, k := NO_META, 0, true, 0;
    while i < |body.lines|
      invariant 0 <= i <= |body.lines| && StopFrom(body, i) == StopFrom(body, 0)
      invariant emitter.Sent(before, ItemsOf(body.lines[..i]))
      invariant meta == MetaOf(body.lines[..i])
    {
      if body.endsBefore == Some(i) { break; }
      var line := body.lines[i];
      if line == DoneMarker || line == Invalid { break; }
      OneMoreLine(body.lines, i);
      ok, meta, k := TakeLine(line, meta, emitter, before, ItemsOf(body.lines[..i]));
      i := i + 1;
      if !ok {
        PrefixOfConsumed(body, i, k);
        return;
      }
    }
    assert i == StopFrom(body, 0);
  }

  method GenerateStream(body: Body, emitter: Emitter, ghost before: seq<Attempt<Event>>)
    returns (r: StreamEnd, ghost k: nat)
    requires emitter.Sent(before, [])
    modifies emitter, emitter.stream
    ensures var all := ItemsOf(Consumed(body));
      if emitter.failed then 0 < k <= |all| && emitter.Broke(before, all[..k])
      else && emitter.Sent(before, all)
           && r == if LoopResult(body) == Success then Final(MetaOf(Consumed(body))) else Broken(LoopResult(body))
  {
    var ok, i, meta;
    ok, i, meta, k := EmitLines(body, emitter, before);
    if !ok { return Broken(SendFailed), k; }
    if i < |body.lines| && body.endsBefore == Some(i) { return Broken(ContextEnded), k; }
    if i < |body.lines| && body.lines[i] == Invalid { return Broken(InvalidChunk), k; }
    if body.readError { return Broken(ReadFailed), k; }
    return Final(meta), k;
  }

  /** The output of the lines read so far is a prefix of the output of all consumed lines. */
  lemma {:induction false} PrefixOfConsumed(body: Body, i: nat, n: nat)
    requires i <= StopFrom(body, 0) && n <= |ItemsOf(body.lines[..i])|
    ensures n <= |ItemsOf(Consumed(body))| && ItemsOf(Consumed(body))[..n] == ItemsOf(body.lines[..i])[..n]
    ensures |ItemsOf(body.lines[..i])| <= |ItemsOf(Consumed(body))|
    decreases StopFrom(body, 0) - i
  {
    if i < StopFrom(body, 0) {
      OneMoreLine(body.lines, i);
      PrefixOfConsumed(body, i + 1, n);
    }
  }

  /** A refused send of an item ends the calls. */
  lemma BrokenIsServed(body: Body, k: nat)
    requires 0 < k <= |ItemsOf(Consumed(body))|
    ensures var log := LastRefused(Numbered(ItemsOf(Consumed(body))[..k]));
            Served(Offers(body), log) && Refused(log)
  {
  }

  lemma BrokenLoopIsServed(body: Body)
    requires LoopResult(body) != Success
    ensures var sent := AllTaken(Numbered(ItemsOf(Consumed(body))));
            Served(Offers(body), sent) && !Refused(sent)
  {
  }

  lemma FinalIsServed(body: Body, ok: bool)
    requires LoopResult(body) == Success
    ensures var log := AllTaken(Numbered(ItemsOf(Consumed(body)))) + [Attempt(FinalEvent(body), ok)];
            Served(Offers(body), log) && (Refused(log) <==> !ok)
  {
  }

  method GenerateText(body: Body, stream: Receiver<Event>) returns (r: Result)
    modifies stream
    ensures |old(stream.log)| <= |stream.log| && stream.log[..|old(stream.log)|] == old(stream.log)
    ensures var log := stream.log[|old(stream.log)|..];
            r == Verdict(body, log) && Served(Offers(body), log)
  {
    ghost var log;
    r, log := SendAll(body, stream);
    LaterCalls(old(stream.log), log);
  }

  /** All sends of a call, `log`. */
  method SendAll(body: Body, stream: Receiver<Event>) returns (r: Result, ghost log: seq<Attempt<Event>>)
    modifies stream
    ensures stream.log == old(stream.log) + log
    ensures r == Verdict(body, log) && Served(Offers(body), log)
  {
    ghost var before := stream.log;
    var emitter := new Emitter(stream);
    assert AllTaken(Numbered([])) == [];
    var end, k := GenerateStream(body, emitter, before);
    if emitter.failed {
      BrokenIsServed(body, k);
      return SendFailed, LastRefused(Numbered(ItemsOf(Consumed(body))[..k]));
    }
    log := AllTaken(Numbered(ItemsOf(Consumed(body))));
    match end {
      case Broken(error) =>
        BrokenLoopIsServed(body);
        return error, log;
      case Final(meta) =>
        var ok := stream.Take(Event(emitter.sequence, true, [], meta));
        FinalIsServed(body, ok);
        log := log + [Attempt(FinalEvent(body), ok)];
        return if ok then Success else SendFailed, log;
    }
  }
}
