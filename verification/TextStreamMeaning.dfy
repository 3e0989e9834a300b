/** What the contract of TextStream.GenerateText means for the caller of the stream. */
module TextStreamMeaning {
  import opened Options
  import opened Delivery
  import opened TextStream

  /** Text and tool fragments, whatever events carry them. */
  datatype Output = Output(text: string, tools: seq<ToolDelta>)
  {
    function Plus(more: Output): Output { Output(text + more.text, tools + more.tools) }
  }

  /** What a caller accumulates from a list of events. */
  function OutputOf(events: seq<Event>): Output {
    if events == [] then Output("", []) else
      OutputOf(events[..|events| - 1]).Plus(OutputOfItems(events[|events| - 1].items))
  }

  function OutputOfItems(items: seq<Item>): Output {
    if items == [] then Output("", []) else
      OutputOfItems(items[..|items| - 1]).Plus(OutputOfItem(items[|items| - 1]))
  }

  function OutputOfItem(item: Item): Output {
    match item
    case Text(text) => Output(text, [])
    case Tool(call) => Output("", [call])
  }

  /** What the provider sent: text and tool fragments of the first choice of every chunk. */
  function OutputSent(lines: seq<Line>): Output {
    if lines == [] then Output("", []) else
      OutputSent(lines[..|lines| - 1]).Plus(OutputOfLine(lines[|lines| - 1]))
  }

  function OutputOfLine(line: Line): Output {
    if line.Data? && line.chunk.choices != []
    then Output(line.chunk.choices[0].content, line.chunk.choices[0].tools)
    else Output("", [])
  }

  ghost predicate AllFit(tools: seq<ToolDelta>) {
    forall i :: 0 <= i < |tools| && tools[i].index.Some? ==> -INT32 <= tools[i].index.value < INT32
  }

  /** Every tool index of a body fits in 32 bits. */
  ghost predicate IndicesFit(lines: seq<Line>) {
    forall line :: line in lines && line.Data? && line.chunk.choices != [] ==> AllFit(line.chunk.choices[0].tools)
  }

  lemma OneMoreItem(items: seq<Item>, item: Item)
    ensures OutputOfItems(items + [item]) == OutputOfItems(items).Plus(OutputOfItem(item))
  {
    assert (items + [item])[..|items|] == items;
  }

  lemma {:induction false} ItemsAppend(a: seq<Item>, b: seq<Item>)
    ensures OutputOfItems(a + b) == OutputOfItems(a).Plus(OutputOfItems(b))
  {
    if b == [] {
      assert a + b == a;
    } else {
      assert (a + b)[..|a + b| - 1] == a + b[..|b| - 1];
      ItemsAppend(a, b[..|b| - 1]);
    }
  }

  lemma {:induction false} NumberedCarriesItems(items: seq<Item>)
    ensures OutputOf(Numbered(items)) == OutputOfItems(items)
  {
    if items != [] {
      var n := |items| - 1;
      assert Numbered(items)[..n] == Numbered(items[..n]);
      NumberedCarriesItems(items[..n]);
      OneMoreItem([], items[n]);
      assert [] + [items[n]] == [items[n]];
    }
  }

  lemma {:induction false} FragmentsCarryTools(tools: seq<ToolDelta>)
    requires AllFit(tools)
    ensures OutputOfItems(Fragments(tools)) == Output("", tools)
  {
    if tools == [] {
      assert Fragments(tools) == [];
    } else {
      var n := |tools| - 1;
      var front, last := tools[..n], tools[n];
      FragmentsCarryTools(front);
      FragmentIsVerbatim(last);
      OneMoreItem(Fragments(front), Tool(last));
      assert Fragments(tools) == Fragments(front) + [Tool(last)];
      assert tools == front + [last];
    }
  }

  /** A fragment goes out unchanged exactly when its index, if it has one, fits in 32 bits. */
  lemma FragmentIsVerbatim(delta: ToolDelta)
    ensures Fragment(delta) == Tool(delta) <==> (delta.index.Some? ==> -INT32 <= delta.index.value < INT32)
  {
  }

  lemma LineCarriesOutput(line: Line)
    requires IndicesFit([line])
    ensures OutputOfItems(ItemsOfLine(line)) == OutputOfLine(line)
  {
    if line.Data? && line.chunk.choices != [] {
      var choice := line.chunk.choices[0];
      assert line in [line];
      assert forall i :: 0 <= i < |choice.tools| ==> choice.tools[i] in choice.tools;
      ChoiceCarriesOutput(choice);
    }
  }

  lemma ChoiceCarriesOutput(choice: Choice)
    requires AllFit(choice.tools)
    ensures OutputOfItems(ItemsOfChoice(choice)) == Output(choice.content, choice.tools)
  {
    FragmentsCarryTools(choice.tools);
    OneMoreItem([], Text(choice.content));
    assert [] + [Text(choice.content)] == [Text(choice.content)];
    ItemsAppend(if choice.content != "" then [Text(choice.content)] else [], Fragments(choice.tools));
  }

  lemma {:induction false} ItemsCarryOutput(lines: seq<Line>)
    requires IndicesFit(lines)
    ensures OutputOfItems(ItemsOf(lines)) == OutputSent(lines)
  {
    if lines != [] {
      var n := |lines| - 1;
      ItemsCarryOutput(lines[..n]);
      ItemsAppend(ItemsOf(lines[..n]), ItemsOfLine(lines[n]));
      LineCarriesOutput(lines[n]);
    }
  }

  /** The events carry `lines`: the non-final ones are numbered from 0, their text and tool
      fragments add up to those of the lines, and one final event follows with the next number
      and the collected metadata. */
  ghost predicate Carry(events: seq<Event>, lines: seq<Line>) {
    var n := |events| - 1;
    && n >= 0 && OutputOf(events[..n]) == OutputSent(lines)
    && (forall i :: 0 <= i <= n ==> events[i].sequence == i % UINT32 && (events[i].final <==> i == n))
    && events[n].meta == MetaOf(lines) && events[n].items == []
  }

  lemma ShapeOfOffers(items: seq<Item>, final: Event)
    requires final.final && final.sequence == |items| % UINT32
    ensures var events := Numbered(items) + [final];
      && events[..|items|] == Numbered(items) && events[|items|] == final
      && forall i :: 0 <= i <= |items| ==> events[i].sequence == i % UINT32 && (events[i].final <==> i == |items|)
  {
  }

  lemma OffersCarryAll(body: Body)
    requires LoopResult(body) == Success && IndicesFit(Consumed(body))
    ensures Carry(Offers(body), Consumed(body))
  {
    var items := ItemsOf(Consumed(body));
    NumberedCarriesItems(items);
    ItemsCarryOutput(Consumed(body));
    ShapeOfOffers(items, FinalEvent(body));
  }

  /** A successful call delivers exactly what the provider sent, and every send was accepted. */
  lemma {:induction false} SuccessDeliversEverything(body: Body, log: seq<Attempt<Event>>)
    requires Served(Offers(body), log) && Verdict(body, log) == Success && IndicesFit(Consumed(body))
    ensures log == AllTaken(Accepted(log)) && Carry(Accepted(log), Consumed(body))
  {
    UnrefusedTakesAll(Offers(body), log);
    OffersCarryAll(body);
  }

  lemma {:induction false} FailureAccepts(body: Body, log: seq<Attempt<Event>>)
    requires Served(Offers(body), log) && Verdict(body, log) != Success
    ensures var got := Accepted(log); var items := ItemsOf(Consumed(body));
      |got| <= |items| && got == Numbered(items[..|got|]) && (!Refused(log) ==> |got| == |items|)
  {
    AcceptedIsPrefix(Offers(body), log);
    var items := ItemsOf(Consumed(body));
    assert items[..|items|] == items;
  }

  /** On any error no final event is accepted, and what was accepted is a numbered prefix of the
      output: all of it unless a send was refused. Only the last send can have been refused. */
  lemma {:induction false} FailureDeliversAPrefix(body: Body, log: seq<Attempt<Event>>)
    requires Served(Offers(body), log) && Verdict(body, log) != Success
    ensures var got := Accepted(log); var items := ItemsOf(Consumed(body));
      && |got| <= |items| && got == Numbered(items[..|got|])
      && (forall i :: 0 <= i < |got| ==> !got[i].final)
      && (Verdict(body, log) != SendFailed ==> |got| == |items|)
    ensures |log| == |Accepted(log)| + (if Refused(log) then 1 else 0)
    ensures forall i :: 0 <= i < |log| && !log[i].accepted ==> i == |log| - 1
  {
    FailureAccepts(body, log);
    OnlyTheLastIsRefused(Offers(body), log);
  }

  lemma NumberOfOffer(body: Body, i: nat)
    requires i < |Offers(body)|
    ensures Offers(body)[i].sequence == i % UINT32
  {
    var items := ItemsOf(Consumed(body));
    if i < |items| { assert Offers(body)[i] == Numbered(items)[i]; }
  }

  /** The numbers are 0, 1, 2, ... without a repeat exactly up to 2^32 sends. */
  lemma {:induction false} NumbersAreExactBelowWrap(body: Body, log: seq<Attempt<Event>>)
    requires Served(Offers(body), log)
    ensures (forall i :: 0 <= i < |log| ==> log[i].event.sequence == i) <==> |log| <= UINT32
  {
    if |log| > UINT32 {
      NumberOfOffer(body, UINT32);
    } else {
      forall i | 0 <= i < |log| ensures log[i].event.sequence == i { NumberOfOffer(body, i); }
    }
  }

  function IdOf(line: Line): string { if line.Data? then line.chunk.id else "" }

  function UsageOf(line: Line): Option<Usage> { if line.Data? then line.chunk.usage else None }

  function FinishOf(line: Line): string {
    if line.Data? && line.chunk.choices != [] then line.chunk.choices[0].finishReason else ""
  }

  /** `value` is the last of a body's values that is not `empty`, or `empty` when all are. */
  ghost predicate IsLastSent<T(!new)>(lines: seq<Line>, field: Line -> T, empty: T, value: T) {
    if value == empty then forall i :: 0 <= i < |lines| ==> field(lines[i]) == empty
    else exists i :: 0 <= i < |lines| && field(lines[i]) == value && forall j :: i < j < |lines| ==>
        field(lines[j]) == empty
  }

  lemma LastSentNext<T(!new)>(lines: seq<Line>, line: Line, field: Line -> T, empty: T, value: T)
    requires IsLastSent(lines, field, empty, value)
    ensures IsLastSent(lines + [line], field, empty, if field(line) != empty then field(line) else value)
  {
    var longer := lines + [line];
    if field(line) != empty {
      assert field(longer[|lines|]) == field(line);
    } else if value != empty {
      var i :| 0 <= i < |lines| && field(lines[i]) == value && forall j :: i < j < |lines| ==> field(lines[j]) == empty;
      assert field(longer[i]) == value;
    }
  }

  /** The metadata of a body: each field is the last value sent that was not empty. */
  lemma {:induction false} MetaIsLastSent(lines: seq<Line>)
    ensures IsLastSent(lines, IdOf, "", MetaOf(lines).responseId)
    ensures IsLastSent(lines, FinishOf, "", MetaOf(lines).finishReason)
    ensures IsLastSent(lines, UsageOf, None, MetaOf(lines).usage)
  {
    if lines != [] {
      var front, last := lines[..|lines| - 1], lines[|lines| - 1];
      MetaIsLastSent(front);
      LastSentNext(front, last, IdOf, "", MetaOf(front).responseId);
      LastSentNext(front, last, FinishOf, "", MetaOf(front).finishReason);
      LastSentNext(front, last, UsageOf, None, MetaOf(front).usage);
      assert front + [last] == lines;
    }
  }

  /** None of the first `n` lines says `[DONE]` or is invalid, and the context has not ended
      before any of them. */
  ghost predicate Passes(body: Body, n: nat) {
    && n <= |body.lines|
    && (forall j :: 0 <= j < n ==> body.lines[j] != DoneMarker && body.lines[j] != Invalid)
    && (forall j :: 0 <= j < n ==> body.endsBefore != Some(j))
  }

  /** The context is found ended before line `n`, the first thing that is wrong. */
  ghost predicate EndedBefore(body: Body, n: nat) {
    Passes(body, n) && n < |body.lines| && body.endsBefore == Some(n)
  }

  /** Line `n` is the first that stops the loop. */
  ghost predicate StopsOn(body: Body, n: nat, line: Line) {
    Passes(body, n) && n < |body.lines| && body.endsBefore != Some(n) && body.lines[n] == line
  }

  /** Every line before the first `[DONE]`, or every line when there is none, is good. */
  ghost predicate ReadThrough(body: Body) {
    Passes(body, |body.lines|) || exists n :: StopsOn(body, n, DoneMarker)
  }

  ghost predicate SendRefused(log: seq<Attempt<Event>>) { exists i :: 0 <= i < |log| && !log[i].accepted }

  /** The reasons for each result. */
  ghost predicate Explains(body: Body, log: seq<Attempt<Event>>, r: Result) {
    match r
    case SendFailed => SendRefused(log)
    case ContextEnded => !SendRefused(log) && exists n :: EndedBefore(body, n)
    case InvalidChunk => !SendRefused(log) && exists n :: StopsOn(body, n, Invalid)
    case ReadFailed => !SendRefused(log) && ReadThrough(body) && body.readError
    case Success => !SendRefused(log) && ReadThrough(body) && !body.readError
  }

  lemma {:induction false} StopIsWherePassingEnds(body: Body, n: nat, i: nat)
    requires i <= n && Passes(body, n) && StopsAt(body, n)
    ensures StopFrom(body, i) == n
    decreases n - i
  {
    if i < n { StopIsWherePassingEnds(body, n, i + 1); }
  }

  lemma StopPasses(body: Body)
    ensures Passes(body, StopFrom(body, 0)) && StopsAt(body, StopFrom(body, 0))
  {
    forall j | 0 <= j < StopFrom(body, 0)
      ensures body.lines[j] != DoneMarker && body.lines[j] != Invalid && body.endsBefore != Some(j)
    {
      assert !StopsAt(body, j);
    }
  }

  /** The lines whose output is delivered are those before the stop. */
  lemma ConsumedExactly(body: Body, n: nat)
    requires Passes(body, n) && StopsAt(body, n)
    ensures Consumed(body) == body.lines[..n]
  {
    StopIsWherePassingEnds(body, n, 0);
  }

  lemma LoopResultIsExplained(body: Body, log: seq<Attempt<Event>>)
    requires !SendRefused(log)
    ensures Explains(body, log, LoopResult(body))
  {
    StopPasses(body);
    var k := StopFrom(body, 0);
    if k < |body.lines| {
      if body.endsBefore == Some(k) { assert EndedBefore(body, k); } else { assert StopsOn(body, k, body.lines[k]); }
    }
  }

  lemma OneStop(body: Body, n: nat, m: nat)
    requires Passes(body, n) && StopsAt(body, n) && Passes(body, m) && StopsAt(body, m)
    ensures n == m
  {
    StopIsWherePassingEnds(body, n, 0);
    StopIsWherePassingEnds(body, m, 0);
  }

  lemma OneExplanation(body: Body, log: seq<Attempt<Event>>, a: Result, b: Result)
    requires Explains(body, log, a) && Explains(body, log, b)
    ensures a == b
  {
    forall n: nat, m: nat | Passes(body, n) && StopsAt(body, n) && Passes(body, m) && StopsAt(body, m)
      ensures n == m { OneStop(body, n, m); }
  }

  /** Every result exactly when there is the reason for it: a call succeeds if and only if no
      invalid line and no ended context come before the first `[DONE]`, or before the end when
      there is none, the scanner reports no error and the caller accepts every send. */
  lemma {:induction false} ResultExactlyWhen(body: Body, log: seq<Attempt<Event>>, r: Result)
    requires Served(Offers(body), log)
    ensures Verdict(body, log) == r <==> Explains(body, log, r)
  {
    var v := Verdict(body, log);
    OnlyTheLastIsRefused(Offers(body), log);
    assert SendRefused(log) <==> Refused(log);
    if v != SendFailed { LoopResultIsExplained(body, log); }
    LoopNeverSaysSendFailed(body);
    assert Explains(body, log, v);
    if Explains(body, log, r) { OneExplanation(body, log, r, v); }
  }

  lemma LoopNeverSaysSendFailed(body: Body)
    ensures LoopResult(body) != SendFailed
  {
  }

  /** The context ends before one of the lines. */
  predicate Interrupted(body: Body) { body.endsBefore.Some? && body.endsBefore.value < |body.lines| }

  /** Success does not mean that the provider said `[DONE]`. A body without that marker succeeds
      exactly when every line is valid, the context does not end before a line, the scanner
      reports no error and the caller accepts every send. */
  lemma {:induction false} UnmarkedBodySucceedsExactlyWhen(body: Body, log: seq<Attempt<Event>>)
    requires DoneMarker !in body.lines && Served(Offers(body), log)
    ensures Verdict(body, log) == Success <==>
              && Invalid !in body.lines && !Interrupted(body) && !body.readError
              && forall i :: 0 <= i < |log| ==> log[i].accepted
  {
    ResultExactlyWhen(body, log, Success);
    assert forall n: nat :: n < |body.lines| ==> body.lines[n] in body.lines;
  }

  lemma {:induction false} OneChunkIsConsumed(text: string, body: Body, log: seq<Attempt<Event>>)
    requires text != "" && Consumed(body) == [Data(Chunk("", [Choice(text, [], "")], None))]
    requires Served(Offers(body), log) && Verdict(body, log) == Success
    ensures Accepted(log) == [Event(0, false, [Text(text)], NO_META), Event(1, true, [], NO_META)]
  {
    var line := Data(Chunk("", [Choice(text, [], "")], None));
    assert ItemsOf([line]) == ItemsOf([]) + ItemsOfLine(line) && ItemsOfLine(line) == [Text(text)] by {
      assert [line][..0] == [];
      assert Fragments([]) == [];
    }
    assert MetaOf([line]) == MetaAfter(MetaOf([]), line) by { assert [line][..0] == []; }
    UnrefusedTakesAll(Offers(body), log);
  }

  /** Such a body: one chunk of text, and the connection closes. The caller gets the text and a
      final event. */
  lemma CutAfterOneChunk(text: string) returns (body: Body, log: seq<Attempt<Event>>)
    requires text != ""
    ensures DoneMarker !in body.lines && Served(Offers(body), log) && Verdict(body, log) == Success
    ensures Accepted(log) == [Event(0, false, [Text(text)], NO_META), Event(1, true, [], NO_META)]
  {
    body := Body([Data(Chunk("", [Choice(text, [], "")], None))], None, false);
    log := AllTaken(Offers(body));
    ResultExactlyWhen(body, log, Success);
    ConsumedExactly(body, 1);
    OneChunkIsConsumed(text, body, log);
  }

  /** A properly ended body: one chunk of text, `[DONE]`, and anything after it. A caller that
      accepts every send gets the text and a final event, and the call succeeds. */
  lemma {:induction false} DoneAfterOneChunk(text: string, rest: seq<Line>, log: seq<Attempt<Event>>)
    requires text != ""
    requires var body := Body([Data(Chunk("", [Choice(text, [], "")], None)), DoneMarker] + rest, None, false);
             Served(Offers(body), log) && forall i :: 0 <= i < |log| ==> log[i].accepted
    ensures var body := Body([Data(Chunk("", [Choice(text, [], "")], None)), DoneMarker] + rest, None, false);
            Verdict(body, log) == Success
    ensures Accepted(log) == [Event(0, false, [Text(text)], NO_META), Event(1, true, [], NO_META)]
  {
    var body := Body([Data(Chunk("", [Choice(text, [], "")], None)), DoneMarker] + rest, None, false);
    assert StopsOn(body, 1, DoneMarker);
    ResultExactlyWhen(body, log, Success);
    ConsumedExactly(body, 1);
    OneChunkIsConsumed(text, body, log);
  }
}
