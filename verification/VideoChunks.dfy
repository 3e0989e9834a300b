/** `EmitVideoChunksFromReader` (internal/provider/video_emit.go): a byte stream becomes
    numbered blocks of 1 MiB, the last one marked final, with one block held back. */
module VideoChunks {
  import opened Options
  import opened Delivery

  type Bytes = seq<bv8>

  const CHUNK := 0x10_0000
  const MAX_BLOCKS := 200
  const MAX_VIDEO := 200 * CHUNK

  /** How a reader's data ends. `UnexpectedEof` is what an HTTP body reports when the
      connection is cut before the announced length. */
  datatype End = Eof | UnexpectedEof | ReadFailure

  /** The code treats both end-of-file errors as the normal end. */
  predicate Clean(end: End) { end != ReadFailure }

  datatype Event = Event(
    sequence: nat, final: bool, mimeType: string, responseId: string, elapsedMs: int, data: Bytes)

  datatype Meta = Meta(mimeType: string, responseId: string, elapsedMs: int)

  datatype Result = Success | EmptyVideo | TooLarge | ReadBroken | EmitFailed

  /** Any `io.Reader`: it delivers `rest` in pieces of any size, empty ones included, and then
      its end, together with the last piece or after it. */
  class Source {
    var rest: Bytes
    var emptyReads: nat
    const end: End

    constructor (bytes: Bytes, end: End, emptyReads: nat)
      ensures rest == bytes && this.end == end && this.emptyReads == emptyReads
    {
      this.rest, this.end, this.emptyReads := bytes, end, emptyReads;
    }

    method Read(buf: array<bv8>, from: nat) returns (n: nat, err: Option<End>)
      requires from < buf.Length
      modifies this, buf
      ensures from + n <= buf.Length && n <= |old(rest)|
      ensures buf[from..from + n] == old(rest)[..n] && rest == old(rest)[n..]
      ensures buf[..from] == old(buf[..from])
      ensures err.Some? ==> err.value == end && rest == []
      ensures err == None && n == 0 ==> emptyReads < old(emptyReads)
      ensures emptyReads <= old(emptyReads)
    {
      n := 0;
      if emptyReads > 0 {
        if * {
          emptyReads := emptyReads - 1;
          return 0, None;
        }
      }
      if rest == [] { return 0, Some(end); }
      n :| 1 <= n <= |rest| && from + n <= buf.Length;
      forall i | 0 <= i < n { buf[from + i] := rest[i]; }
      rest := rest[n..];
      err := None;
      if rest == [] {
        if * { err := Some(end); }
      }
    }
  }

  // What the blocks of a stream are

  function BlockCount(n: nat): nat { (n + CHUNK - 1) / CHUNK }

  function Block(stream: Bytes, i: nat): Bytes
    requires i * CHUNK < |stream|
  {
    if (i + 1) * CHUNK <= |stream| then stream[i * CHUNK..(i + 1) * CHUNK] else stream[i * CHUNK..]
  }

  function BlockEvent(stream: Bytes, meta: Meta, i: nat): Event
    requires i * CHUNK < |stream|
  {
    var final := |stream| <= (i + 1) * CHUNK;
    EventOf(Block(stream, i), meta, i, final)
  }

  /** `emitVideoBlock`: only the final event carries the response id and the elapsed time. */
  function EventOf(data: Bytes, meta: Meta, sequence: nat, final: bool): Event {
    Event(sequence, final, meta.mimeType, if final then meta.responseId else "", if final then meta.elapsedMs
        else 0, data)
  }

  /** The first `k` events of a stream. */
  function Events(stream: Bytes, meta: Meta, k: nat): (r: seq<Event>)
    requires k <= BlockCount(|stream|)
    ensures |r| == k
    ensures forall i :: 0 <= i < k ==> i * CHUNK < |stream| && r[i] == BlockEvent(stream, meta, i)
  {
    BlockCountCovers(|stream|);
    seq(k, i requires 0 <= i < k => BlockEvent(stream, meta, i))
  }

  lemma BlockCountCovers(n: nat)
    ensures forall i :: 0 <= i < BlockCount(n) ==> i * CHUNK < n
    ensures n <= BlockCount(n) * CHUNK < n + CHUNK
  {
  }

  // What the outcome is

  /** How many events are offered to a caller that refuses none: all of them on success;
      otherwise every block before the failing read but the one held back. */
  function Offered(n: nat, end: End): (k: nat)
    ensures k <= BlockCount(n)
  {
    if Clean(end) && 0 < n <= MAX_VIDEO then BlockCount(n)
    else if n / CHUNK == 0 then 0
    else if n / CHUNK <= MAX_BLOCKS then n / CHUNK - 1 else MAX_BLOCKS - 1
  }

  /** The result when the caller refuses nothing. */
  function Unrefused(n: nat, end: End): Result {
    if n >= MAX_VIDEO + CHUNK then TooLarge
    else if !Clean(end) then ReadBroken
    else if n == 0 then EmptyVideo
    else if n > MAX_VIDEO then TooLarge
    else Success
  }

  /** The result, given what the caller answered. */
  function Verdict(n: nat, end: End, log: seq<Attempt<Event>>): Result {
    if Refused(log) then EmitFailed else Unrefused(n, end)
  }

  /** What `emit` is offered for a stream. */
  function Offers(stream: Bytes, end: End, meta: Meta): seq<Event> {
    Events(stream, meta, Offered(|stream|, end))
  }

  /** `emit` may be nil: then nothing is delivered and nothing is refused. */
  ghost predicate Received(sink: Receiver?<Event>, before: seq<Attempt<Event>>, log: seq<Attempt<Event>>)
    reads sink
  {
    sink != null ==> sink.log == before + log
  }

  method Offer(sink: Receiver?<Event>, event: Event, ghost before: seq<Attempt<Event>>, ghost done: seq<Event>)
    returns (ok: bool)
    requires Received(sink, before, AllTaken(done))
    modifies sink
    ensures sink == null ==> ok
    ensures Received(sink, before, if ok then AllTaken(done + [event]) else LastRefused(done + [event]))
  {
    ok := true;
    if sink != null { ok := sink.Take(event); }
    assert AllTaken(done + [event]) == AllTaken(done) + [Attempt(event, true)];
    assert LastRefused(done + [event]) == AllTaken(done) + [Attempt(event, false)];
  }

  // The loop

  /** `io.ReadFull`. */
  method ReadFull(src: Source, buf: array<bv8>) returns (n: nat, err: Option<End>)
    requires buf.Length > 0
    modifies src, buf
    ensures n == if |old(src.rest)| <= buf.Length then |old(src.rest)| else buf.Length
    ensures buf[..n] == old(src.rest)[..n] && src.rest == old(src.rest)[n..]
    ensures err == if n == buf.Length then None
                   else Some(if n > 0 && src.end == Eof then UnexpectedEof else src.end)
  {
    n, err := 0, None;
    while n < buf.Length && err == None
      invariant n <= buf.Length && n <= |old(src.rest)|
      invariant buf[..n] == old(src.rest)[..n] && src.rest == old(src.rest)[n..]
      invariant err.Some? ==> err.value == src.end && src.rest == []
      decreases src.emptyReads + |src.rest| + if err == None then 1 else 0
    {
      var got, end := src.Read(buf, n);
      n, err := n + got, end;
      assert buf[..n] == buf[..n - got] + buf[n - got..n];
    }
    if n == buf.Length { err := None; }
    else if n > 0 && err == Some(Eof) { err := Some(UnexpectedEof); }
  }

  datatype BlockRead = Full(block: array<bv8>) | Last(block: array<bv8>) | Overflow | Failed

  /** The closure `readBlock`: one buffer for all reads, a fresh copy for every block. */
  class BlockReader {
    const src: Source
    const buf: array<bv8>
    var total: nat

    constructor (src: Source)
      ensures this.src == src && total == 0 && buf.Length == CHUNK && fresh(buf)
    {
      this.src, total := src, 0;
      buf := new bv8[CHUNK];
    }

    method ReadBlock() returns (r: BlockRead)
      requires buf.Length == CHUNK
      modifies this, src, buf
      ensures var rest := old(src.rest); var n := if |rest| <= CHUNK then |rest| else CHUNK;
        && src.rest == rest[n..]
        && (r.Full? || r.Last? ==> fresh(r.block) && r.block[..] == rest[..n] && total == old(total) + n)
        && (r.Full? <==> n == CHUNK && old(total) + n <= MAX_VIDEO)
        && (r.Last? <==> n < CHUNK && Clean(src.end) && (n == 0 || old(total) + n <= MAX_VIDEO))
        && (r.Failed? <==> n < CHUNK && !Clean(src.end))
    {
      var n, err := ReadFull(src, buf);
      if err.Some? && !Clean(err.value) { return Failed; }
      var block := new bv8[n];
      forall i | 0 <= i < n { block[i] := buf[i]; }
      if err.Some? && n == 0 { return Last(block); }
      total := total + n;
      if total > MAX_VIDEO { return Overflow; }
      if err.Some? { return Last(block); }
      return Full(block);
    }
  }

  lemma EventsNext(stream: Bytes, meta: Meta, k: nat)
    requires k * CHUNK < |stream|
    ensures k < BlockCount(|stream|)
    ensures Events(stream, meta, k + 1) == Events(stream, meta, k) + [BlockEvent(stream, meta, k)]
  {
  }

  lemma NextBlock(stream: Bytes, k: nat)
    requires (k + 2) * CHUNK <= |stream|
    ensures stream[(k + 1) * CHUNK..][..CHUNK] == Block(stream, k + 1)
    ensures stream[(k + 1) * CHUNK..][CHUNK..] == stream[(k + 2) * CHUNK..]
  {
  }

  /** What is left after the last full block `k`. */
  lemma TailEvents(stream: Bytes, meta: Meta, k: nat, ahead: Bytes, block: Bytes)
    requires (k + 1) * CHUNK <= |stream| < (k + 2) * CHUNK
    requires ahead == Block(stream, k) && block == stream[(k + 1) * CHUNK..]
    ensures EventOf(ahead, meta, k, block == []) == BlockEvent(stream, meta, k)
    ensures block != [] ==> (k + 1) * CHUNK < |stream|
    ensures block != [] ==> EventOf(block, meta, k + 1, true) == BlockEvent(stream, meta, k + 1)
    ensures BlockCount(|stream|) == if block == [] then k + 1 else k + 2
  {
  }

  /** The outcome when the read after `k + 1` full blocks ends the loop, or event `k` is refused. */
  lemma OutcomeAfter(n: nat, end: End, k: nat)
    requires (k + 1) * CHUNK <= n && k < MAX_BLOCKS
    ensures n < (k + 2) * CHUNK && !Clean(end) ==> Unrefused(n, end) == ReadBroken && Offered(n, end) == k
    ensures n > MAX_VIDEO && k + 1 == MAX_BLOCKS && (n >= (k + 2) * CHUNK || Clean(end)) ==>
              Unrefused(n, end) == TooLarge && Offered(n, end) == k
    ensures k + 2 <= MAX_BLOCKS && n >= (k + 2) * CHUNK ==> Offered(n, end) > k
    ensures n < (k + 2) * CHUNK && n <= MAX_VIDEO && Clean(end) ==>
              Unrefused(n, end) == Success && Offered(n, end) == BlockCount(n) == if n == (k + 1) * CHUNK then k + 1
                  else k + 2
  {
  }

  lemma AllServed(offers: seq<Event>)
    ensures Served(offers, AllTaken(offers)) && !Refused(AllTaken(offers))
  {
  }

  /** A refusal of event `k` ends the calls. */
  lemma RefusalServed(stream: Bytes, meta: Meta, n: nat, k: nat)
    requires k < n <= BlockCount(|stream|) && k * CHUNK < |stream|
    ensures var log := LastRefused(Events(stream, meta, k) + [BlockEvent(stream, meta, k)]);
            Served(Events(stream, meta, n), log) && Refused(log)
  {
  }

  method EmitVideoChunks(src: Source, mimeType: string, responseId: string, elapsedMs: int, sink: Receiver?<Event>)
    returns (r: Result)
    modifies src, sink
    ensures sink == null ==> r == Unrefused(|old(src.rest)|, src.end)
    ensures sink != null ==>
              && |old(sink.log)| <= |sink.log| && sink.log[..|old(sink.log)|] == old(sink.log)
              && var log := sink.log[|old(sink.log)|..];
                 var meta := Meta(if mimeType == "" then "video/mp4" else mimeType, responseId, elapsedMs);
              && r == Verdict(|old(src.rest)|, src.end, log)
              && Served(Offers(old(src.rest), src.end, meta), log)
  {
    var meta := Meta(if mimeType == "" then "video/mp4" else mimeType, responseId, elapsedMs);
    ghost var stream, before := src.rest, if sink == null then [] else sink.log;
    AllServed([]);
    var reader := new BlockReader(src);
    var first := reader.ReadBlock();
    match first {
      case Failed => return ReadBroken;
      case Overflow => return TooLarge;
      case Last(block) =>
        if block.Length == 0 { return EmptyVideo; }
        r := EmitOnly(block, meta, sink, stream, src.end, before);
      case Full(block) =>
        ghost var log;
        r, log := EmitRest(reader, block, meta, sink, stream, before);
    }
  }

  /** A stream of at most one short block. */
  method EmitOnly(block: array<bv8>, meta: Meta, sink: Receiver?<Event>,
                  ghost stream: Bytes, ghost end: End, ghost before: seq<Attempt<Event>>)
    returns (r: Result)
    requires block[..] == stream && 0 < |stream| < CHUNK && Clean(end)
    requires Received(sink, before, AllTaken([]))
    modifies sink
    ensures sink == null ==> r == Success
    ensures sink != null ==>
              && |before| <= |sink.log| && sink.log[..|before|] == before
              && Served(Offers(stream, end, meta), sink.log[|before|..])
              && r == Verdict(|stream|, end, sink.log[|before|..])
  {
    EventsNext(stream, meta, 0);
    AllServed(Events(stream, meta, 1));
    assert stream == stream[0..];
    var ok, log := OfferNext(sink, block, true, meta, 0, stream, before, 1);
    return if ok then Success else EmitFailed;
  }

  /** The loop after the first full block: `ahead` is block number `sequence`, held back until
      the next read shows whether it is the last one. */
  method EmitRest(reader: BlockReader, first: array<bv8>, meta: Meta, sink: Receiver?<Event>,
                  ghost stream: Bytes, ghost before: seq<Attempt<Event>>)
    returns (r: Result, ghost log: seq<Attempt<Event>>)
    requires reader.buf.Length == CHUNK && |stream| >= CHUNK && first != reader.buf
    requires first[..] == stream[..CHUNK] && reader.src.rest == stream[CHUNK..] && reader.total == CHUNK
    requires Received(sink, before, AllTaken([]))
    modifies reader, reader.src, reader.buf, sink
    ensures Received(sink, before, log) && Served(Offers(stream, reader.src.end, meta), log)
    ensures r == Verdict(|stream|, reader.src.end, log) && (sink == null ==> !Refused(log))
  {
    var sequence, ahead := 0, first;
    ghost var n, end := |stream|, reader.src.end;
    while true
      invariant (sequence + 1) * CHUNK <= n && sequence < MAX_BLOCKS
      invariant ahead != reader.buf && ahead[..] == Block(stream, sequence)
      invariant reader.src.rest == stream[(sequence + 1) * CHUNK..]
      invariant reader.total == (sequence + 1) * CHUNK
      invariant Received(sink, before, AllTaken(Events(stream, meta, sequence)))
      decreases MAX_BLOCKS - sequence
    {
      OutcomeAfter(n, end, sequence);
      AllServed(Events(stream, meta, sequence));
      log := AllTaken(Events(stream, meta, sequence));
      var next := reader.ReadBlock();
      match next {
        case Failed => return ReadBroken, log;
        case Overflow => return TooLarge, log;
        case Last(block) =>
          r, log := EmitTail(ahead, block, meta, sequence, sink, stream, before);
          return;
        case Full(block) =>
          NextBlock(stream, sequence);
          var ok;
          ok, log := OfferNext(sink, ahead, false, meta, sequence, stream, before, Offered(n, end));
          if !ok { return EmitFailed, log; }
          sequence, ahead := sequence + 1, block;
      }
    }
  }

  /** Offers event `k` after all earlier ones were taken. */
  method OfferNext(sink: Receiver?<Event>, data: array<bv8>, final: bool, meta: Meta, k: nat,
                   ghost stream: Bytes, ghost before: seq<Attempt<Event>>, ghost count: nat)
    returns (ok: bool, ghost log: seq<Attempt<Event>>)
    requires k < count <= BlockCount(|stream|) && k * CHUNK < |stream|
    requires EventOf(data[..], meta, k, final) == BlockEvent(stream, meta, k)
    requires Received(sink, before, AllTaken(Events(stream, meta, k)))
    modifies sink
    ensures Received(sink, before, log) && (sink == null ==> ok)
    ensures ok ==> log == AllTaken(Events(stream, meta, k + 1))
    ensures !ok ==> Refused(log) && Served(Events(stream, meta, count), log)
  {
    EventsNext(stream, meta, k);
    RefusalServed(stream, meta, count, k);
    ghost var done := Events(stream, meta, k);
    ok := Offer(sink, EventOf(data[..], meta, k, final), before, done);
    log := if ok then AllTaken(Events(stream, meta, k + 1)) else LastRefused(done + [BlockEvent(stream, meta, k)]);
  }

  /** After a clean end: the held-back block, and the short last block if there is one. */
  method EmitTail(ahead: array<bv8>, block: array<bv8>, meta: Meta, sequence: nat, sink: Receiver?<Event>,
                  ghost stream: Bytes, ghost before: seq<Attempt<Event>>)
    returns (r: Result, ghost log: seq<Attempt<Event>>)
    requires (sequence + 1) * CHUNK <= |stream| < (sequence + 2) * CHUNK
    requires ahead[..] == Block(stream, sequence) && block[..] == stream[(sequence + 1) * CHUNK..]
    requires Received(sink, before, AllTaken(Events(stream, meta, sequence)))
    modifies sink
    ensures Received(sink, before, log) && Served(Events(stream, meta, BlockCount(|stream|)), log)
    ensures r == (if Refused(log) then EmitFailed else Success) && (sink == null ==> !Refused(log))
  {
    ghost var count := BlockCount(|stream|);
    TailEvents(stream, meta, sequence, ahead[..], block[..]);
    AllServed(Events(stream, meta, count));
    var ok;
    ok, log := OfferNext(sink, ahead, block.Length == 0, meta, sequence, stream, before, count);
    if !ok { return EmitFailed, log; }
    if block.Length > 0 {
      ok, log := OfferNext(sink, block, true, meta, sequence + 1, stream, before, count);
      if !ok { return EmitFailed, log; }
    }
    r := Success;
  }

  // What the contract means

  function Data(events: seq<Event>): Bytes {
    if events == [] then [] else Data(events[..|events| - 1]) + events[|events| - 1].data
  }

  function Prefix(stream: Bytes, k: nat): Bytes {
    if k * CHUNK <= |stream| then stream[..k * CHUNK] else stream
  }

  lemma PrefixAndBlock(stream: Bytes, k: nat)
    requires k * CHUNK < |stream|
    ensures Prefix(stream, k + 1) == Prefix(stream, k) + Block(stream, k)
  {
  }

  lemma {:induction false} DataOfPrefix(stream: Bytes, meta: Meta, k: nat)
    requires k <= BlockCount(|stream|)
    ensures Data(Events(stream, meta, k)) == Prefix(stream, k)
  {
    if k > 0 {
      DataOfPrefix(stream, meta, k - 1);
      EventsNext(stream, meta, k - 1);
      assert Events(stream, meta, k)[..k - 1] == Events(stream, meta, k - 1);
      PrefixAndBlock(stream, k - 1);
    }
  }

  lemma BlockShape(stream: Bytes, meta: Meta, i: nat)
    requires i * CHUNK < |stream|
    ensures var e := BlockEvent(stream, meta, i);
      && e.sequence == i && (e.final <==> i == BlockCount(|stream|) - 1)
      && (if e.final then 0 < |e.data| <= CHUNK else |e.data| == CHUNK)
      && e.mimeType == meta.mimeType && e.responseId == (if e.final then meta.responseId else "")
      && e.elapsedMs == if e.final then meta.elapsedMs else 0
  {
  }

  /** The stream cut at every MiB and numbered: the data add up to the stream, every block but
      the last is exactly 1 MiB, the last is not empty and alone is final. */
  ghost predicate Whole(events: seq<Event>, stream: Bytes, meta: Meta) {
    && Data(events) == stream && |events| == (|stream| + CHUNK - 1) / CHUNK
    && forall i :: 0 <= i < |events| ==> WholeAt(events, i, meta)
  }

  predicate WholeAt(events: seq<Event>, i: nat, meta: Meta)
    requires i < |events|
  {
    var e := events[i];
    && e.sequence == i && (e.final <==> i == |events| - 1)
    && (if e.final then 0 < |e.data| <= CHUNK else |e.data| == CHUNK)
    && e.mimeType == meta.mimeType && e.responseId == (if e.final then meta.responseId else "")
    && e.elapsedMs == if e.final then meta.elapsedMs else 0
  }

  lemma AllBlocksAreWhole(stream: Bytes, meta: Meta)
    requires 0 < |stream| <= MAX_VIDEO
    ensures Whole(Events(stream, meta, BlockCount(|stream|)), stream, meta) && BlockCount(|stream|) <= MAX_BLOCKS
  {
    var events := Events(stream, meta, BlockCount(|stream|));
    DataOfPrefix(stream, meta, BlockCount(|stream|));
    forall i | 0 <= i < |events| ensures WholeAt(events, i, meta) { BlockShape(stream, meta, i); }
  }

  lemma SuccessOffersAll(stream: Bytes, end: End, meta: Meta)
    requires Unrefused(|stream|, end) == Success
    ensures 0 < |stream| <= MAX_VIDEO && |Offers(stream, end, meta)| <= MAX_BLOCKS
    ensures Whole(Offers(stream, end, meta), stream, meta)
  {
    AllBlocksAreWhole(stream, meta);
  }

  /** On success every call was accepted, and together they delivered the whole stream, of 1 byte
      to 200 MiB. */
  lemma {:induction false} SuccessDeliversTheStream(stream: Bytes, end: End, meta: Meta, log: seq<Attempt<Event>>)
    requires Served(Offers(stream, end, meta), log) && Verdict(|stream|, end, log) == Success
    ensures 0 < |stream| <= MAX_VIDEO && |log| <= MAX_BLOCKS
    ensures log == AllTaken(Accepted(log)) && Whole(Accepted(log), stream, meta)
  {
    UnrefusedTakesAll(Offers(stream, end, meta), log);
    SuccessOffersAll(stream, end, meta);
  }

  lemma FullBlocksOnly(stream: Bytes, meta: Meta, k: nat)
    requires k == 0 || (k * CHUNK < |stream| && k < BlockCount(|stream|))
    ensures var got := Events(stream, meta, k);
      Data(got) == stream[..k * CHUNK] && forall i :: 0 <= i < k ==>
          got[i].sequence == i && !got[i].final && |got[i].data| == CHUNK
  {
    DataOfPrefix(stream, meta, k);
  }

  lemma {:induction false} FailureAccepts(stream: Bytes, end: End, meta: Meta, log: seq<Attempt<Event>>)
    returns (k: nat)
    requires Served(Offers(stream, end, meta), log) && Verdict(|stream|, end, log) != Success
    ensures k < MAX_BLOCKS && (k == 0 || (k * CHUNK < |stream| && k < BlockCount(|stream|)))
    ensures Accepted(log) == Events(stream, meta, k)
  {
    k := |Accepted(log)|;
    AcceptedIsPrefix(Offers(stream, end, meta), log);
    AcceptedBelowEnd(|stream|, end, k, Refused(log));
  }

  /** On any failure at most 199 blocks were accepted, each a full MiB of the stream in order,
      and none was marked final. At most the last call was refused, and none followed it. */
  lemma {:induction false} FailureNeverLooksComplete(stream: Bytes, end: End, meta: Meta, log: seq<Attempt<Event>>)
    requires Served(Offers(stream, end, meta), log) && Verdict(|stream|, end, log) != Success
    ensures var got := Accepted(log);
      && |got| <= MAX_BLOCKS - 1 && |got| * CHUNK <= |stream|
      && Data(got) == stream[..|got| * CHUNK]
      && (forall i :: 0 <= i < |got| ==> got[i].sequence == i && !got[i].final && |got[i].data| == CHUNK)
    ensures |log| == |Accepted(log)| + (if Refused(log) then 1 else 0)
    ensures forall i :: 0 <= i < |log| && !log[i].accepted ==> i == |log| - 1
  {
    var k := FailureAccepts(stream, end, meta, log);
    FullBlocksOnly(stream, meta, k);
    OnlyTheLastIsRefused(Offers(stream, end, meta), log);
  }

  lemma AcceptedBelowEnd(n: nat, end: End, k: nat, refused: bool)
    requires if refused then k < Offered(n, end) else k == Offered(n, end) && Unrefused(n, end) != Success
    ensures k < MAX_BLOCKS && (k == 0 || (k * CHUNK < n && k < BlockCount(n)))
  {
  }

  /** Which inputs succeed: streams of 1 byte to 200 MiB that did not end in a read failure,
      when the caller accepts every call. An error end is reported as success exactly when it
      is the unexpected end of file. */
  lemma SuccessExactly(stream: Bytes, end: End, meta: Meta, log: seq<Attempt<Event>>)
    requires Served(Offers(stream, end, meta), log)
    ensures Verdict(|stream|, end, log) == Success <==>
              && (end == Eof || end == UnexpectedEof) && 0 < |stream| <= MAX_VIDEO
              && forall i :: 0 <= i < |log| ==> log[i].accepted
  {
  }

  /** A body cut short by the connection (`io.ErrUnexpectedEOF`) counts as a clean end: a caller
      that accepts every call gets what arrived as a complete video, although the read returned
      an error. */
  lemma {:induction false} TruncatedBodyIsDeliveredAsComplete(stream: Bytes, meta: Meta, log: seq<Attempt<Event>>)
    requires 0 < |stream| <= MAX_VIDEO && Served(Offers(stream, UnexpectedEof, meta), log) && !Refused(log)
    ensures Verdict(|stream|, UnexpectedEof, log) == Success
    ensures log != [] && log[|log| - 1].accepted && log[|log| - 1].event.final && Data(Accepted(log)) == stream
  {
    SuccessDeliversTheStream(stream, UnexpectedEof, meta, log);
  }
}
