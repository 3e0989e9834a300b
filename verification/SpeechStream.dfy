/** The Minimax speech stream (internal/infra/minimaxtts/provider.go): a reader goroutine, a
    cancellation watcher and the calling goroutine share the audio buffer and a few flags.
    Each atomic section is one step; the steps of the three interleave freely. */
module SpeechStream {
  type Bytes = seq<bv8>

  const MAX_MEDIA := 60 * 0x10_0000

  /** What a non-empty text of hexadecimal digits decodes to. */
  type Sound = b: Bytes | |b| > 0 witness [0]

  /** The audio field of one message: absent or empty, not hexadecimal, or decoded bytes. */
  datatype Audio = NoAudio | BadHex | Chunk(bytes: Sound)

  datatype EventName = TaskFinished | TaskFailed | OtherEvent

  datatype Frame = Undecodable | Message(audio: Audio, event: EventName)

  /** What a read returns: a frame, a normal close by the peer, or any other error. */
  datatype Incoming = Received(frame: Frame) | PeerClose | ReadError

  /** Where the reader is. `Ended` means that it has closed doneChan, and why it stopped. */
  datatype Reader =
    | NotStarted
    | Reading
    | Processing(frame: Frame)
    | SawClose(clean: bool)
    | Failing
    | Reporting
    | Ended(why: Ending)

  datatype Ending = Finished | ClosedByPeer | ClosedHere | Reported

  datatype Outcome = Speech(audio: Bytes) | NoSpeech

  datatype Caller =
    | Handshaking | SendingText | Flushing | Waiting | Collecting
    | Deciding(failed: bool, audio: Bytes)
    | Returned(outcome: Outcome)

  /** `frames` records what the reader has received; no code reads it. */
  datatype Stream = Stream(
    ctxDone: bool,
    closing: bool,
    failed: bool,
    streamErr: bool,
    audio: Bytes,
    reader: Reader,
    caller: Caller,
    frames: seq<Frame>)

  const START := Stream(false, false, false, false, [], NotStarted, Handshaking, [])

  datatype Choice = ByDone | ByContext | ByTimer

  datatype Step =
    | ContextEnds
    | WatcherCloses
    | ReaderReceives(incoming: Incoming)
    | ReaderProcesses
    | ReaderChecksClosing
    | ReaderSetsFailed
    | ReaderReports
    | HandshakeEnds(ok: bool)
    | SendText(written: bool)
    | StartFlush(written: bool)
    | WaitEnds(how: Choice)
    | Collect
    | Decide

  predicate Enabled(s: Stream, step: Step) {
    match step
    case ContextEnds => true
    case WatcherCloses => s.ctxDone && !s.caller.Returned?
    case ReaderReceives(_) => s.reader.Reading?
    case ReaderProcesses => s.reader.Processing?
    case ReaderChecksClosing => s.reader.SawClose?
    case ReaderSetsFailed => s.reader.Failing?
    case ReaderReports => s.reader.Reporting?
    case HandshakeEnds(_) => s.caller.Handshaking?
    case SendText(_) => s.caller.SendingText?
    case StartFlush(_) => s.caller.Flushing?
    case WaitEnds(how) =>
      s.caller.Waiting? && (how == ByDone ==> s.reader.Ended?) && (how == ByContext ==> s.ctxDone)
    case Collect => s.caller.Collecting?
    case Decide => s.caller.Deciding?
  }

  /** The callback that appends a decoded chunk, under audioMu. */
  function Append(s: Stream, chunk: Bytes): Stream {
    if chunk == [] || s.streamErr then s
    else if |s.audio| + |chunk| > MAX_MEDIA then s.(streamErr := true)
    else s.(audio := s.audio + chunk)
  }

  /** The body of `readLoop` for one message: audio is taken first, and a message with audio
      is not looked at for its event. */
  function Process(s: Stream, frame: Frame): Stream {
    match frame
    case Undecodable => s.(reader := Failing)
    case Message(BadHex, _) => s.(reader := Failing)
    case Message(Chunk(bytes), _) => Append(s, bytes).(reader := Reading)
    case Message(NoAudio, TaskFinished) => s.(reader := Ended(Finished))
    case Message(NoAudio, TaskFailed) => s.(reader := Failing)
    case Message(NoAudio, OtherEvent) => s.(reader := Reading)
  }

  function Next(s: Stream, step: Step): Stream
    requires Enabled(s, step)
  {
    match step
    case ContextEnds => s.(ctxDone := true)
    case WatcherCloses => s.(closing := true)
    case ReaderReceives(Received(frame)) => s.(reader := Processing(frame), frames := s.frames + [frame])
    case ReaderReceives(PeerClose) => s.(reader := SawClose(true))
    case ReaderReceives(ReadError) => s.(reader := SawClose(false))
    case ReaderProcesses => Process(s, s.reader.frame)
    case ReaderChecksClosing =>
      s.(reader := if s.closing then Ended(ClosedHere) else if s.reader.clean then Ended(ClosedByPeer) else Failing)
    case ReaderSetsFailed => s.(failed := true, reader := Reporting)
    case ReaderReports => s.(streamErr := true, reader := Ended(Reported))
    case HandshakeEnds(ok) =>
      if ok then s.(caller := SendingText, reader := Reading) else s.(caller := Returned(NoSpeech), closing := true)
    case SendText(written) =>
      s.(caller := if s.closing || s.failed || !written then Returned(NoSpeech) else Flushing)
    case StartFlush(written) =>
      s.(caller := if s.closing || s.failed || !written then Returned(NoSpeech) else Waiting)
    case WaitEnds(ByDone) => s.(caller := Collecting)
    case WaitEnds(_) => s.(caller := Returned(NoSpeech), closing := true)
    case Collect => s.(caller := Deciding(s.streamErr, s.audio))
    case Decide =>
      s.(caller := Returned(if s.caller.failed || s.ctxDone || s.caller.audio == [] then NoSpeech
          else Speech(s.caller.audio)))
  }

  ghost predicate CanRun(s: Stream, steps: seq<Step>)
    decreases |steps|
  {
    steps == [] || (Enabled(s, steps[0]) && CanRun(Next(s, steps[0]), steps[1..]))
  }

  ghost function Run(s: Stream, steps: seq<Step>): Stream
    requires CanRun(s, steps)
    decreases |steps|
  {
    if steps == [] then s else Run(Next(s, steps[0]), steps[1..])
  }

  // The audio that was received

  /** Every decoded chunk of a list of frames, in order. */
  function AudioOf(frames: seq<Frame>): Bytes {
    if frames == [] then [] else AudioOf(frames[..|frames| - 1]) + ChunkOf(frames[|frames| - 1])
  }

  function ChunkOf(frame: Frame): Bytes {
    if frame.Message? && frame.audio.Chunk? then frame.audio.bytes else []
  }

  /** Frames after which the reader goes on reading. */
  predicate Harmless(frame: Frame) {
    frame.Message? && (frame.audio.Chunk? || (frame.audio == NoAudio && frame.event == OtherEvent))
  }

  predicate AllHarmless(frames: seq<Frame>) {
    forall i :: 0 <= i < |frames| ==> Harmless(frames[i])
  }

  /** The frames that were processed completely. */
  function Processed(s: Stream): seq<Frame> {
    if s.reader.Processing? && s.frames != [] then s.frames[..|s.frames| - 1] else s.frames
  }

  /** What the reader's position says about the frames it has received. */
  ghost predicate ReaderFits(s: Stream) {
    match s.reader
    case NotStarted => s.frames == []
    case Reading => AllHarmless(s.frames)
    case Processing(frame) => s.frames != [] && s.frames[|s.frames| - 1] == frame && AllHarmless(Processed(s))
    case SawClose(_) => AllHarmless(s.frames)
    case Ended(Finished) =>
      && s.frames != [] && s.frames[|s.frames| - 1] == Message(NoAudio, TaskFinished)
      && AllHarmless(s.frames[..|s.frames| - 1])
    case Ended(ClosedByPeer) => AllHarmless(s.frames)
    case Ended(ClosedHere) => s.closing
    case Ended(Reported) => s.streamErr
    case Failing => true
    case Reporting => true
  }

  /** Why the reader of a stream that delivered speech had stopped. */
  ghost predicate EndedWell(s: Stream) {
    s.reader == Ended(Finished) || s.reader == Ended(ClosedByPeer)
  }

  ghost predicate CallerFits(s: Stream) {
    match s.caller
    case Handshaking => s.reader == NotStarted && s.audio == [] && !s.streamErr
    case Collecting => s.reader.Ended?
    case Deciding(failed, audio) => s.reader.Ended? && failed == s.streamErr && audio == s.audio
    case Returned(Speech(audio)) => EndedWell(s) && !s.streamErr && audio == s.audio && audio != []
    case _ => true
  }

  /** Without a stream error the buffer holds exactly what was decoded. Until the caller has
      returned, only the end of the context closes the stream. */
  ghost predicate Inv(s: Stream) {
    && ReaderFits(s) && CallerFits(s)
    && |s.audio| <= MAX_MEDIA
    && (!s.streamErr ==> s.audio == AudioOf(Processed(s)))
    && (s.closing && !s.caller.Returned? ==> s.ctxDone)
  }

  lemma ReceiveKeepsInv(s: Stream, incoming: Incoming)
    requires Inv(s) && s.reader.Reading?
    ensures Inv(Next(s, ReaderReceives(incoming)))
  {
    if incoming.Received? { assert (s.frames + [incoming.frame])[..|s.frames|] == s.frames; }
  }

  lemma OneMoreFrame(frames: seq<Frame>, frame: Frame)
    ensures AudioOf(frames + [frame]) == AudioOf(frames) + ChunkOf(frame)
    ensures AllHarmless(frames) && Harmless(frame) ==> AllHarmless(frames + [frame])
  {
    assert (frames + [frame])[..|frames|] == frames;
  }

  lemma ProcessChunkKeepsInv(s: Stream, heard: Bytes)
    requires s.reader.Processing? && s.reader.frame.Message? && s.reader.frame.audio.Chunk?
    requires CallerFits(s) && |s.audio| <= MAX_MEDIA && (s.closing && !s.caller.Returned? ==> s.ctxDone)
    requires AllHarmless(s.frames) && AudioOf(s.frames) == heard + s.reader.frame.audio.bytes
    requires !s.streamErr ==> s.audio == heard
    ensures Inv(Process(s, s.reader.frame))
  {
  }

  /** The reader goes on to another position, without having heard more audio. */
  lemma ReaderMoves(s: Stream, reader: Reader)
    requires Inv(s) && s.reader.Processing? && !reader.NotStarted?
    requires ReaderFits(s.(reader := reader)) && AudioOf(Processed(s.(reader := reader))) == AudioOf(Processed(s))
    ensures Inv(s.(reader := reader))
  {
  }

  lemma ProcessEventKeepsInv(s: Stream, done: seq<Frame>)
    requires Inv(s) && s.reader.Processing? && (s.reader.frame.Undecodable? || !s.reader.frame.audio.Chunk?)
    requires s.frames[..|s.frames| - 1] == done == Processed(s) && AudioOf(s.frames) == AudioOf(done)
    requires Harmless(s.reader.frame) ==> AllHarmless(s.frames)
    ensures Inv(Process(s, s.reader.frame))
  {
    ReaderMoves(s, Process(s, s.reader.frame).reader);
  }

  lemma ProcessKeepsInv(s: Stream)
    requires Inv(s) && s.reader.Processing?
    ensures Inv(Process(s, s.reader.frame))
  {
    var done, frame := Processed(s), s.reader.frame;
    assert s.frames == done + [frame];
    OneMoreFrame(done, frame);
    if frame.Message? && frame.audio.Chunk? {
      ProcessChunkKeepsInv(s, AudioOf(done));
    } else {
      ProcessEventKeepsInv(s, done);
    }
  }

  lemma ReaderStepKeepsInv(s: Stream, step: Step)
    requires Inv(s) && Enabled(s, step) && (step.ReaderChecksClosing? || step.ReaderSetsFailed? || step.ReaderReports?)
    ensures Inv(Next(s, step))
  {
  }

  lemma SenderStepKeepsInv(s: Stream, step: Step)
    requires Inv(s) && Enabled(s, step) && (step.HandshakeEnds? || step.SendText? || step.StartFlush?)
    ensures Inv(Next(s, step))
  {
  }

  /** A step of the caller that leaves the reader and the buffer alone. */
  lemma CallerMoves(s: Stream, s': Stream)
    requires Inv(s) && CallerFits(s')
    requires s' == s.(caller := s'.caller, closing := s'.closing)
    requires (s.closing ==> s'.closing) && (s'.closing && !s'.caller.Returned? ==> s.closing && !s.caller.Returned?)
    ensures Inv(s')
  {
  }

  /** Why the reader has stopped when the caller sees neither an error nor an ended context. */
  lemma QuietEndIsGood(s: Stream)
    requires Inv(s) && s.reader.Ended? && !s.caller.Returned? && !s.streamErr && !s.ctxDone
    ensures EndedWell(s)
  {
  }

  lemma WaiterStepKeepsInv(s: Stream, step: Step)
    requires Inv(s) && Enabled(s, step) && (step.WaitEnds? || step.Collect? || step.Decide?)
    ensures Inv(Next(s, step))
  {
    if s.reader.Ended? && !s.streamErr && !s.ctxDone { QuietEndIsGood(s); }
    CallerMoves(s, Next(s, step));
  }

  lemma StepKeepsInv(s: Stream, step: Step)
    requires Inv(s) && Enabled(s, step)
    ensures Inv(Next(s, step))
  {
    if step.ReaderReceives? { ReceiveKeepsInv(s, step.incoming); }
    else if step.ReaderProcesses? { ProcessKeepsInv(s); }
    else if step.ReaderChecksClosing? || step.ReaderSetsFailed? || step.ReaderReports? { ReaderStepKeepsInv(s, step); }
    else if step.ContextEnds? || step.WatcherCloses? { }
    else if step.WaitEnds? || step.Collect? || step.Decide? { WaiterStepKeepsInv(s, step); }
    else { SenderStepKeepsInv(s, step); }
  }

  lemma {:induction false} RunKeepsInv(s: Stream, steps: seq<Step>)
    requires Inv(s) && CanRun(s, steps)
    ensures Inv(Run(s, steps))
    decreases |steps|
  {
    if steps != [] {
      StepKeepsInv(s, steps[0]);
      RunKeepsInv(Next(s, steps[0]), steps[1..]);
    }
  }

  /** Speech is never cut short by a local cause. Under every interleaving, when the call
      returns speech: it is all audio received, in order, not empty and within the cap; the
      reader stopped because the task finished or the peer closed normally, and every frame
      before that was one after which reading goes on. */
  lemma SpeechIsComplete(steps: seq<Step>)
    requires CanRun(START, steps) && Run(START, steps).caller.Returned? && Run(START, steps).caller.outcome.Speech?
    ensures var s := Run(START, steps); var audio := s.caller.outcome.audio;
      && audio == AudioOf(s.frames) && 0 < |audio| <= MAX_MEDIA
      && (|| (s.reader == Ended(ClosedByPeer) && AllHarmless(s.frames))
          || (s.reader == Ended(Finished) && s.frames != [] &&
              s.frames[|s.frames| - 1] == Message(NoAudio, TaskFinished)
              && AllHarmless(s.frames[..|s.frames| - 1])))
  {
    RunKeepsInv(START, steps);
  }

  /** The other direction: once the reader has ended, the call returns speech exactly when
      there was no stream error, the context is still alive and some audio arrived. */
  lemma SpeechExactlyWhen(steps: seq<Step>)
    requires CanRun(START, steps) && Run(START, steps).caller.Deciding?
    ensures Next(Run(START, steps), Decide).caller.outcome.Speech? <==>
              && EndedWell(Run(START, steps)) && !Run(START, steps).streamErr
              && !Run(START, steps).ctxDone && AudioOf(Run(START, steps).frames) != []
  {
    RunKeepsInv(START, steps);
  }

  lemma Then(steps: seq<Step>, step: Step) returns (longer: seq<Step>)
    requires CanRun(START, steps) && Enabled(Run(START, steps), step)
    ensures longer == steps + [step] && CanRun(START, longer) && Run(START, longer) == Next(Run(START, steps), step)
  {
    longer := steps + [step];
    RunAppend(START, steps, step);
  }

  lemma {:induction false} RunAppend(s: Stream, steps: seq<Step>, last: Step)
    requires CanRun(s, steps) && Enabled(Run(s, steps), last)
    ensures CanRun(s, steps + [last]) && Run(s, steps + [last]) == Next(Run(s, steps), last)
    decreases |steps|
  {
    if steps == [] {
      assert steps + [last] == [last] && [last][1..] == [];
    } else {
      assert (steps + [last])[1..] == steps[1..] + [last];
      RunAppend(Next(s, steps[0]), steps[1..], last);
    }
  }

  /** The frames after which reading ended well: all harmless, or a task_finished after them. */
  ghost predicate WellEnded(frames: seq<Frame>) {
    || AllHarmless(frames)
    || (frames != [] && frames[|frames| - 1] == Message(NoAudio, TaskFinished) && AllHarmless(frames[..|frames| - 1]))
  }

  /** Some run receives exactly these frames and returns speech. */
  ghost predicate Speakable(frames: seq<Frame>) {
    exists steps :: CanRun(START, steps) && Run(START, steps).frames == frames
      && Run(START, steps).caller.Returned? && Run(START, steps).caller.outcome.Speech?
  }

  /** The caller at some position, while the reader has heard these frames. */
  function Hearing(caller: Caller, frames: seq<Frame>): Stream {
    Stream(false, false, false, false, AudioOf(frames), Reading, caller, frames)
  }

  function Listening(frames: seq<Frame>): Stream { Hearing(Waiting, frames) }

  /** How many frames arrived in a run. */
  function Heard(steps: seq<Step>): nat {
    if steps == [] then 0 else
      Heard(steps[..|steps| - 1]) +
      (match steps[|steps| - 1]
       case ReaderReceives(Received(_)) => 1
       case _ => 0)
  }

  /** The run takes this step when `n` frames have arrived. */
  ghost predicate TakenAfter(steps: seq<Step>, step: Step, n: nat) {
    exists p :: 0 <= p < |steps| && steps[p] == step && Heard(steps[..p]) == n
  }

  ghost predicate Extends(longer: seq<Step>, steps: seq<Step>) {
    |steps| <= |longer| && longer[..|steps|] == steps
  }

  lemma StillTaken(longer: seq<Step>, steps: seq<Step>, step: Step, n: nat)
    requires Extends(longer, steps) && TakenAfter(steps, step, n)
    ensures TakenAfter(longer, step, n)
  {
    var p :| 0 <= p < |steps| && steps[p] == step && Heard(steps[..p]) == n;
    assert longer[p] == longer[..|steps|][p] && longer[..p] == longer[..|steps|][..p];
  }

  lemma TakenNow(steps: seq<Step>, step: Step)
    ensures TakenAfter(steps + [step], step, Heard(steps)) && Extends(steps + [step], steps)
    ensures !step.ReaderReceives? ==> Heard(steps + [step]) == Heard(steps)
    ensures step.ReaderReceives? && step.incoming.Received? ==> Heard(steps + [step]) == Heard(steps) + 1
  {
    assert (steps + [step])[..|steps|] == steps && (steps + [step])[|steps|] == step;
  }

  lemma FrameIsHeard(caller: Caller, frames: seq<Frame>, frame: Frame)
    requires Harmless(frame) && |AudioOf(frames + [frame])| <= MAX_MEDIA
    ensures var s := Hearing(caller, frames); var arrives := ReaderReceives(Received(frame));
      && Enabled(s, arrives) && Enabled(Next(s, arrives), ReaderProcesses)
      && Next(Next(s, arrives), ReaderProcesses) == Hearing(caller, frames + [frame])
  {
    OneMoreFrame(frames, frame);
    assert AudioOf(frames) + [] == AudioOf(frames);
  }

  lemma {:induction false} ExtendsTwice(steps: seq<Step>, a: Step, b: Step)
    requires a.ReaderReceives? && a.incoming.Received? && !b.ReaderReceives?
    ensures Extends(steps + [a] + [b], steps) && Heard(steps + [a] + [b]) == Heard(steps) + 1
  {
    TakenNow(steps, a);
    TakenNow(steps + [a], b);
  }

  lemma {:induction false} HearOne(steps: seq<Step>, caller: Caller, frames: seq<Frame>, frame: Frame)
    returns (longer: seq<Step>)
    requires CanRun(START, steps) && Run(START, steps) == Hearing(caller, frames)
    requires Harmless(frame) && |AudioOf(frames + [frame])| <= MAX_MEDIA
    ensures CanRun(START, longer) && Run(START, longer) == Hearing(caller, frames + [frame])
    ensures Extends(longer, steps) && Heard(longer) == Heard(steps) + 1
  {
    FrameIsHeard(caller, frames, frame);
    ExtendsTwice(steps, ReaderReceives(Received(frame)), ReaderProcesses);
    longer := Then(steps, ReaderReceives(Received(frame)));
    longer := Then(longer, ReaderProcesses);
  }

  lemma ExtendsFurther(longest: seq<Step>, longer: seq<Step>, steps: seq<Step>)
    requires Extends(longest, longer) && Extends(longer, steps)
    ensures Extends(longest, steps)
  {
    assert longest[..|steps|] == longest[..|longer|][..|steps|];
  }

  /** The reader hears frames `i` to `j` while the caller stays where it is. */
  lemma {:induction false} HearMore(steps: seq<Step>, caller: Caller, frames: seq<Frame>, i: nat, j: nat)
    returns (longer: seq<Step>)
    requires CanRun(START, steps) && i <= j <= |frames| && Run(START, steps) == Hearing(caller, frames[..i])
    requires AllHarmless(frames) && |AudioOf(frames)| <= MAX_MEDIA
    ensures CanRun(START, longer) && Run(START, longer) == Hearing(caller, frames[..j])
    ensures Extends(longer, steps) && Heard(longer) == Heard(steps) + j - i
    decreases j
  {
    longer := steps;
    if i < j {
      var front := HearMore(steps, caller, frames, i, j - 1);
      assert frames[..j] == frames[..j - 1] + [frames[j - 1]];
      PrefixIsShorter(frames, j);
      longer := HearOne(front, caller, frames[..j - 1], frames[j - 1]);
      ExtendsFurther(longer, front, steps);
    }
  }

  lemma {:induction false} PrefixIsShorter(frames: seq<Frame>, j: nat)
    requires j <= |frames|
    ensures |AudioOf(frames[..j])| <= |AudioOf(frames)|
  {
    if j < |frames| {
      var front := frames[..|frames| - 1];
      PrefixIsShorter(front, j);
      assert front[..j] == frames[..j];
    } else {
      assert frames[..j] == frames;
    }
  }

  /** All frames are heard: `i` of them before the text is sent, and `j` before the flush. */
  lemma {:induction false} HearAll(frames: seq<Frame>, i: nat, j: nat) returns (steps: seq<Step>)
    requires AllHarmless(frames) && |AudioOf(frames)| <= MAX_MEDIA && i <= j <= |frames|
    ensures CanRun(START, steps) && Run(START, steps) == Listening(frames)
    ensures TakenAfter(steps, SendText(true), i) && TakenAfter(steps, StartFlush(true), j)
  {
    TakenNow([], HandshakeEnds(true));
    steps := Then([], HandshakeEnds(true));
    var upToText := HearMore(steps, SendingText, frames, 0, i);
    TakenNow(upToText, SendText(true));
    var sent := Then(upToText, SendText(true));
    var upToFlush := HearMore(sent, Flushing, frames, i, j);
    TakenNow(upToFlush, StartFlush(true));
    var flushed := Then(upToFlush, StartFlush(true));
    steps := HearMore(flushed, Waiting, frames, j, |frames|);
    assert frames[..|frames|] == frames;
    StillTaken(upToFlush, sent, SendText(true), i);
    StillTaken(flushed, upToFlush, SendText(true), i);
    StillTaken(steps, flushed, SendText(true), i);
    StillTaken(steps, flushed, StartFlush(true), j);
  }

  lemma StopReading(steps: seq<Step>, frames: seq<Frame>, finished: bool) returns (longer: seq<Step>)
    requires CanRun(START, steps) && Run(START, steps) == Listening(frames)
    ensures CanRun(START, longer) && Extends(longer, steps)
    ensures var end := Message(NoAudio, TaskFinished);
            Run(START, longer) == if finished then
                Listening(frames).(reader := Ended(Finished), frames := frames + [end])
                                  else Listening(frames).(reader := Ended(ClosedByPeer))
  {
    if finished {
      longer := Then(steps, ReaderReceives(Received(Message(NoAudio, TaskFinished))));
      longer := Then(longer, ReaderProcesses);
    } else {
      longer := Then(steps, ReaderReceives(PeerClose));
      longer := Then(longer, ReaderChecksClosing);
    }
  }

  lemma FinishCall(steps: seq<Step>) returns (longer: seq<Step>)
    requires CanRun(START, steps)
    requires Run(START, steps).caller == Waiting && Run(START, steps).reader.Ended?
    requires !Run(START, steps).ctxDone && !Run(START, steps).streamErr && Run(START, steps).audio != []
    ensures CanRun(START, longer) && Extends(longer, steps)
    ensures Run(START, longer) == Run(START, steps).(caller := Returned(Speech(Run(START, steps).audio)))
  {
    longer := Then(steps, WaitEnds(ByDone));
    longer := Then(longer, Collect);
    longer := Then(longer, Decide);
  }

  /** Frames that end well and carry some audio, no more than the cap, can end in speech
      wherever they fall: any number of the frames before the end may arrive before the text is
      sent, and any number before the flush. */
  lemma {:induction false} SpeechAtAnyTime(heard: seq<Frame>, finished: bool, i: nat, j: nat)
    returns (steps: seq<Step>)
    requires AllHarmless(heard) && 0 < |AudioOf(heard)| <= MAX_MEDIA && i <= j <= |heard|
    ensures CanRun(START, steps)
    ensures TakenAfter(steps, SendText(true), i) && TakenAfter(steps, StartFlush(true), j)
    ensures Run(START, steps).frames == heard + if finished then [Message(NoAudio, TaskFinished)] else []
    ensures Run(START, steps).caller == Returned(Speech(AudioOf(heard)))
  {
    var all := HearAll(heard, i, j);
    var ended := StopReading(all, heard, finished);
    StillTaken(ended, all, SendText(true), i);
    StillTaken(ended, all, StartFlush(true), j);
    steps := FinishCall(ended);
    StillTaken(steps, ended, SendText(true), i);
    StillTaken(steps, ended, StartFlush(true), j);
  }

  /** Which frames can end in speech: exactly those that end well and carry some audio, no
      more than the cap. */
  lemma {:induction false} SpeakableExactly(frames: seq<Frame>)
    ensures Speakable(frames) <==> WellEnded(frames) && 0 < |AudioOf(frames)| <= MAX_MEDIA
  {
    if Speakable(frames) {
      var steps :| CanRun(START, steps) && Run(START, steps).frames == frames
        && Run(START, steps).caller.Returned? && Run(START, steps).caller.outcome.Speech?;
      SpeechIsComplete(steps);
    }
    if WellEnded(frames) && 0 < |AudioOf(frames)| <= MAX_MEDIA {
      var finished := !AllHarmless(frames);
      var heard := if finished then frames[..|frames| - 1] else frames;
      if finished {
        assert frames == heard + [Message(NoAudio, TaskFinished)];
        OneMoreFrame(heard, Message(NoAudio, TaskFinished));
      }
      var steps := SpeechAtAnyTime(heard, finished, 0, 0);
    }
  }

  lemma MissedFailureIsAudible(frames: seq<Frame>, audio: Audio)
    requires Speakable(frames) && Message(audio, TaskFailed) in frames
    ensures audio.Chunk? && |audio.bytes| <= MAX_MEDIA
  {
    SpeakableExactly(frames);
    var bad, n := Message(audio, TaskFailed), |frames|;
    var i :| 0 <= i < n && frames[i] == bad;
    if !AllHarmless(frames) { assert i < n - 1 && frames[..n - 1][i] == bad; }
    assert Harmless(bad);
    AudioIsPart(frames, i);
  }

  lemma AudibleFailureIsMissed(bytes: Sound) returns (frames: seq<Frame>)
    requires |bytes| <= MAX_MEDIA
    ensures Speakable(frames) && Message(Chunk(bytes), TaskFailed) in frames
  {
    var bad := Message(Chunk(bytes), TaskFailed);
    OneMoreFrame([], bad);
    frames := [] + [bad];
    assert frames[0] == bad;
    SpeakableExactly(frames);
  }

  /** A task_failed message is missed, and speech returned all the same, exactly when the
      message also carries audio (no more than the cap). */
  lemma FailureIsMissedExactlyWhen(audio: Audio)
    ensures (exists frames :: Speakable(frames) && Message(audio, TaskFailed) in frames) <==>
            audio.Chunk? && |audio.bytes| <= MAX_MEDIA
  {
    if frames :| Speakable(frames) && Message(audio, TaskFailed) in frames { MissedFailureIsAudible(frames, audio); }
    if audio.Chunk? && |audio.bytes| <= MAX_MEDIA { var frames := AudibleFailureIsMissed(audio.bytes); }
  }

  lemma {:induction false} AudioIsPart(frames: seq<Frame>, i: nat)
    requires i < |frames|
    ensures |ChunkOf(frames[i])| <= |AudioOf(frames)|
  {
    if i < |frames| - 1 { AudioIsPart(frames[..|frames| - 1], i); }
  }
}
