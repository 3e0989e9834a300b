/** `RunVideoJob` (internal/provider/video_job.go): submit once, poll until the job ends or
    the deadline passes, then read the result once. */
module VideoJob {
  import opened Options
  import opened ProviderErrors

  const MILLISECOND := 1_000_000
  const SECOND := 1000 * MILLISECOND

  datatype JobState = Running | Succeeded | Failed

  datatype Job = Job(state: JobState, pollAfterMs: int, error: Option<Fault>)

  datatype Result<T> = Ok(value: T) | Err(error: Fault)

  /** The calls a provider sees, with the time (in nanoseconds) at which each one started. */
  datatype Call =
    | SubmitCall(at: nat, answer: Result<string>)
    | PollCall(at: nat, id: string, job: Result<Job>)
    | ReadCall(at: nat, id: string, outcome: Result<()>)

  datatype Woken = TimerFired | ContextDone(error: Fault)

  /** A wait between polls, and what ended it. */
  datatype Waited = Waited(duration: nat, woken: Woken)

  /** A provider behind a context with a deadline. Calls take any time and answer anything;
      a poll that starts after the deadline fails, because its request is bound to the
      context. The context may also be cancelled at any time. */
  class Upstream {
    var now: nat
    var calls: seq<Call>
    var waits: seq<Waited>
    const deadline: nat

    constructor (now: nat, deadline: nat)
      ensures this.now == now && this.deadline == deadline && calls == [] && waits == []
    {
      this.now, this.deadline, calls, waits := now, deadline, [], [];
    }

    method Pass()
      modifies this`now
      ensures now >= old(now)
    {
      var elapsed: nat :| true;
      now := now + elapsed;
    }

    method SubmitVideo() returns (r: Result<string>)
      modifies this`now, this`calls
      ensures now >= old(now) && calls == old(calls) + [SubmitCall(old(now), r)]
    {
      r :| true;
      calls := calls + [SubmitCall(now, r)];
      Pass();
    }

    method GetVideo(id: string) returns (r: Result<Job>)
      modifies this`now, this`calls
      ensures now >= old(now) && calls == old(calls) + [PollCall(old(now), id, r)]
      ensures old(now) >= deadline ==> r.Err?
    {
      r :| now >= deadline ==> r == Err(DeadlineExceeded);
      calls := calls + [PollCall(now, id, r)];
      Pass();
    }

    method ReadVideoResult(id: string) returns (r: Result<()>)
      modifies this`now, this`calls
      ensures now >= old(now) && calls == old(calls) + [ReadCall(old(now), id, r)]
    {
      r :| true;
      calls := calls + [ReadCall(now, id, r)];
      Pass();
    }

    /** The `select` between the timer and the context; when both are ready either may win. */
    method Wait(duration: nat) returns (r: Woken)
      modifies this`now, this`waits
      ensures now >= old(now) && waits == old(waits) + [Waited(duration, r)]
      ensures r.TimerFired? ==> now >= old(now) + duration
      ensures r == ContextDone(DeadlineExceeded) ==> now >= deadline
      ensures r.ContextDone? ==> r.error == DeadlineExceeded || r.error == Canceled
    {
      Pass();
      r :| r == TimerFired || r == ContextDone(Canceled) || (now >= deadline && r == ContextDone(DeadlineExceeded));
      if r == TimerFired { now := now + duration; }
      waits := waits + [Waited(duration, r)];
    }
  }

  predicate StillRunning(c: Call) {
    c.PollCall? && c.job.Ok? && c.job.value.state == Running
  }

  /** What a running job asks for: its poll interval, or a second. */
  function Interval(job: Job): (wait: nat)
    ensures wait >= MILLISECOND
  {
    if job.pollAfterMs > 0 then job.pollAfterMs * MILLISECOND else SECOND
  }

  /** Poll `c` found the job running before the deadline, and the wait it asks for was not cut
      short. */
  predicate GoesOn(c: Call, wait: Waited, deadline: nat) {
    StillRunning(c) && c.at < deadline && wait == Waited(Interval(c.job.value), TimerFired)
  }

  /** `polls` is a run of polls of job `id` from time `start` on. All but the last found the job
      running, and the next poll came when the interval that was asked for had passed. */
  ghost predicate PollRun(polls: seq<Call>, waits: seq<Waited>, id: string, start: nat, deadline: nat) {
    && polls != [] && |waits| >= |polls| - 1 && polls[0].at >= start
    && (forall i :: 0 <= i < |polls| ==> polls[i].PollCall? && polls[i].id == id)
    && (forall i :: 0 <= i < |polls| - 1 ==>
          GoesOn(polls[i], waits[i], deadline) && polls[i + 1].at >= polls[i].at + Interval(polls[i].job.value))
  }

  /** A poll after which the job ends without a read, the wait after it, and the result then. A
      running job ends only with the context, during the wait. */
  ghost predicate EndsWith(poll: Call, wait: seq<Waited>, deadline: nat, r: Result<()>) {
    poll.PollCall? &&
    match poll.job
    case Err(e) => wait == [] && r == Err(e)
    case Ok(job) =>
      if job.state == Failed then wait == [] && r == Err(if job.error.Some? then job.error.value
          else Typed(Unavailable, "video job failed", None))
      else
        && job.state == Running && poll.at < deadline
        && (r == Err(Canceled) || r == Err(DeadlineExceeded))
        && wait == [Waited(Interval(job), ContextDone(r.error))]
  }

  predicate FoundSucceeded(poll: Call) {
    poll.PollCall? && poll.job.Ok? && poll.job.value.state == Succeeded
  }

  predicate IsRead(read: seq<Call>, id: string, outcome: Result<()>) {
    |read| == 1 && read[0].ReadCall? && read[0].id == id && read[0].outcome == outcome
  }

  /** What one job did: one submit; if it was accepted, a run of polls with the waits between
      them; and one read, only directly after a poll that found the job succeeded. The result is
      that of the last call, or the end of the context that the last wait reports. */
  ghost predicate JobTrace(calls: seq<Call>, waits: seq<Waited>, start: nat, deadline: nat, r: Result<()>) {
    && |calls| >= 1 && calls[0].SubmitCall?
    && match calls[0].answer
       case Err(e) => |calls| == 1 && waits == [] && r == Err(e)
       case Ok(id) =>
         && |calls| >= 2
         && var last := calls[|calls| - 1];
         if last.ReadCall? then
           && |calls| >= 3 && PollRun(calls[1..|calls| - 1], waits, id, start, deadline) && |waits| == |calls| - 3
           && FoundSucceeded(calls[|calls| - 2]) && last.id == id && r == last.outcome
         else PollRun(calls[1..], waits, id, start, deadline) && EndsWith(last, waits[|calls| - 2..], deadline, r)
  }

  /** The run before the next poll. */
  ghost predicate Waiting(polls: seq<Call>, waits: seq<Waited>, id: string, start: nat, deadline: nat, now: nat) {
    && |waits| == |polls| && now >= start
    && (polls != [] ==>
          && PollRun(polls, waits, id, start, deadline)
          && var last := polls[|polls| - 1];
          GoesOn(last, waits[|polls| - 1], deadline) && now >= last.at + Interval(last.job.value))
  }

  lemma OneMorePoll(polls: seq<Call>, waits: seq<Waited>, id: string, start: nat, deadline: nat, poll: Call,
      more: seq<Waited>)
    requires poll.PollCall? && poll.id == id && Waiting(polls, waits, id, start, deadline, poll.at)
    ensures PollRun(polls + [poll], waits + more, id, start, deadline)
    ensures (waits + more)[|polls|..] == more
  {
    var all, w := polls + [poll], waits + more;
    forall i | 0 <= i < |all| - 1
      ensures GoesOn(all[i], w[i], deadline) && all[i + 1].at >= all[i].at + Interval(all[i].job.value)
    {
      assert all[i] == polls[i] && w[i] == waits[i];
      if i < |polls| - 1 { assert all[i + 1] == polls[i + 1]; }
    }
  }

  /** The trace when poll `polls` ended the job with result `r`, after a read if there is one. */
  lemma TraceEnds(first: Call, polls: seq<Call>, waits: seq<Waited>, read: seq<Call>, start: nat, deadline: nat,
      r: Result<()>)
    requires first.SubmitCall? && first.answer.Ok?
    requires PollRun(polls, waits, first.answer.value, start, deadline)
    requires if read == [] then EndsWith(polls[|polls| - 1], waits[|polls| - 1..], deadline, r)
             else FoundSucceeded(polls[|polls| - 1]) && |waits| == |polls| - 1 && IsRead(read, first.answer.value, r)
    ensures JobTrace([first] + polls + read, waits, start, deadline, r)
  {
    var calls := [first] + polls + read;
    assert calls[1..|calls| - |read|] == polls;
  }

  /** One poll and what follows it: the final result, or the wait that the job asks for. */
  method PollOnce(video: Upstream, id: string) returns (done: Option<Result<()>>, ghost poll: Call,
    ghost wait: seq<Waited>, ghost read: seq<Call>)
    modifies video
    ensures video.calls == old(video.calls) + [poll] + read && video.waits == old(video.waits) + wait
    ensures poll.PollCall? && poll.at == old(video.now) && poll.id == id && video.now >= old(video.now)
    ensures done == None ==>
              && read == [] && |wait| == 1 && GoesOn(poll, wait[0], video.deadline)
              && video.now >= old(video.now) + Interval(poll.job.value)
    ensures done.Some? ==>
              if read == [] then EndsWith(poll, wait, video.deadline, done.value)
              else FoundSucceeded(poll) && wait == [] && IsRead(read, id, done.value)
  {
    ghost var at := video.now;
    var job := video.GetVideo(id);
    poll, wait, read := PollCall(at, id, job), [], [];
    if job.Err? { return Some(Err(job.error)), poll, wait, read; }
    match job.value.state {
      case Succeeded =>
        ghost var readAt := video.now;
        var outcome := video.ReadVideoResult(id);
        return Some(outcome), poll, wait, [ReadCall(readAt, id, outcome)];
      case Failed =>
        return Some(Err(if job.value.error.Some? then job.value.error.value
            else Typed(Unavailable, "video job failed", None))), poll, wait, read;
      case Running =>
        var pause := job.value.pollAfterMs * MILLISECOND;
        if pause <= 0 { pause := SECOND; }
        var woken := video.Wait(pause);
        wait := [Waited(pause, woken)];
        done := if woken.ContextDone? then Some(Err(woken.error)) else None;
    }
  }

  /** The polling loop; `start` is the time at which the job was submitted. */
  method AwaitJob(video: Upstream, id: string, ghost start: nat)
    returns (r: Result<()>, ghost polls: seq<Call>, ghost waits: seq<Waited>, ghost read: seq<Call>)
    requires video.now >= start
    modifies video
    ensures video.calls == old(video.calls) + (polls + read) && video.waits == old(video.waits) + waits
    ensures PollRun(polls, waits, id, start, video.deadline)
    ensures if read == [] then EndsWith(polls[|polls| - 1], waits[|polls| - 1..], video.deadline, r)
            else FoundSucceeded(polls[|polls| - 1]) && |waits| == |polls| - 1 && IsRead(read, id, r)
  {
    polls, waits, read := [], [], [];
    while true
      invariant video.calls == old(video.calls) + polls && video.waits == old(video.waits) + waits
      invariant Waiting(polls, waits, id, start, video.deadline, video.now)
      decreases if video.now < video.deadline then video.deadline - video.now else 0
    {
      var done, poll, wait, last := PollOnce(video, id);
      OneMorePoll(polls, waits, id, start, video.deadline, poll, wait);
      polls, waits := polls + [poll], waits + wait;
      if done.Some? { return done.value, polls, waits, last; }
    }
  }

  method RunVideoJob(video: Upstream?) returns (r: Result<()>)
    modifies video
    ensures video == null ==> r == Err(Typed(Configuration, "video provider is required", None))
    ensures video != null ==>
              && |old(video.calls)| <= |video.calls| && video.calls[..|old(video.calls)|] == old(video.calls)
              && |old(video.waits)| <= |video.waits| && video.waits[..|old(video.waits)|] == old(video.waits)
              && JobTrace(video.calls[|old(video.calls)|..], video.waits[|old(video.waits)|..], old(video.now),
                          video.deadline, r)
  {
    if video == null { return Err(Typed(Configuration, "video provider is required", None)); }
    ghost var before, waited, start := video.calls, video.waits, video.now;
    var submitted := video.SubmitVideo();
    ghost var first := SubmitCall(start, submitted);
    if submitted.Err? {
      assert video.waits[|waited|..] == [];
      return Err(submitted.error);
    }
    ghost var polls, waits, read;
    r, polls, waits, read := AwaitJob(video, submitted.value, start);
    TraceEnds(first, polls, waits, read, start, video.deadline, r);
    assert video.calls == before + ([first] + polls + read) && video.waits == waited + waits;
  }

  /** Every poll of a run starts at least a millisecond after the one before it. */
  lemma {:induction false} PollsAreApart(polls: seq<Call>, waits: seq<Waited>, id: string, start: nat, deadline: nat,
      i: nat)
    requires PollRun(polls, waits, id, start, deadline) && i < |polls|
    ensures polls[i].at >= start + i * MILLISECOND
  {
    if i > 0 {
      PollsAreApart(polls, waits, id, start, deadline, i - 1);
      assert GoesOn(polls[i - 1], waits[i - 1], deadline);
    }
  }

  lemma RunIsBounded(polls: seq<Call>, waits: seq<Waited>, id: string, start: nat, budgetMs: nat)
    requires PollRun(polls, waits, id, start, start + budgetMs * MILLISECOND)
    ensures |polls| <= budgetMs + 1
  {
    if |polls| >= 2 {
      var i := |polls| - 2;
      PollsAreApart(polls, waits, id, start, start + budgetMs * MILLISECOND, i);
      assert GoesOn(polls[i], waits[i], start + budgetMs * MILLISECOND);
    }
  }

  /** With `budgetMs` milliseconds until the deadline a job is polled at most budgetMs + 1
      times, whatever the provider asks for as poll interval. */
  lemma PollsAreBounded(calls: seq<Call>, waits: seq<Waited>, start: nat, budgetMs: nat, r: Result<()>)
    requires JobTrace(calls, waits, start, start + budgetMs * MILLISECOND, r)
    ensures |(set i | 0 <= i < |calls| && calls[i].PollCall?)| <= budgetMs + 1
    ensures |calls| <= budgetMs + 3
  {
    var n := |calls|;
    var polls := if calls[n - 1].ReadCall? then calls[1..n - 1] else calls[1..];
    if calls[0].answer.Ok? { RunIsBounded(polls, waits, calls[0].answer.value, start, budgetMs); }
    SubsetOfRange(set i | 0 <= i < |calls| && calls[i].PollCall?, 1, |polls|);
  }

  lemma {:induction false} SubsetOfRange(s: set<int>, low: int, size: nat)
    requires forall i :: i in s ==> low <= i < low + size
    ensures |s| <= size
  {
    if size == 0 {
      assert forall i :: i in s ==> false;
      assert s <= {};
    } else {
      var last := low + size - 1;
      SubsetOfRange(s - {last}, low, size - 1);
      assert s <= (s - {last}) + {last};
      if last in s { assert s == (s - {last}) + {last}; } else { assert s == s - {last}; }
    }
  }

  /** While the context lives a job that is found running is polled again: the loop ends with a
      running job only when the wait after the last poll reports the end of the context. */
  lemma RunningEndsWithTheContext(calls: seq<Call>, waits: seq<Waited>, start: nat, deadline: nat, r: Result<()>)
    requires JobTrace(calls, waits, start, deadline, r)
    ensures StillRunning(calls[|calls| - 1]) <==> waits != [] && waits[|waits| - 1].woken.ContextDone?
    ensures StillRunning(calls[|calls| - 1]) ==> r == Err(waits[|waits| - 1].woken.error)
  {
    if calls[0].answer.Ok? {
      var n := |calls|;
      var polls := if calls[n - 1].ReadCall? then calls[1..n - 1] else calls[1..];
      if |polls| >= 2 { assert GoesOn(polls[|polls| - 2], waits[|polls| - 2], deadline); }
    }
  }

  /** The next poll comes when the milliseconds that the job asked for have passed, or a second
      when it asked for none. */
  lemma PollComesWhenAsked(calls: seq<Call>, waits: seq<Waited>, start: nat, deadline: nat, r: Result<()>, i: nat)
    requires JobTrace(calls, waits, start, deadline, r)
    requires i + 1 < |calls| && calls[i].PollCall? && calls[i + 1].PollCall?
    ensures StillRunning(calls[i]) && var ms := calls[i].job.value.pollAfterMs;
            calls[i + 1].at >= calls[i].at + (if ms > 0 then ms * 1_000_000 else 1_000_000_000)
  {
    var n := |calls|;
    var polls := if calls[n - 1].ReadCall? then calls[1..n - 1] else calls[1..];
    assert GoesOn(polls[i - 1], waits[i - 1], deadline) && polls[i].at >= polls[i - 1].at +
           Interval(polls[i - 1].job.value);
  }

  /** A result is read at most once, and exactly one submission is made. */
  lemma OneSubmitAndAtMostOneRead(calls: seq<Call>, waits: seq<Waited>, start: nat, deadline: nat, r: Result<()>)
    requires JobTrace(calls, waits, start, deadline, r)
    ensures forall i :: 0 <= i < |calls| ==> (calls[i].SubmitCall? <==> i == 0)
    ensures forall i :: 0 <= i < |calls| && calls[i].ReadCall? ==>
              i == |calls| - 1 && i >= 2 && FoundSucceeded(calls[i - 1])
    ensures r.Ok? ==> calls[|calls| - 1].ReadCall?
  {
    if calls[0].answer.Ok? {
      var n := |calls|;
      var polls := if calls[n - 1].ReadCall? then calls[1..n - 1] else calls[1..];
      forall i | 1 <= i < n && (i < n - 1 || !calls[n - 1].ReadCall?) ensures calls[i].PollCall? {
        assert calls[i] == polls[i - 1];
      }
    }
  }

  /** `GenerateVideo` of the LTX provider: the same job under a deadline, which is reported as
      a timeout of its own kind. */
  method GenerateVideo(video: Upstream) returns (r: Result<()>)
    modifies video
    ensures |old(video.calls)| <= |video.calls| && video.calls[..|old(video.calls)|] == old(video.calls)
    ensures |old(video.waits)| <= |video.waits| && video.waits[..|old(video.waits)|] == old(video.waits)
    ensures exists job: Result<()> ::
              JobTrace(video.calls[|old(video.calls)|..], video.waits[|old(video.waits)|..], old(video.now),
                       video.deadline, job) &&
              r == if job.Err? && Is(job.error, DeadlineExceeded) then
                  Err(Typed(Timeout, "video generation timed out", None)) else job
  {
    var job := RunVideoJob(video);
    if job.Err? && Is(job.error, DeadlineExceeded) { return Err(Typed(Timeout, "video generation timed out", None)); }
    return job;
  }
}
