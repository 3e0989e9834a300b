/** The LTX provider's submit loop (internal/infra/ltx/provider.go), and its composition with
    the generation protocol: one job per key, however often the request is repeated. */
module LtxSubmit {
  import opened Options
  import opened ProviderErrors
  import opened TaskStore
  import opened GenerationProtocol
  import opened ProtocolSafety

  /** The body of a successful response: a decoded job id, or the error of reading or decoding
      it, which may be the end of the context. */
  datatype Body = JobIdField(id: string) | Undecodable(cause: Fault)

  /** What became of one POST. */
  datatype Post = NoResponse(cause: Fault) | Response(code: int, body: Body)

  predicate IsSuccess(code: int) { 200 <= code < 300 }

  /** 404 and 429 say that the job was not accepted. Anything else may have created a job. */
  predicate Rejected(p: Post) {
    p.Response? && (p.code == 404 || p.code == 429)
  }

  /** `provider.FromHTTP`. */
  function FromHTTP(code: int): Fault {
    var kind :=
      if code in {400, 422} then InvalidArgument
      else if code in {401, 403} then Configuration
      else if code == 429 then RateLimited
      else if code in {408, 504} then Timeout
      else Unavailable;
    Typed(kind, "provider returned HTTP", None)
  }

  datatype Submitted = JobId(id: string) | SubmitError(error: Fault)

  /** What one submit does, with the answers it gets: looks at the context, POSTs, and waits
      between tries, which the end of the context cuts short. */
  datatype Event = Look(ended: Option<Fault>) | Posted(answer: Post) | Waited(ms: nat, ended: Option<Fault>)

  predicate FromContext(f: Fault) { f == Canceled || f == DeadlineExceeded }

  /** The LTX server behind a context that may end at any moment. */
  class Server {
    var log: seq<Event>

    constructor ()
      ensures log == []
    {
      log := [];
    }

    method DoPost() returns (p: Post)
      modifies this
      ensures log == old(log) + [Posted(p)]
    {
      p :| true;
      log := log + [Posted(p)];
    }

    /** `ctx.Err()`. */
    method ContextError() returns (ended: Option<Fault>)
      modifies this
      ensures log == old(log) + [Look(ended)] && (ended.Some? ==> FromContext(ended.value))
    {
      ended :| ended.Some? ==> FromContext(ended.value);
      log := log + [Look(ended)];
    }

    /** The `select` between the timer and the context. */
    method Wait(ms: nat) returns (ended: Option<Fault>)
      modifies this
      ensures log == old(log) + [Waited(ms, ended)] && (ended.Some? ==> FromContext(ended.value))
    {
      ended :| ended.Some? ==> FromContext(ended.value);
      log := log + [Waited(ms, ended)];
    }
  }

  /** The end of the context that an event reports. */
  function EndIn(event: Event): Option<Fault> { if event.Posted? then None else event.ended }

  /** What one POST means for the caller. */
  function ResultOf(p: Post): Submitted {
    match p
    case NoResponse(cause) => SubmitError(Typed(Unavailable, "submit failed", Some(cause)))
    case Response(code, body) =>
      if !IsSuccess(code) then SubmitError(FromHTTP(code)) else
      match body
      case JobIdField(id) =>
        if id == "" then SubmitError(Typed(InvalidResponse, "submit returned no job_id", None)) else JobId(id)
      case Undecodable(cause) => SubmitError(Typed(InvalidResponse, "decode submit response", Some(cause)))
  }

  /** A try that leads to another one: the context lives, the POST is rejected, and the wait of
      `ms` milliseconds is not cut short. */
  predicate FullTry(events: seq<Event>, ms: nat) {
    && |events| == 3 && events[0] == Look(None)
    && events[1].Posted? && Rejected(events[1].answer)
    && events[2] == Waited(ms, None)
  }

  predicate CutShort(ended: Option<Fault>, r: Submitted) {
    ended.Some? && FromContext(ended.value) && r == SubmitError(ended.value)
  }

  /** The last try. It ends with the context before the POST, when there was no response, or
      while it waits for another try; otherwise with what the POST means, and a rejection ends
      the third try only. */
  predicate LastTry(events: seq<Event>, attempt: nat, r: Submitted) {
    && 1 <= |events| <= 3 && events[0].Look?
    && if |events| == 1 then CutShort(events[0].ended, r) else
       && events[0].ended == None && events[1].Posted?
       && var post := events[1].answer;
       if |events| == 2 then post.Response? && (Rejected(post) ==> attempt == 3) && r == ResultOf(post)
       else if post.NoResponse? then
         events[2].Look? && if events[2].ended == None then r == ResultOf(post) else CutShort(events[2].ended, r)
       else
         && Rejected(post) && attempt < 3
         && events[2].Waited? && events[2].ms == attempt * 300 && CutShort(events[2].ended, r)
  }

  /** A submit with `n` tries before the last one. */
  predicate SubmitRunOf(log: seq<Event>, n: nat, r: Submitted) {
    && n <= 2 && 3 * n < |log|
    && (n >= 1 ==> FullTry(log[..3], 300))
    && (n >= 2 ==> FullTry(log[3..6], 600))
    && LastTry(log[3 * n..], n + 1, r)
  }

  ghost predicate SubmitRun(log: seq<Event>, r: Submitted) { exists n :: SubmitRunOf(log, n, r) }

  /** The body of the loop. */
  method TryOnce(server: Server, attempt: nat) returns (r: Option<Submitted>, ghost events: seq<Event>)
    requires 1 <= attempt <= 3
    modifies server
    ensures server.log == old(server.log) + events
    ensures if r.Some? then LastTry(events, attempt, r.value) else attempt < 3 && FullTry(events, attempt * 300)
  {
    var ended := server.ContextError();
    events := [Look(ended)];
    if ended.Some? { return Some(SubmitError(ended.value)), events; }
    var post := server.DoPost();
    events := events + [Posted(post)];
    match post {
      case NoResponse(cause) =>
        ended := server.ContextError();
        events := events + [Look(ended)];
        if ended.Some? { return Some(SubmitError(ended.value)), events; }
        return Some(SubmitError(Typed(Unavailable, "submit failed", Some(cause)))), events;
      case Response(code, body) =>
        if IsSuccess(code) {
          if body.Undecodable? {
            return Some(SubmitError(Typed(InvalidResponse, "decode submit response", Some(body.cause)))), events;
          }
          if body.id == "" {
            return Some(SubmitError(Typed(InvalidResponse, "submit returned no job_id", None))), events;
          }
          return Some(JobId(body.id)), events;
        }
        if !Rejected(post) || attempt == 3 { return Some(SubmitError(FromHTTP(code))), events; }
    }
    ended := server.Wait(attempt * 300);
    events := events + [Waited(attempt * 300, ended)];
    r := if ended.Some? then Some(SubmitError(ended.value)) else None;
  }

  method Submit(server: Server) returns (r: Submitted)
    modifies server
    ensures |old(server.log)| <= |server.log| && server.log[..|old(server.log)|] == old(server.log)
    ensures SubmitRun(server.log[|old(server.log)|..], r)
  {
    ghost var before, log := server.log, [];
    for attempt := 1 to 4
      invariant server.log == before + log && |log| == 3 * (attempt - 1)
      invariant attempt <= 3
      invariant attempt >= 2 ==> FullTry(log[..3], 300)
      invariant attempt >= 3 ==> FullTry(log[3..6], 600)
    {
      var done, events := TryOnce(server, attempt);
      ghost var earlier := log;
      log := log + events;
      assert log[3 * (attempt - 1)..] == events && log[..|earlier|] == earlier;
      if done.Some? {
        assert SubmitRunOf(log, attempt - 1, done.value);
        assert server.log[|before|..] == log;
        return done.value;
      }
    }
    return SubmitError(Typed(Unavailable, "submit exhausted retry budget", None));
  }

  // What the log of a submit says about its POSTs

  function PostsIn(log: seq<Event>): seq<Post> {
    if log == [] then [] else
      PostsIn(log[..|log| - 1]) + (if log[|log| - 1].Posted? then [log[|log| - 1].answer] else [])
  }

  /** The POSTs of one submit: at most three, and every one but the last was rejected. */
  ghost predicate PostRun(posts: seq<Post>) {
    && |posts| <= 3
    && forall i :: 0 <= i < |posts| - 1 ==> Rejected(posts[i])
  }

  /** The error after a list of POSTs the last of which gave no job: it classifies that POST.
      Only a rejection before the third try, no response, or no POST at all may instead end with
      the context. */
  predicate FailsWith(posts: seq<Post>, f: Fault) {
    if posts == [] then FromContext(f)
    else
      var last := posts[|posts| - 1];
      || (FromContext(f) && (last.NoResponse? || (Rejected(last) && |posts| < 3)))
      || (ResultOf(last) == SubmitError(f) && !(Rejected(last) && |posts| < 3))
  }

  lemma PostsOfTwo(a: seq<Event>, b: seq<Event>)
    ensures PostsIn(a + b) == PostsIn(a) + PostsIn(b)
  {
    if b == [] {
      assert a + b == a;
    } else {
      assert (a + b)[..|a + b| - 1] == a + b[..|b| - 1];
    }
  }

  lemma PostOfTry(events: seq<Event>)
    requires 1 <= |events| <= 3 && events[0].Look? && (|events| > 1 ==> events[1].Posted?)
    requires |events| > 2 ==> !events[2].Posted?
    ensures PostsIn(events) == if |events| == 1 then [] else [events[1].answer]
  {
    assert PostsIn(events[..0]) == [] && events[..1][..0] == events[..0];
    assert PostsIn(events[..1]) == [];
    if |events| > 1 {
      assert events[..2][..1] == events[..1];
      assert events[..|events|] == events;
    }
  }

  lemma {:induction false} PostsOfFullTry(log: seq<Event>, ms: nat)
    requires |log| >= 3 && FullTry(log[..3], ms)
    ensures PostsIn(log) == [log[1].answer] + PostsIn(log[3..])
  {
    assert log == log[..3] + log[3..];
    PostsOfTwo(log[..3], log[3..]);
    PostOfTry(log[..3]);
  }

  /** The POSTs of a submit: those of the tries before the last one, and that of the last one. */
  lemma {:induction false} PostsOfRun(log: seq<Event>, n: nat, r: Submitted)
    requires SubmitRunOf(log, n, r)
    ensures var last := log[3 * n..];
            PostsIn(log) == (if n >= 1 then [log[1].answer] else []) + (if n >= 2 then [log[4].answer] else []) +
                            (if |last| == 1 then [] else [last[1].answer])
  {
    PostOfTry(log[3 * n..]);
    if n >= 1 { PostsOfFullTry(log, 300); }
    if n >= 2 {
      assert log[3..][..3] == log[3..6] && log[3..][3..] == log[6..];
      PostsOfFullTry(log[3..], 600);
    }
    if n == 0 { assert log[0..] == log; }
  }

  /** The error of the context is returned only when the last look or wait found it ended: before
      a first try, before another one, or when there was no response. Otherwise there was a POST,
      what it means is the result, and a rejection was the third. */
  predicate Means(posts: seq<Post>, end: Option<Fault>, r: Submitted) {
    if end.Some? then
      && r == SubmitError(end.value) && FromContext(end.value)
      && (posts == [] || posts[|posts| - 1].NoResponse? || (Rejected(posts[|posts| - 1]) && |posts| < 3))
    else
      && posts != [] && r == ResultOf(posts[|posts| - 1])
      && (Rejected(posts[|posts| - 1]) ==> |posts| == 3)
  }

  lemma {:induction false} RunMeans(log: seq<Event>, n: nat, r: Submitted)
    requires SubmitRunOf(log, n, r)
    ensures PostRun(PostsIn(log)) && Means(PostsIn(log), EndIn(log[|log| - 1]), r)
  {
    PostsOfRun(log, n, r);
    var last := log[3 * n..];
    assert last[|last| - 1] == log[|log| - 1];
    if n >= 1 { assert log[..3][1] == log[1]; }
    if n >= 2 { assert log[3..6][1] == log[4]; }
  }

  lemma {:induction false} SubmitMeans(log: seq<Event>, r: Submitted)
    requires SubmitRun(log, r)
    ensures PostRun(PostsIn(log)) && log != [] && Means(PostsIn(log), EndIn(log[|log| - 1]), r)
    ensures r.SubmitError? ==> FailsWith(PostsIn(log), r.error)
  {
    var n :| SubmitRunOf(log, n, r);
    RunMeans(log, n, r);
  }

  /** While the context lives the server's answers decide everything: the submit goes on exactly
      after rejections, up to the third try, and returns what the last answer means. */
  lemma {:induction false} AnswersDecide(answers: nat -> Post, log: seq<Event>, r: Submitted)
    requires SubmitRun(log, r) && forall i :: 0 <= i < |log| ==> EndIn(log[i]) == None
    requires forall k :: 0 <= k < |PostsIn(log)| ==> PostsIn(log)[k] == answers(k)
    ensures var tries := if !Rejected(answers(0)) then 1 else if !Rejected(answers(1)) then 2 else 3;
            |PostsIn(log)| == tries && r == ResultOf(answers(tries - 1))
  {
    SubmitMeans(log, r);
  }

  /** While the context lives, a job that is accepted after at most two rejections is returned,
      whatever the server would have answered later. */
  lemma {:induction false} AcceptedAfterRejections(answers: nat -> Post, k: nat, code: int, id: string,
      log: seq<Event>, r: Submitted)
    requires SubmitRun(log, r) && forall i :: 0 <= i < |log| ==> EndIn(log[i]) == None
    requires forall i :: 0 <= i < |PostsIn(log)| ==> PostsIn(log)[i] == answers(i)
    requires k <= 2 && forall i :: 0 <= i < k ==> answers(i).Response? && answers(i).code in {404, 429}
    requires 200 <= code < 300 && id != "" && answers(k) == Response(code, JobIdField(id))
    ensures |PostsIn(log)| == k + 1 && r == JobId(id)
  {
    AnswersDecide(answers, log, r);
  }

  /** Not found at first, accepted then. */
  lemma {:induction false} NotFoundThenAccepted(body: Body, log: seq<Event>)
    requires log == [Look(None), Posted(Response(404, body)), Waited(300, None),
                     Look(None), Posted(Response(200, JobIdField("job-1")))]
    ensures forall r :: SubmitRun(log, r) <==> r == JobId("job-1")
  {
    assert log[3..] == [Look(None), Posted(Response(200, JobIdField("job-1")))];
    assert SubmitRunOf(log, 1, JobId("job-1"));
    assert log[0..] == log;
    forall r | SubmitRun(log, r) ensures r == JobId("job-1") {
      var n :| SubmitRunOf(log, n, r);
    }
  }

  /** The error of a refused POST and what is stored for it, code by code. */
  lemma RefusalIsStoredAs(code: int)
    ensures var f := FromHTTP(code); var v := SubmitVerdict(f);
      && f.Typed? && f.cause == None
      && (code == 400 || code == 422 ==> f.kind == InvalidArgument && v.code == 3 && v.reason == "INVALID_ARGUMENT")
      && (code == 401 || code == 403 ==> f.kind == Configuration && v.code == 9 && v.reason == "CONFIGURATION_ERROR")
      && (code == 429 ==> f.kind == RateLimited && v.code == 8 && v.reason == "RATE_LIMITED")
      && (code == 408 || code == 504 ==> f.kind == Timeout)
      && (code !in {400, 401, 403, 408, 422, 429, 504} ==> f.kind == Unavailable)
      && (code !in {400, 401, 403, 422, 429} ==> v.code == 14 && v.reason == "SUBMIT_OUTCOME_UNKNOWN")
  {
    assert AsTyped(FromHTTP(code)) == Some(FromHTTP(code));
  }

  // Composition

  /** How many POSTs of a list may have created a job. */
  function MayHaveCreated(posts: seq<Post>): nat {
    if posts == [] then 0 else (if Rejected(posts[0]) then 0 else 1) + MayHaveCreated(posts[1..])
  }

  lemma {:induction false} MayHaveCreatedAppend(a: seq<Post>, b: seq<Post>)
    ensures MayHaveCreated(a + b) == MayHaveCreated(a) + MayHaveCreated(b)
  {
    if a == [] {
      assert a + b == b;
    } else {
      assert (a + b)[1..] == a[1..] + b;
      MayHaveCreatedAppend(a[1..], b);
    }
  }

  /** One submit creates at most one job. */
  lemma {:induction false} OneSubmitCreatesAtMostOne(posts: seq<Post>)
    requires PostRun(posts)
    ensures MayHaveCreated(posts) <= 1
  {
    if |posts| > 1 {
      assert forall i :: 0 <= i < |posts[1..]| ==> posts[1..][i] == posts[i + 1];
      OneSubmitCreatesAtMostOne(posts[1..]);
    } else if |posts| == 1 {
      assert posts[1..] == [];
    }
  }

  /** All POSTs sent for one key by the first `n` submissions of a run; `sent` says which POSTs
      each submission made. */
  ghost function PostsForKey(s: System, key: Key, sent: map<TaskId, seq<Post>>, n: nat): seq<Post>
    requires n <= |s.submitted|
    requires forall i :: 0 <= i < |s.submitted| ==> SubmitAt(s, s.submitted[i]) && s.submitted[i] in sent
  {
    if n == 0 then [] else
      PostsForKey(s, key, sent, n - 1) +
      (if s.requests[s.submitted[n - 1]].what.key == key then sent[s.submitted[n - 1]] else [])
  }

  /** Whatever requests, repeats, failures and crashes there are, at most one of all POSTs ever
      sent for one (caller, request_id) can have created a job at LTX. */
  lemma {:induction false} AtMostOneJobPerKey(s: System, key: Key, sent: map<TaskId, seq<Post>>, n: nat)
    requires Reachable(s) && n <= |s.submitted|
    requires forall i :: 0 <= i < |s.submitted| ==>
             SubmitAt(s, s.submitted[i]) && s.submitted[i] in sent && PostRun(sent[s.submitted[i]])
    ensures MayHaveCreated(PostsForKey(s, key, sent, n)) <= 1
    ensures (forall i :: 0 <= i < n ==> s.requests[s.submitted[i]].what.key != key) ==>
            PostsForKey(s, key, sent, n) == []
  {
    if n > 0 {
      var last := s.submitted[n - 1];
      AtMostOneJobPerKey(s, key, sent, n - 1);
      if s.requests[last].what.key == key {
        forall i | 0 <= i < n - 1 ensures s.requests[s.submitted[i]].what.key != key {
          AtMostOneSubmission(s, i, n - 1);
        }
        OneSubmitCreatesAtMostOne(sent[last]);
        assert PostsForKey(s, key, sent, n) == sent[last];
      } else {
        assert PostsForKey(s, key, sent, n) == PostsForKey(s, key, sent, n - 1);
      }
    }
  }

  // What the service stores, against what may have happened

  /** Codes that `FromHTTP` takes for a refusal by the provider. */
  predicate TakenForRefusal(code: int) { code in {400, 401, 403, 422, 429} }

  predicate EndedByContext(cause: Fault) { Is(cause, Canceled) || Is(cause, DeadlineExceeded) }

  /** The failure is stored as "outcome unknown". */
  predicate StoredAsUnknown(f: Fault) { SubmitVerdict(f).reason == SubmitOutcomeUnknown.Reason() }

  /** The POSTs after which a failure is stored as "outcome unknown": none, no response to the
      last, a response whose body was lost with the context, a rejection during the wait for
      another try, or a code that is not taken for a refusal. */
  predicate LooksUnknown(posts: seq<Post>) {
    posts == [] ||
    match posts[|posts| - 1]
    case NoResponse(_) => true
    case Response(code, body) =>
      if IsSuccess(code) then body.Undecodable? && EndedByContext(body.cause)
      else (Rejected(posts[|posts| - 1]) && |posts| < 3) || !TakenForRefusal(code)
  }

  lemma StoredAsUnknownExactlyWhen(posts: seq<Post>, f: Fault)
    requires PostRun(posts) && FailsWith(posts, f)
    ensures StoredAsUnknown(f) <==> LooksUnknown(posts)
  {
    UnknownExactlyWhenTakenForUncertain(f);
    assert !FromContext(f) ==> AsTyped(f) == Some(f);
  }

  lemma {:induction false} OnlyTheLastMayHaveCreated(posts: seq<Post>)
    requires PostRun(posts)
    ensures MayHaveCreated(posts) == if posts == [] || Rejected(posts[|posts| - 1]) then 0 else 1
  {
    if |posts| > 1 {
      assert forall i :: 0 <= i < |posts[1..]| ==> posts[1..][i] == posts[i + 1];
      OnlyTheLastMayHaveCreated(posts[1..]);
    } else if |posts| == 1 {
      assert posts[1..] == [];
    }
  }

  /** A POST that may have created a job is not stored as unknown exactly when the last response
      was a success without a usable body (and the context lives), or was taken for a refusal. */
  lemma PossibleJobIsNotMarkedExactlyWhen(posts: seq<Post>, f: Fault)
    requires PostRun(posts) && FailsWith(posts, f)
    ensures MayHaveCreated(posts) == 1 && !StoredAsUnknown(f) <==>
            && posts != [] && var last := posts[|posts| - 1];
            && last.Response?
            && if IsSuccess(last.code) then last.body.Undecodable? ==> !EndedByContext(last.body.cause)
               else last.code in {400, 401, 403, 422}
  {
    StoredAsUnknownExactlyWhen(posts, f);
    OnlyTheLastMayHaveCreated(posts);
  }

  /** POSTs that cannot have created a job are stored as unknown all the same exactly when the
      context ended before a first or a further try, or the third answer was 404. */
  lemma CertainRejectionIsMarkedExactlyWhen(posts: seq<Post>, f: Fault)
    requires PostRun(posts) && FailsWith(posts, f)
    ensures MayHaveCreated(posts) == 0 && StoredAsUnknown(f) <==>
            posts == [] || var last := posts[|posts| - 1]; Rejected(last) && (|posts| < 3 || last.code == 404)
  {
    StoredAsUnknownExactlyWhen(posts, f);
    OnlyTheLastMayHaveCreated(posts);
  }

  /** An accepted POST whose response has no job id is stored as a definite failure. */
  lemma AcceptedWithoutIdIsNotMarked(code: int)
    requires IsSuccess(code)
    ensures var posts := [Response(code, JobIdField(""))];
            var f := Typed(InvalidResponse, "submit returned no job_id", None);
            PostRun(posts) && FailsWith(posts, f) && MayHaveCreated(posts) == 1 && !StoredAsUnknown(f)
  {
    var posts := [Response(code, JobIdField(""))];
    PossibleJobIsNotMarkedExactlyWhen(posts, Typed(InvalidResponse, "submit returned no job_id", None));
  }

  /** Three times 404 is a certain rejection, and is stored as unknown. */
  lemma ThriceNotFoundIsMarked(body: Body)
    ensures var posts := [Response(404, body), Response(404, body), Response(404, body)];
            PostRun(posts) && FailsWith(posts, FromHTTP(404)) && MayHaveCreated(posts) == 0 &&
                StoredAsUnknown(FromHTTP(404))
  {
    CertainRejectionIsMarkedExactlyWhen([Response(404, body), Response(404, body), Response(404, body)], FromHTTP(404));
  }

  /** So is a context that ended before the first POST. */
  lemma NothingSentIsMarked()
    ensures PostRun([]) && FailsWith([], Canceled) && MayHaveCreated([]) == 0 && StoredAsUnknown(Canceled)
  {
    CertainRejectionIsMarkedExactlyWhen([], Canceled);
  }
}
