/** What a receiver of events sees: an emit callback, or the stream of an RPC. */
module Delivery {

  /** One call of the receiver and its answer. */
  datatype Attempt<E> = Attempt(event: E, accepted: bool)

  /** It may answer anything at any time; after a refusal it may accept again. */
  class Receiver<E> {
    var log: seq<Attempt<E>>

    constructor ()
      ensures log == []
    {
      log := [];
    }

    method Take(event: E) returns (ok: bool)
      modifies this
      ensures log == old(log) + [Attempt(event, ok)]
    {
      ok := *;
      log := log + [Attempt(event, ok)];
    }
  }

  function AllTaken<E>(events: seq<E>): (log: seq<Attempt<E>>)
    ensures |log| == |events| && forall i :: 0 <= i < |log| ==> log[i] == Attempt(events[i], true)
  {
    seq(|events|, i requires 0 <= i < |events| => Attempt(events[i], true))
  }

  /** All taken but the last, which is refused. */
  function LastRefused<E>(events: seq<E>): (log: seq<Attempt<E>>)
    requires |events| > 0
    ensures |log| == |events| && forall i :: 0 <= i < |log| ==> log[i] == Attempt(events[i], i < |log| - 1)
  {
    AllTaken(events[..|events| - 1]) + [Attempt(events[|events| - 1], false)]
  }

  predicate Refused<E>(log: seq<Attempt<E>>) { |log| > 0 && !log[|log| - 1].accepted }

  /** The calls made for a list of events: in order, none after a refused one, and all of them
      unless one was refused. */
  ghost predicate Served<E>(offers: seq<E>, log: seq<Attempt<E>>) {
    && |log| <= |offers|
    && (forall i :: 0 <= i < |log| ==> log[i].event == offers[i])
    && (forall i :: 0 <= i < |log| - 1 ==> log[i].accepted)
    && (|log| < |offers| ==> Refused(log))
  }

  /** The events that were accepted. */
  function Accepted<E>(log: seq<Attempt<E>>): seq<E> {
    if |log| == 0 then [] else
      Accepted(log[..|log| - 1]) + (if log[|log| - 1].accepted then [log[|log| - 1].event] else [])
  }

  lemma {:induction false} AllAccepted<E>(log: seq<Attempt<E>>)
    requires forall i :: 0 <= i < |log| ==> log[i].accepted
    ensures |Accepted(log)| == |log| && forall i :: 0 <= i < |log| ==> Accepted(log)[i] == log[i].event
  {
    if |log| > 0 { AllAccepted(log[..|log| - 1]); }
  }

  /** What arrives is what was offered, up to the refused event. */
  lemma AcceptedIsPrefix<E>(offers: seq<E>, log: seq<Attempt<E>>)
    requires Served(offers, log)
    ensures |Accepted(log)| == if Refused(log) then |log| - 1 else |offers|
    ensures Accepted(log) == offers[..|Accepted(log)|]
  {
    if Refused(log) {
      AllAccepted(log[..|log| - 1]);
    } else {
      AllAccepted(log);
    }
  }

  lemma UnrefusedTakesAll<E>(offers: seq<E>, log: seq<Attempt<E>>)
    requires Served(offers, log) && !Refused(log)
    ensures Accepted(log) == offers && log == AllTaken(Accepted(log))
  {
    AllAccepted(log);
  }

  lemma OnlyTheLastIsRefused<E>(offers: seq<E>, log: seq<Attempt<E>>)
    requires Served(offers, log)
    ensures |log| == |Accepted(log)| + (if Refused(log) then 1 else 0)
    ensures forall i :: 0 <= i < |log| && !log[i].accepted ==> i == |log| - 1
  {
    AcceptedIsPrefix(offers, log);
  }

  lemma LaterCalls<E>(before: seq<Attempt<E>>, log: seq<Attempt<E>>)
    ensures (before + log)[..|before|] == before && (before + log)[|before|..] == log
  {
  }
}
