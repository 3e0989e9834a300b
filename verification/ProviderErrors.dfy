/** Errors that providers return and their gRPC classification
    (internal/provider/error.go, internal/provider/status.go, and the two helpers at the
    end of internal/service/modelhub/generation.go). */
module ProviderErrors {
  import opened Options

  datatype Kind =
    | InvalidArgument | Configuration | RateLimited | ContentBlocked
    | Unavailable | Timeout | InvalidResponse | SubmitOutcomeUnknown
  {
    function Reason(): string {
      match this
      case InvalidArgument => "INVALID_ARGUMENT"
      case Configuration => "CONFIGURATION_ERROR"
      case RateLimited => "RATE_LIMITED"
      case ContentBlocked => "CONTENT_BLOCKED"
      case Unavailable => "PROVIDER_UNAVAILABLE"
      case Timeout => "TIMEOUT"
      case InvalidResponse => "INVALID_RESPONSE"
      case SubmitOutcomeUnknown => "SUBMIT_OUTCOME_UNKNOWN"
    }
  }

  /** A Go error value: the two context sentinels, an error of this service, or any other
      error. The last two may wrap a further error. */
  datatype Fault =
    | Canceled
    | DeadlineExceeded
    | Typed(kind: Kind, message: string, cause: Option<Fault>)
    | Foreign(cause: Option<Fault>)

  // gRPC status codes
  const CANCELED := 1
  const UNKNOWN := 2
  const INVALID_ARGUMENT := 3
  const DEADLINE_EXCEEDED := 4
  const RESOURCE_EXHAUSTED := 8
  const FAILED_PRECONDITION := 9
  const INTERNAL := 13
  const UNAVAILABLE := 14

  /** `errors.Is` for a sentinel. */
  predicate Is(f: Fault, sentinel: Fault) {
    f == sentinel || ((f.Typed? || f.Foreign?) && f.cause.Some? && Is(f.cause.value, sentinel))
  }

  /** `errors.As` for `*provider.Error`: the first one along the chain. */
  function AsTyped(f: Fault): (r: Option<Fault>)
    ensures r.Some? ==> r.value.Typed?
  {
    match f
    case Typed(_, _, _) => Some(f)
    case Foreign(Some(cause)) => AsTyped(cause)
    case _ => None
  }

  function KindOf(f: Fault): Kind {
    match AsTyped(f)
    case Some(typed) => typed.kind
    case None => Unavailable
  }

  function CodeOfKind(kind: Kind): int {
    match kind
    case InvalidArgument => INVALID_ARGUMENT
    case Configuration => FAILED_PRECONDITION
    case RateLimited => RESOURCE_EXHAUSTED
    case ContentBlocked => FAILED_PRECONDITION
    case Timeout => DEADLINE_EXCEEDED
    case InvalidResponse => INTERNAL
    case SubmitOutcomeUnknown => UNAVAILABLE
    case Unavailable => UNAVAILABLE
  }

  datatype Status = Status(code: int, message: string)

  /** Code and message of `provider.ToStatus`. */
  function ToStatus(f: Fault): Status {
    if Is(f, Canceled) then Status(CANCELED, "request canceled")
    else if Is(f, DeadlineExceeded) then Status(DEADLINE_EXCEEDED, "request timed out")
    else match AsTyped(f)
      case None => Status(UNAVAILABLE, "provider unavailable")
      case Some(typed) =>
        Status(CodeOfKind(typed.kind), if typed.message == "" then typed.kind.Reason() else typed.message)
  }

  /** The three error columns of a stored task. */
  datatype Verdict = Verdict(code: int, message: string, reason: string)

  /** `normalizeProviderError`. */
  function Normalize(f: Option<Fault>): Verdict {
    match f
    case None => Verdict(UNKNOWN, "generation failed", Unavailable.Reason())
    case Some(fault) =>
      Verdict(ToStatus(fault).code, ToStatus(fault).message, KindOf(fault).Reason())
  }

  predicate IsUncertainSubmit(f: Fault) {
    || Is(f, Canceled)
    || Is(f, DeadlineExceeded)
    || KindOf(f) in {Unavailable, Timeout}
  }

  /** What `SubmitGeneration` stores when the provider's submit call failed. */
  function SubmitVerdict(f: Fault): Verdict {
    if IsUncertainSubmit(f)
    then Verdict(UNAVAILABLE, "submit outcome unknown; not auto-retried", SubmitOutcomeUnknown.Reason())
    else Normalize(Some(f))
  }

  /** A stored failure always carries a code other than OK and a reason. */
  predicate ProperFailure(v: Verdict) {
    v.code != 0 && v.reason != ""
  }

  /** Every failure, of a submit or of a finished job, is stored with a code other than OK and a
      reason. */
  lemma SubmitVerdictIsProper(f: Fault)
    ensures ProperFailure(SubmitVerdict(f))
    ensures forall g: Option<Fault> :: ProperFailure(Normalize(g))
  {
  }

  /** The stored reason of a submit failure says "outcome unknown" exactly when the service takes
      the error for uncertain, or the provider said so itself. How that guess relates to what
      happened at the provider is the subject of LtxSubmit. */
  lemma UnknownExactlyWhenTakenForUncertain(f: Fault)
    ensures SubmitVerdict(f).reason == SubmitOutcomeUnknown.Reason() <==>
            IsUncertainSubmit(f) || KindOf(f) == SubmitOutcomeUnknown
  {
  }

  // What is stored, in terms of the chain of wrapped errors

  /** The error and everything it wraps, outermost first. */
  function Chain(f: Fault): seq<Fault> {
    [f] + (if (f.Typed? || f.Foreign?) && f.cause.Some? then Chain(f.cause.value) else [])
  }

  /** `t` is the outermost error of this service in the chain. */
  ghost predicate FirstTyped(f: Fault, t: Fault) {
    t.Typed? && exists i :: 0 <= i < |Chain(f)| && Chain(f)[i] == t && forall j :: 0 <= j < i ==> !Chain(f)[j].Typed?
  }

  predicate NoneTyped(f: Fault) { forall i :: 0 <= i < |Chain(f)| ==> !Chain(f)[i].Typed? }

  /** gRPC code and reason of an error kind. */
  predicate Listed(kind: Kind, code: int, reason: string) {
    || (kind == InvalidArgument && code == 3 && reason == "INVALID_ARGUMENT")
    || (kind == Configuration && code == 9 && reason == "CONFIGURATION_ERROR")
    || (kind == RateLimited && code == 8 && reason == "RATE_LIMITED")
    || (kind == ContentBlocked && code == 9 && reason == "CONTENT_BLOCKED")
    || (kind == Unavailable && code == 14 && reason == "PROVIDER_UNAVAILABLE")
    || (kind == Timeout && code == 4 && reason == "TIMEOUT")
    || (kind == InvalidResponse && code == 13 && reason == "INVALID_RESPONSE")
    || (kind == SubmitOutcomeUnknown && code == 14 && reason == "SUBMIT_OUTCOME_UNKNOWN")
  }

  /** The reason is that of the outermost error of this service; code and message are too, unless
      the chain contains the end of a context. */
  ghost predicate Describes(v: Verdict, f: Fault) {
    && (NoneTyped(f) ==> v.reason == "PROVIDER_UNAVAILABLE")
    && (forall t :: FirstTyped(f, t) ==> exists code :: Listed(t.kind, code, v.reason))
    && (Canceled in Chain(f) ==> v.code == 1 && v.message == "request canceled")
    && (Canceled !in Chain(f) && DeadlineExceeded in Chain(f) ==> v.code == 4 && v.message == "request timed out")
    && (Canceled !in Chain(f) && DeadlineExceeded !in Chain(f) ==>
          && (NoneTyped(f) ==> v.code == 14 && v.message == "provider unavailable")
          && (forall t :: FirstTyped(f, t) ==>
                Listed(t.kind, v.code, v.reason) && v.message == if t.message == "" then v.reason else t.message))
  }

  /** What a finished job's failure is stored as. */
  ghost predicate DescribesJob(v: Verdict, f: Option<Fault>) {
    if f == None then v == Verdict(2, "generation failed", "PROVIDER_UNAVAILABLE") else Describes(v, f.value)
  }

  /** The provider may have accepted the job, as far as the error tells. */
  ghost predicate Uncertain(f: Fault) {
    || Canceled in Chain(f) || DeadlineExceeded in Chain(f) || NoneTyped(f)
    || (exists t :: FirstTyped(f, t) && (t.kind == Unavailable || t.kind == Timeout))
  }

  /** What a submit failure is stored as. */
  ghost predicate DescribesSubmit(v: Verdict, f: Fault) {
    if Uncertain(f) then v == Verdict(14, "submit outcome unknown; not auto-retried", "SUBMIT_OUTCOME_UNKNOWN")
    else Describes(v, f)
  }

  lemma {:induction false} IsMeansInChain(f: Fault, sentinel: Fault)
    ensures Is(f, sentinel) <==> sentinel in Chain(f)
  {
    if (f.Typed? || f.Foreign?) && f.cause.Some? { IsMeansInChain(f.cause.value, sentinel); }
  }

  lemma NoneTypedBelow(f: Fault)
    requires f.Foreign? && f.cause.Some?
    ensures NoneTyped(f) <==> NoneTyped(f.cause.value)
  {
    var rest := Chain(f.cause.value);
    assert forall i :: 0 <= i < |rest| ==> Chain(f)[i + 1] == rest[i];
    if NoneTyped(f.cause.value) {
      forall i | 0 <= i < |Chain(f)| ensures !Chain(f)[i].Typed? { if i > 0 { assert Chain(f)[i] == rest[i - 1]; } }
    }
  }

  lemma FirstTypedBelow(f: Fault, t: Fault)
    requires f.Foreign? && f.cause.Some? && FirstTyped(f.cause.value, t)
    ensures FirstTyped(f, t)
  {
    var rest := Chain(f.cause.value);
    var i :| 0 <= i < |rest| && rest[i] == t && forall j :: 0 <= j < i ==> !rest[j].Typed?;
    forall j | 0 <= j < i + 1 ensures !Chain(f)[j].Typed? { if j > 0 { assert Chain(f)[j] == rest[j - 1]; } }
    assert Chain(f)[i + 1] == t;
  }

  lemma {:induction false} AsTypedMeansFirst(f: Fault)
    ensures AsTyped(f).None? <==> NoneTyped(f)
    ensures AsTyped(f).Some? ==> FirstTyped(f, AsTyped(f).value)
  {
    if f.Foreign? && f.cause.Some? {
      AsTypedMeansFirst(f.cause.value);
      NoneTypedBelow(f);
      if AsTyped(f).Some? { FirstTypedBelow(f, AsTyped(f).value); }
    } else if f.Typed? {
      assert Chain(f)[0] == f;
    }
  }

  lemma OneFirstTyped(f: Fault, t: Fault, u: Fault)
    requires FirstTyped(f, t) && FirstTyped(f, u)
    ensures t == u && !NoneTyped(f)
  {
    var i :| 0 <= i < |Chain(f)| && Chain(f)[i] == t && forall j :: 0 <= j < i ==> !Chain(f)[j].Typed?;
    var k :| 0 <= k < |Chain(f)| && Chain(f)[k] == u && forall j :: 0 <= j < k ==> !Chain(f)[j].Typed?;
  }

  lemma KindIsListed(kind: Kind)
    ensures Listed(kind, CodeOfKind(kind), kind.Reason())
  {
  }

  lemma FirstTypedDecides(f: Fault, t: Fault)
    requires FirstTyped(f, t)
    ensures AsTyped(f) == Some(t) && KindOf(f) == t.kind
  {
    AsTypedMeansFirst(f);
    if AsTyped(f).Some? { OneFirstTyped(f, t, AsTyped(f).value); } else { OneFirstTyped(f, t, t); }
  }

  /** `normalizeProviderError` stores what describes the error. */
  lemma NormalizeDescribes(f: Option<Fault>)
    ensures DescribesJob(Normalize(f), f)
  {
    if f.Some? {
      var v := Normalize(f);
      IsMeansInChain(f.value, Canceled);
      IsMeansInChain(f.value, DeadlineExceeded);
      AsTypedMeansFirst(f.value);
      forall t | FirstTyped(f.value, t)
        ensures AsTyped(f.value) == Some(t) && Listed(t.kind, CodeOfKind(t.kind), v.reason)
      {
        FirstTypedDecides(f.value, t);
        KindIsListed(t.kind);
      }
    }
  }

  lemma UncertainIsTakenForUncertain(f: Fault)
    ensures Uncertain(f) <==> IsUncertainSubmit(f)
  {
    IsMeansInChain(f, Canceled);
    IsMeansInChain(f, DeadlineExceeded);
    AsTypedMeansFirst(f);
    forall t | FirstTyped(f, t) ensures KindOf(f) == t.kind { FirstTypedDecides(f, t); }
  }

  /** `SubmitGeneration` stores what describes the submit error. */
  lemma SubmitVerdictDescribes(f: Fault)
    ensures DescribesSubmit(SubmitVerdict(f), f)
  {
    UncertainIsTakenForUncertain(f);
    NormalizeDescribes(Some(f));
  }

  /** The description leaves no choice: code, message and reason are all determined. */
  lemma DescriptionIsUnique(f: Fault, v: Verdict, w: Verdict)
    requires Describes(v, f) && Describes(w, f)
    ensures v == w
  {
    AsTypedMeansFirst(f);
    if !NoneTyped(f) {
      var t := AsTyped(f).value;
      assert FirstTyped(f, t);
    }
  }
}
