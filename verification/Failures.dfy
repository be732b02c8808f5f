/** How an upstream attempt can fail, and the classifications the routing core reads off a failure. */
module Failures {
  import opened Options

  /** `Fault` is any answer or lack of one; `tooLong` says its text is a context-window refusal and
      `usage` carries a recognised plan-usage limit's suppression deadline. */
  datatype Failure =
    | LimiterTimeout
    | QueueWaitExpired
    | EngineWaitExpired
    | KeyPoolRefusal
    | ModelQueued
    | Fault(status: Option<int>, tooLong: bool, usage: Option<real>)

  /** Nothing was sent, or the endpoint answered as it is meant to: no endpoint is charged. */
  predicate Uncharged(f: Failure) {
    !f.Fault?
  }

  predicate AuthMisconfig(status: Option<int>) {
    status.Some? && (status.value == 401 || status.value == 407)
  }

  predicate ClientErrorStatus(status: Option<int>) {
    && status.Some?
    && 400 <= status.value < 500
    && status.value != 408 && status.value != 429
    && !AuthMisconfig(status)
  }

  /** Whether the breaker and the availability counters see this failure. */
  predicate Charged(f: Failure) {
    !Uncharged(f) && !ClientErrorStatus(f.status)
  }

  predicate MayLosePrefixCache(f: Failure) {
    f.ModelQueued? || (f.Fault? && (f.status.None? || f.status.value >= 500))
  }

  predicate DescribesRequest(f: Failure) {
    f.Fault? && f.status.Some? && f.status.value in {400, 404, 413, 422}
  }

  predicate ExceedsContextWindow(f: Failure) {
    DescribesRequest(f) && f.tooLong
  }

  predicate CountsAsRequestRefusal(f: Failure) {
    DescribesRequest(f) && !ExceedsContextWindow(f)
  }

  /** A request's own fault charges no endpoint; a lost cache is charged unless the model was only queued. */
  lemma FaultsAreToldApart(f: Failure)
    ensures Charged(f) <==>
              f.Fault? && (f.status.None? || f.status.value in {401, 407, 408, 429}
                           || f.status.value < 400 || 500 <= f.status.value)
    ensures DescribesRequest(f) ==> !Charged(f) && !MayLosePrefixCache(f)
    ensures MayLosePrefixCache(f) ==> Charged(f) || f.ModelQueued?
    ensures CountsAsRequestRefusal(f) || ExceedsContextWindow(f) <==> DescribesRequest(f)
    ensures !(CountsAsRequestRefusal(f) && ExceedsContextWindow(f))
    ensures OffloadReasonFor(f).Some? ==> !Charged(f) && OffloadReasonFor(f) != Some(LastResort)
    ensures AbandonedForOffload(f) ==> OffloadReasonFor(f).Some?
  {
  }

  datatype OffloadReason = QueueWait | EngineWait | LastResort

  /** Why a failed attempt sends its request to the offload route next, if it does. */
  function OffloadReasonFor(f: Failure): Option<OffloadReason> {
    match f
    case LimiterTimeout => Some(QueueWait)
    case QueueWaitExpired => Some(QueueWait)
    case EngineWaitExpired => Some(EngineWait)
    case _ => None
  }

  /** The router itself cut the attempt short: its route was never heard from. */
  predicate AbandonedForOffload(f: Failure) {
    f.QueueWaitExpired? || f.EngineWaitExpired?
  }

  /** How many attempts refused the request itself as malformed. */
  function CountRefusals(errors: seq<Failure>): nat {
    if errors == [] then 0
    else CountRefusals(errors[..|errors| - 1]) + if CountsAsRequestRefusal(errors[|errors| - 1]) then 1 else 0
  }

  /** Which of several errors the caller is told about: the first that describes the request, else the primary's. */
  function Surfaced(errors: seq<Failure>): (index: nat)
    requires errors != []
    ensures index < |errors|
    ensures DescribesRequest(errors[index]) <==> exists i :: 0 <= i < |errors| && DescribesRequest(errors[i])
    ensures forall i :: 0 <= i < index ==> !DescribesRequest(errors[i])
    ensures !DescribesRequest(errors[index]) ==> index == 0
  {
    FirstDescribing(errors, 0)
  }

  function FirstDescribing(errors: seq<Failure>, from: nat): (index: nat)
    requires from < |errors| && forall i :: 0 <= i < from ==> !DescribesRequest(errors[i])
    ensures index < |errors|
    ensures DescribesRequest(errors[index]) <==> exists i :: 0 <= i < |errors| && DescribesRequest(errors[i])
    ensures forall i :: 0 <= i < index ==> !DescribesRequest(errors[i])
    ensures !DescribesRequest(errors[index]) ==> index == 0
    decreases |errors| - from
  {
    if DescribesRequest(errors[from]) then from
    else if from + 1 < |errors| then FirstDescribing(errors, from + 1)
    else 0
  }
}
