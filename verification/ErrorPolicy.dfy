/**
 The decision table behind retry, compression and fallback of failed model calls.
 */
module ErrorPolicy {
  import opened Common

  datatype Reason = NetworkOrTimeout | RateLimit | ContextOverflow | ServerError | Auth | ModelNotFound | Unknown

  datatype Decision = Decision(reason: Reason, retryable: bool, shouldCompress: bool, shouldFallback: bool)

  const NetworkMarkers: seq<string> :=
    ["timeout", "timed out", "connection", "connected", "reset by peer", "temporarily unavailable",
     "name or service not known", "getaddrinfo", "ssl eof"]

  predicate IsNetworkErrorMessage(message: string) {
    exists m :: m in NetworkMarkers && Contains(Lower(message), m)
  }

  function ClassifyError(status: Option<int>, message: string): Decision {
    if status.None? && IsNetworkErrorMessage(message) then Decision(NetworkOrTimeout, true, false, false)
    else if status == Some(429) then Decision(RateLimit, true, false, false)
    else if status == Some(400) && Contains(Lower(message), "context") then Decision(ContextOverflow, true, true, false)
    else if status == Some(500) || status == Some(502) || status == Some(503) then
      Decision(ServerError, true, false, false)
    else if status == Some(401) || status == Some(403) then Decision(Auth, false, false, true)
    else if status == Some(404) then Decision(ModelNotFound, false, false, true)
    else Decision(Unknown, false, false, false)
  }

  // What a run has left: the retries of the current model, and whether it may still switch models.
  datatype Retry = Retry(maxRetries: nat, fallbackConfigured: bool, retryCount: nat, usingFallback: bool)

  predicate MayFallBack(r: Retry) { r.fallbackConfigured && !r.usingFallback }

  /** The three actions never compete: compression is only ever asked for by a retryable error and
      fallback only by one that is not; each exactly for its own statuses. */
  lemma ActionsDoNotCompete(status: Option<int>, message: string)
    ensures var d := ClassifyError(status, message);
            && !(d.retryable && d.shouldFallback)
            && (d.shouldCompress ==> d.retryable)
            && (d.shouldCompress <==> status == Some(400) && Contains(Lower(message), "context"))
            && (d.shouldFallback <==> status == Some(401) || status == Some(403) || status == Some(404))
            && (d.retryable <==>
                  || (status.None? && IsNetworkErrorMessage(message)) || d.shouldCompress
                  || status in {Some(429), Some(500), Some(502), Some(503)})
            && (d.reason.RateLimit? <==> status == Some(429)) && (d.reason.ModelNotFound? <==> status == Some(404))
            && (d.reason.Unknown? <==> !d.retryable && !d.shouldFallback)
  {
  }

  // The state the next call is made in, or none when the run gives up.
  function AfterFailure(status: Option<int>, message: string, r: Retry): Option<Retry> {
    var d := ClassifyError(status, message);
    if d.shouldCompress then Some(r)
    else if d.retryable && r.retryCount < r.maxRetries then Some(r.(retryCount := r.retryCount + 1))
    else if MayFallBack(r) then Some(r.(usingFallback := true, retryCount := 0))
    else None
  }

  /** After a failed call the run goes on exactly when the context is to be compressed, a retry is left for an
      error worth one, or the other model is; it switches models only when nothing else is left. */
  lemma FailureDecides(status: Option<int>, message: string, r: Retry)
    ensures var d, next := ClassifyError(status, message), AfterFailure(status, message, r);
            && (next.Some? <==> d.shouldCompress || (d.retryable && r.retryCount < r.maxRetries) || MayFallBack(r))
            && (next == Some(r) <==> d.shouldCompress)
            && (next.Some? && next.value.retryCount > r.retryCount ==>
                  next.value == r.(retryCount := r.retryCount + 1) && d.retryable)
            && (next.Some? && next.value.usingFallback && !r.usingFallback ==>
                  next.value.retryCount == 0 && (d.retryable ==> r.retryCount >= r.maxRetries))
  {
  }

  const TIMED_OUT := "model request timed out"

  /** A model call that ran into the request timeout is retried while there are retries left, whatever
      else holds. */
  lemma RequestTimeoutIsRetried(r: Retry)
    ensures r.retryCount < r.maxRetries ==> AfterFailure(None, TIMED_OUT, r) == Some(r.(retryCount := r.retryCount + 1))
    ensures AfterFailure(None, TIMED_OUT, r).Some? <==> r.retryCount < r.maxRetries || MayFallBack(r)
  {
    var lower := Lower(TIMED_OUT);
    assert lower[14..23] == "timed out";
    assert StandsAt(lower, "timed out", 14);
    assert "timed out" == NetworkMarkers[1];
    assert "timed out" in NetworkMarkers;
  }
}
