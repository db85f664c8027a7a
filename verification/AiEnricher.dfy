/** The enricher (src/enrichment/ai.enricher.ts): a bounded retry loop around
    the model, and a rule-based fallback for every failure. The breaker and the
    model are oracles: one answer per call. */
module AiEnricher {
  import opened Common
  import opened TicketPipeline
  import Backoff

  /** One breaker.fire: its result, or an error, and whether the breaker is open
      after an error. */
  datatype Call = ANSWERED(result: Classification) | FAILED_CALL(breakerOpen: bool)

  /** The i-th call answers, after failures that each left the breaker closed. */
  predicate AnswersAt(oracle: seq<Call>, i: nat) {
    i < |oracle| && oracle[i].ANSWERED? && forall j :: 0 <= j < i ==> oracle[j] == FAILED_CALL(false)
  }

  class Enricher {
    const maxRetries: nat
    var calls: nat                // model calls made so far
    var waitedMs: int             // slept between calls

    constructor (maxRetries: nat)
      ensures this.maxRetries == maxRetries && calls == 0 && waitedMs == 0
    {
      this.maxRetries := maxRetries;
      calls, waitedMs := 0, 0;
    }

    /** The loop stops at the first call that answers, at the first failure that
        leaves the breaker open, or at the last attempt, and throws unless that
        call answered. */
    method CallWithRetry(oracle: seq<Call>, draws: seq<real>) returns (result: Option<Classification>)
      requires |oracle| > maxRetries && |draws| > maxRetries
      requires forall i :: 0 <= i < |draws| ==> 0.0 <= draws[i] < 1.0
      modifies this
      ensures var n := calls - old(calls);
              && 1 <= n <= maxRetries + 1
              && (forall i :: 0 <= i < n - 1 ==> oracle[i] == FAILED_CALL(false))
              && (result.Some? <==> oracle[n - 1].ANSWERED?)
              && (result.Some? ==> result.value == oracle[n - 1].result)
              && (result.None? ==> oracle[n - 1].breakerOpen || n == maxRetries + 1)
              && 0 <= waitedMs - old(waitedMs) <= 5000 * (n - 1)
              && Backoff.WaitBounds(500, 5000, n - 1, waitedMs - old(waitedMs))
      ensures result.Some? <==> exists i :: 0 <= i <= maxRetries && AnswersAt(oracle, i)
      ensures forall i :: 0 <= i <= maxRetries && AnswersAt(oracle, i) ==>
                result == Some(oracle[i].result) && calls == old(calls) + i + 1
    {
      var attempt := 1;
      while attempt <= maxRetries + 1
        invariant 1 <= attempt <= maxRetries + 1
        invariant calls == old(calls) + attempt - 1
        invariant forall i :: 0 <= i < attempt - 1 ==> oracle[i] == FAILED_CALL(false)
        invariant 0 <= waitedMs - old(waitedMs) <= 5000 * (attempt - 1)
        invariant Backoff.WaitBounds(500, 5000, attempt - 1, waitedMs - old(waitedMs))
      {
        calls := calls + 1;
        match oracle[attempt - 1]
        case ANSWERED(r) =>
          assert AnswersAt(oracle, attempt - 1);
          return Some(r);
        case FAILED_CALL(breakerOpen) =>
          if breakerOpen || attempt >= maxRetries + 1 { return None; }
          Backoff.DelayBounds(attempt, 500, 5000, draws[attempt]);
          Backoff.OneMoreDelay(500, 5000, attempt - 1, waitedMs - old(waitedMs), draws[attempt]);
          waitedMs := waitedMs + Backoff.BackoffWithJitter(attempt, 500, 5000, draws[attempt]);
          attempt := attempt + 1;
      }
      result := None;
    }

    /** Never throws. The outcome is the AI result of the first call that answers,
        exactly when the model is configured, the breaker is closed and such a
        call comes within the retries; otherwise it is the fallback. */
    method Enrich(configured: bool, breakerOpen: bool, oracle: seq<Call>, draws: seq<real>, fallback: Classification)
      returns (outcome: Outcome)
      requires |oracle| > maxRetries && |draws| > maxRetries
      requires forall i :: 0 <= i < |draws| ==> 0.0 <= draws[i] < 1.0
      modifies this
      ensures FromEnricher(outcome)
      ensures old(calls) <= calls <= old(calls) + maxRetries + 1
      ensures !configured || breakerOpen ==> calls == old(calls)
      ensures configured && !breakerOpen ==> calls > old(calls)
      ensures outcome.status.ENRICHED? <==>
                configured && !breakerOpen && exists i :: 0 <= i <= maxRetries && AnswersAt(oracle, i)
      ensures forall i :: outcome.status.ENRICHED? && 0 <= i <= maxRetries && AnswersAt(oracle, i) ==>
                outcome.result == oracle[i].result && calls == old(calls) + i + 1
      ensures outcome.status.ENRICHED? || outcome.result == fallback
    {
      if !configured || breakerOpen {
        return Outcome(DEGRADED, FALLBACK, fallback);
      }
      var result := CallWithRetry(oracle, draws);
      outcome := if result.Some? then Outcome(ENRICHED, AI, result.value) else Outcome(DEGRADED, FALLBACK, fallback);
    }
  }
}
