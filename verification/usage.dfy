/** Usage tracking: one usage record appended per tracked call, with the
    token total derived from its parts, and a best-effort store; and the
    four-characters-per-token estimate. */
module Usage {
  import opened Common

  /** One stored usage record (its id and creation time are set by the
      database and are not part of this model). */
  datatype UsageEvent = UsageEvent(
    userId: string,
    model: string,
    promptTokens: nat,
    completionTokens: nat,
    totalTokens: nat,
    responseTimeMs: nat,
    endpoint: string)

  /** The caller's arguments; omitted token counts are `None`. */
  datatype UsageInput = UsageInput(
    userId: string,
    model: string,
    promptTokens: Option<nat>,
    completionTokens: Option<nat>,
    responseTimeMs: nat,
    endpoint: string)

  function TokensOrZero(n: Option<nat>): nat
  {
    if n.Some? then n.value else 0
  }

  /** The record built from the caller's arguments: omitted token counts
      become 0, the total is the sum of the two counts, and the identifying
      fields are copied unchanged. */
  function UsageRecord(input: UsageInput): (e: UsageEvent)
    ensures e.totalTokens == e.promptTokens + e.completionTokens
    ensures e.promptTokens == (if input.promptTokens.Some? then input.promptTokens.value else 0)
    ensures e.completionTokens == (if input.completionTokens.Some? then input.completionTokens.value else 0)
    ensures e.userId == input.userId && e.model == input.model
    ensures e.responseTimeMs == input.responseTimeMs && e.endpoint == input.endpoint
  {
    var p := TokensOrZero(input.promptTokens);
    var c := TokensOrZero(input.completionTokens);
    UsageEvent(input.userId, input.model, p, c, p + c, input.responseTimeMs, input.endpoint)
  }

  /** Omitting both counts records zero tokens throughout; 10 prompt and
      5 completion tokens record a total of 15. */
  lemma DefaultsAndTotal(userId: string, model: string, ms: nat, endpoint: string)
    ensures var e := UsageRecord(UsageInput(userId, model, None, None, ms, endpoint));
            e.promptTokens == 0 && e.completionTokens == 0 && e.totalTokens == 0
    ensures UsageRecord(UsageInput(userId, model, Some(10), Some(5), ms, endpoint)).totalTokens == 15
  {
  }

  /** The usage store, appended to and never otherwise changed here. */
  class UsageStore {
    var events: seq<UsageEvent>

    constructor ()
      ensures events == []
    {
      events := [];
    }

    /** Record one usage event. A failing write (`storeFails`) is swallowed:
        the caller is never told, and nothing is appended. */
    method TrackUsage(input: UsageInput, storeFails: bool)
      modifies this
      ensures storeFails ==> events == old(events)
      ensures !storeFails ==> events == old(events) + [UsageRecord(input)]
    {
      if !storeFails {
        events := events + [UsageRecord(input)];
      }
    }
  }

  /** Every stored record satisfies total = prompt + completion. */
  ghost predicate TotalsConsistent(events: seq<UsageEvent>)
  {
    forall i :: 0 <= i < |events| ==>
      events[i].totalTokens == events[i].promptTokens + events[i].completionTokens
  }

  /** Tracking preserves the consistency of the whole log, whether or not
      the write succeeds. */
  lemma TrackingKeepsTotalsConsistent(events: seq<UsageEvent>, input: UsageInput, storeFails: bool)
    requires TotalsConsistent(events)
    ensures TotalsConsistent(if storeFails then events else events + [UsageRecord(input)])
  {
    if !storeFails {
      var e := UsageRecord(input);
      var next := events + [e];
      forall i | 0 <= i < |next|
        ensures next[i].totalTokens == next[i].promptTokens + next[i].completionTokens
      {
        if i < |events| {
          assert next[i] == events[i];
        }
      }
    }
  }

  /** `Math.ceil(text.length / 4)`: the estimated token count of a text. */
  function EstimateTokens(text: string): (e: nat)
    ensures 4 * e - 4 < |text| <= 4 * e || (text == [] && e == 0)
    ensures text == [] <==> e == 0
  {
    (|text| + 3) / 4
  }

  /** The estimate is the least `e` with `|text| <= 4 * e`. */
  lemma EstimateIsCeiling(text: string, e: nat)
    requires |text| <= 4 * e
    ensures EstimateTokens(text) <= e
  {
  }

  /** A longer text never gets a smaller estimate. */
  lemma EstimateMonotone(a: string, b: string)
    requires |a| <= |b|
    ensures EstimateTokens(a) <= EstimateTokens(b)
  {
  }
}
