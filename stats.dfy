/** The request counters behind the health and stats endpoints. Start and
    end events update them in place; the snapshots read them. Clock
    readings are passed in by the caller. */
module Stats {
  import opened Wrappers

  /** A wall-clock reading, as the caller supplies it. */
  type Timestamp = int

  /** What a start event hands back to be passed to the matching end. */
  datatype RequestHandle = RequestHandle(startedAtPerf: real)

  /** The counters as one value. */
  datatype Counters = Counters(
    total: nat,
    successful: nat,
    fallback: nat,
    inflight: nat,
    lastSuccess: Option<Timestamp>)

  const Initial := Counters(0, 0, 0, 0, None)

  /** A start or an end event, with the end's flags and its wall time. */
  datatype Event = Start | End(success: bool, usedFallback: bool, at: Timestamp)

  /** The effect of one event on the counters: a start counts the request
      and puts it in flight; an end takes one out of flight (never below
      zero) and counts a fallback and a success as its flags say. */
  function Step(c: Counters, e: Event): (r: Counters)
    ensures e.Start? ==> r == c.(total := c.total + 1, inflight := c.inflight + 1)
    ensures e.End? ==> r.total == c.total
    ensures e.End? ==> r.inflight == if c.inflight == 0 then 0 else c.inflight - 1
    ensures e.End? ==> r.fallback == c.fallback + (if e.usedFallback then 1 else 0)
    ensures e.End? ==> r.successful == c.successful + (if e.success then 1 else 0)
    ensures e.End? ==> r.lastSuccess == if e.success then Some(e.at) else c.lastSuccess
  {
    match e
    case Start => c.(total := c.total + 1, inflight := c.inflight + 1)
    case End(success, usedFallback, at) =>
      Counters(
        c.total,
        c.successful + (if success then 1 else 0),
        c.fallback + (if usedFallback then 1 else 0),
        if c.inflight == 0 then 0 else c.inflight - 1,
        if success then Some(at) else c.lastSuccess)
  }

  /** The counters after a sequence of events, in order. */
  function ApplyAll(c: Counters, events: seq<Event>): Counters
    decreases |events|
  {
    if events == [] then c else Step(ApplyAll(c, events[..|events| - 1]), events[|events| - 1])
  }

  /** The statistics the stats endpoint reports. */
  datatype StatsReport = StatsReport(
    totalRequests: nat,
    successfulTranslations: nat,
    fallbackCount: nat,
    successRate: real,
    inflightRequests: nat)

  /** What the health endpoint reports. */
  datatype HealthReport = HealthReport(
    status: string,
    lastSuccessfulTranslationAt: Option<Timestamp>,
    openrouterConfigured: bool)

  /** `StatsTracker`: the counters as fields updated by the event methods. */
  class StatsTracker {
    var totalRequests: nat
    var successfulTranslations: nat
    var fallbackCount: nat
    var inflightRequests: nat
    var lastSuccessfulTranslationAt: Option<Timestamp>
    const bootWall: Timestamp
    const bootPerf: real

    /** The fields as one value. */
    function Current(): Counters
      reads this
    {
      Counters(totalRequests, successfulTranslations, fallbackCount, inflightRequests, lastSuccessfulTranslationAt)
    }

    /** A fresh tracker: every counter zero and no success yet. */
    constructor (bootWall: Timestamp, bootPerf: real)
      ensures Current() == Initial
      ensures this.bootWall == bootWall && this.bootPerf == bootPerf
    {
      this.bootWall := bootWall;
      this.bootPerf := bootPerf;
      totalRequests := 0;
      successfulTranslations := 0;
      fallbackCount := 0;
      inflightRequests := 0;
      lastSuccessfulTranslationAt := None;
    }

    /** `record_translate_request_start`: one more request, and one more in
        flight; nothing else changes. */
    method RecordStart(perfNow: real) returns (handle: RequestHandle)
      modifies this
      ensures totalRequests == old(totalRequests) + 1
      ensures inflightRequests == old(inflightRequests) + 1
      ensures successfulTranslations == old(successfulTranslations) && fallbackCount == old(fallbackCount)
      ensures lastSuccessfulTranslationAt == old(lastSuccessfulTranslationAt)
      ensures Current() == Step(old(Current()), Start)
      ensures handle == RequestHandle(perfNow)
    {
      totalRequests := totalRequests + 1;
      inflightRequests := inflightRequests + 1;
      handle := RequestHandle(perfNow);
    }

    /** `record_translate_request_end`: one fewer in flight but never below
        zero; the fallback count grows exactly when `usedFallback`, the
        success count and the last-success time change exactly when
        `success`; the request total is left alone. */
    method RecordEnd(handle: RequestHandle, wallNow: Timestamp, success: bool, usedFallback: bool)
      modifies this
      ensures inflightRequests == if old(inflightRequests) == 0 then 0 else old(inflightRequests) - 1
      ensures fallbackCount == old(fallbackCount) + (if usedFallback then 1 else 0)
      ensures successfulTranslations == old(successfulTranslations) + (if success then 1 else 0)
      ensures lastSuccessfulTranslationAt == if success then Some(wallNow) else old(lastSuccessfulTranslationAt)
      ensures totalRequests == old(totalRequests)
      ensures Current() == Step(old(Current()), End(success, usedFallback, wallNow))
    {
      inflightRequests := if inflightRequests - 1 < 0 then 0 else inflightRequests - 1;
      if usedFallback {
        fallbackCount := fallbackCount + 1;
      }
      if success {
        successfulTranslations := successfulTranslations + 1;
        lastSuccessfulTranslationAt := Some(wallNow);
      }
    }

    /** `stats_snapshot`: the counters, and the success rate, which is zero
        while no request has been counted. */
    function StatsSnapshot(): (s: StatsReport)
      reads this
      ensures s.totalRequests == totalRequests && s.successfulTranslations == successfulTranslations
      ensures s.fallbackCount == fallbackCount && s.inflightRequests == inflightRequests
      ensures totalRequests == 0 ==> s.successRate == 0.0
      ensures totalRequests > 0 ==> s.successRate * totalRequests as real == successfulTranslations as real
    {
      var rate := if totalRequests == 0 then 0.0 else successfulTranslations as real / totalRequests as real;
      StatsReport(totalRequests, successfulTranslations, fallbackCount, rate, inflightRequests)
    }

    /** `health_snapshot`: status "ok", the last success time if any. */
    function HealthSnapshot(openrouterConfigured: bool): (h: HealthReport)
      reads this
      ensures h.status == "ok" && h.openrouterConfigured == openrouterConfigured
      ensures h.lastSuccessfulTranslationAt == lastSuccessfulTranslationAt
    {
      HealthReport("ok", lastSuccessfulTranslationAt, openrouterConfigured)
    }
  }

  function Starts(events: seq<Event>): nat
    decreases |events|
  {
    if events == [] then 0 else Starts(events[..|events| - 1]) + (if events[|events| - 1].Start? then 1 else 0)
  }

  function Ends(events: seq<Event>): nat
    decreases |events|
  {
    if events == [] then 0 else Ends(events[..|events| - 1]) + (if events[|events| - 1].End? then 1 else 0)
  }

  function SuccessEnds(events: seq<Event>): nat
    decreases |events|
  {
    if events == [] then 0
    else SuccessEnds(events[..|events| - 1]) + (if events[|events| - 1].End? && events[|events| - 1].success then 1 else 0)
  }

  function FallbackEnds(events: seq<Event>): nat
    decreases |events|
  {
    if events == [] then 0
    else FallbackEnds(events[..|events| - 1]) + (if events[|events| - 1].End? && events[|events| - 1].usedFallback then 1 else 0)
  }

  /** Every end is matched by an earlier start: no prefix has more ends
      than starts, as when each request's end follows its own start. */
  ghost predicate Paired(events: seq<Event>) {
    forall n :: 0 <= n <= |events| ==> Ends(events[..n]) <= Starts(events[..n])
  }

  /** Starting from zero, events whose ends are all matched leave the total
      at the number of starts, the success and fallback counts at the
      number of flagged ends, and the requests in flight at the starts not
      yet ended. */
  lemma {:induction false} ReplayCounts(events: seq<Event>)
    requires Paired(events)
    ensures var c := ApplyAll(Initial, events);
      && c.total == Starts(events)
      && c.successful == SuccessEnds(events)
      && c.fallback == FallbackEnds(events)
      && c.inflight == Starts(events) - Ends(events)
    decreases |events|
  {
    if events != [] {
      var init := events[..|events| - 1];
      assert Paired(init) by {
        forall n | 0 <= n <= |init| ensures Ends(init[..n]) <= Starts(init[..n]) {
          assert init[..n] == events[..n];
        }
      }
      assert events[..|events|] == events;
      ReplayCounts(init);
    }
  }

  /** A success time is reported exactly when some end was a success. */
  lemma {:induction false} LastSuccessIff(events: seq<Event>)
    ensures ApplyAll(Initial, events).lastSuccess.Some? <==>
      exists i :: 0 <= i < |events| && events[i].End? && events[i].success
    decreases |events|
  {
    if events != [] {
      var init := events[..|events| - 1];
      LastSuccessIff(init);
      if !(events[|events| - 1].End? && events[|events| - 1].success) {
        if exists i :: 0 <= i < |events| && events[i].End? && events[i].success {
          var i :| 0 <= i < |events| && events[i].End? && events[i].success;
          assert init[i] == events[i];
        }
      }
    }
  }

  /** `n` successful and `m` fallback requests, started and ended in any
      paired order, leave `n + m` requests counted, `n` successes, `m`
      fallbacks and none in flight. */
  lemma CompletedRequests(events: seq<Event>, n: nat, m: nat)
    requires Paired(events) && Starts(events) == Ends(events) == n + m
    requires SuccessEnds(events) == n && FallbackEnds(events) == m
    ensures ApplyAll(Initial, events) == Counters(n + m, n, m, 0, ApplyAll(Initial, events).lastSuccess)
  {
    ReplayCounts(events);
  }

  /** The tracker's methods follow `Step`, so a run of calls leaves it at
      `ApplyAll` of the events. */
  method Replay(events: seq<Event>) returns (tracker: StatsTracker)
    ensures tracker.Current() == ApplyAll(Initial, events)
  {
    tracker := new StatsTracker(0, 0.0);
    var i := 0;
    while i < |events|
      invariant 0 <= i <= |events|
      invariant tracker.Current() == ApplyAll(Initial, events[..i])
    {
      assert events[..i + 1][..i] == events[..i];
      match events[i] {
        case Start =>
          var _ := tracker.RecordStart(0.0);
        case End(success, usedFallback, at) =>
          tracker.RecordEnd(RequestHandle(0.0), at, success, usedFallback);
      }
      i := i + 1;
    }
    assert events[..i] == events;
  }
}
