/** The translation orchestrator: one request becomes zero or more calls
    to the upstream client, each failure either retried after a delay
    under its own capped counter or turned into a fallback outcome that
    returns the original text. The client is a script of per-call results
    and the sleeps are recorded instead of taken. */
module Translator {
  import opened Wrappers
  import opened Text
  import opened Models
  import opened Json
  import opened ErrorPolicy
  import opened PromptBuilder

  const DefaultSystemPrompt :=
    "You are a translation engine for a messaging app. Translate accurately and naturally. "
    + "Return only the translated text with no explanations."

  /** The system prompt for one request, read afresh from the prompt file;
      `None` stands for a file that cannot be read. */
  function SystemPrompt(file: Option<string>): (r: string)
    ensures r != []
    ensures file.Some? && !AllSpace(file.value) ==> r == Strip(file.value)
    ensures file.None? || AllSpace(file.value) ==> r == DefaultSystemPrompt
  {
    if file.Some? && Strip(file.value) != [] then Strip(file.value) else DefaultSystemPrompt
  }

  /** A prompt file holding only an ideographic space counts as blank. */
  lemma IdeographicSpacePromptIsBlank()
    ensures SystemPrompt(Some("\U{3000}")) == DefaultSystemPrompt
  {
    StripsIdeographicSpace();
  }

  /** The result of one request as the endpoint reports it. */
  datatype Outcome = Outcome(
    translatedText: string,
    originalText: string,
    direction: string,
    translationFailed: bool,
    usedFallback: bool,
    success: bool,
    failureReason: Option<string>,
    attempts: nat)

  /** The three status flags tell one story. */
  predicate Consistent(o: Outcome) {
    o.translationFailed == o.usedFallback && o.success == !o.translationFailed
  }

  /** A successful outcome: the translation comes back with the original
      beside it. */
  function Succeeded(request: TranslateRequest, translated: string, attempts: nat): (o: Outcome)
    ensures Consistent(o) && o.success && o.failureReason.None?
    ensures o.translatedText == translated && o.originalText == request.text
    ensures o.direction == DirectionName(request.direction) && o.attempts == attempts
  {
    Outcome(translated, request.text, DirectionName(request.direction), false, false, true, None, attempts)
  }

  /** `_fallback`: the original text comes back, flagged as failed. */
  function FallbackOutcome(request: TranslateRequest, reason: string, attempts: nat): (o: Outcome)
    ensures Consistent(o) && !o.success && o.failureReason == Some(reason)
    ensures o.translatedText == request.text && o.originalText == request.text
    ensures o.direction == DirectionName(request.direction) && o.attempts == attempts
  {
    Outcome(request.text, request.text, DirectionName(request.direction), true, true, false, Some(reason), attempts)
  }

  /** What one call of the client gives: a reply, one of the upstream
      errors, or any other exception. */
  datatype CallResult = Returned(text: string) | Raised(error: UpstreamError) | Crashed

  /** A client that answers from a fixed script and fails, like popping
      from an exhausted list, once the script runs out. */
  function Scripted(script: seq<CallResult>): nat -> CallResult {
    (i: nat) => if i < |script| then script[i] else Crashed
  }

  const EmptyBackoffs: seq<real> := [1.0, 2.0, 4.0, 8.0, 16.0]
  const MaxTimeoutRetries: nat := 3
  const MaxRateLimitRetries: nat := 3
  const MaxBillingRetries: nat := 3
  const TimeoutDelay: real := 1.0
  const RateLimitDefaultDelay: real := 2.0
  const BillingDelay: real := 5.0

  /** The fallback reasons. */
  const UnexpectedError := "unexpected_error"
  const EmptyResponse := "empty_response"
  const TimeoutReason := "timeout"
  const RateLimitReason := "rate_limit"
  const BillingReason := "billing"
  const UpstreamErrorReason := "openrouter_error"
  const HttpPrefix := "http_"

  /** The fallback reason for an HTTP error that is not retried. */
  function StatusReason(status: int): string {
    HttpPrefix + IntToString(status)
  }

  /** The four retry counters. */
  datatype Budget = Budget(empty: nat, timeout: nat, rateLimit: nat, billing: nat) {
    predicate Valid() {
      empty <= |EmptyBackoffs| && timeout <= MaxTimeoutRetries
      && rateLimit <= MaxRateLimitRetries && billing <= MaxBillingRetries
    }
  }

  const Fresh := Budget(0, 0, 0, 0)

  /** How many retries the counters still allow altogether. */
  function Remaining(b: Budget): nat
    requires b.Valid()
  {
    (|EmptyBackoffs| - b.empty) + (MaxTimeoutRetries - b.timeout)
    + (MaxRateLimitRetries - b.rateLimit) + (MaxBillingRetries - b.billing)
  }

  /** How a request ends: translated text, or a fallback with its reason. */
  datatype Verdict = Translated(text: string) | FellBack(reason: string)

  /** What the loop does after one call. */
  datatype Step = Stop(verdict: Verdict) | Retry(delay: real, next: Budget)

  /** One pass of the retry loop body, in the order the handlers are tried:
      empty replies, timeouts, then HTTP errors (429 before billing), then
      any other upstream error, then anything else. */
  function Decide(r: CallResult, b: Budget): (s: Step)
    requires b.Valid()
    ensures s.Retry? ==> s.next.Valid() && Remaining(s.next) == Remaining(b) - 1
  {
    match r
    case Returned(text) => Stop(Translated(text))
    case Crashed => Stop(FellBack(UnexpectedError))
    case Raised(e) =>
      if e.EmptyResponseError? then
        if b.empty < |EmptyBackoffs| then Retry(EmptyBackoffs[b.empty], b.(empty := b.empty + 1))
        else Stop(FellBack(EmptyResponse))
      else if e.TimeoutError? then
        if b.timeout < MaxTimeoutRetries then Retry(TimeoutDelay, b.(timeout := b.timeout + 1))
        else Stop(FellBack(TimeoutReason))
      else if e.HTTPError? then
        if e.status == 429 then
          if b.rateLimit < MaxRateLimitRetries then
            Retry(e.retryAfter.GetOr(RateLimitDefaultDelay), b.(rateLimit := b.rateLimit + 1))
          else Stop(FellBack(RateLimitReason))
        else if IsBillingRelated(e) then
          if b.billing < MaxBillingRetries then Retry(BillingDelay, b.(billing := b.billing + 1))
          else Stop(FellBack(BillingReason))
        else Stop(FellBack(StatusReason(e.status)))
      else Stop(FellBack(UpstreamErrorReason))
  }

  /** A whole run: the verdict, the number of calls made, the delays slept
      in order, and the counters at the end. */
  datatype Trace = Trace(verdict: Verdict, calls: nat, sleeps: seq<real>, final: Budget)

  /** The run that starts with call number `k` (counting from 0) under
      counters `b`. */
  function Run(respond: nat -> CallResult, k: nat, b: Budget): (t: Trace)
    requires b.Valid()
    ensures k < t.calls
    decreases Remaining(b)
  {
    match Decide(respond(k), b)
    case Stop(v) => Trace(v, k + 1, [], b)
    case Retry(d, next) =>
      var t := Run(respond, k + 1, next);
      t.(sleeps := [d] + t.sleeps)
  }

  /** A run seen after `sleeps` have already been taken. */
  function Resumed(sleeps: seq<real>, t: Trace): Trace {
    t.(sleeps := sleeps + t.sleeps)
  }

  function OutcomeOf(request: TranslateRequest, v: Verdict, attempts: nat): Outcome {
    match v
    case Translated(text) => Succeeded(request, text, attempts)
    case FellBack(reason) => FallbackOutcome(request, reason, attempts)
  }

  /** The most calls one request can make: the first and every retry. */
  const MaxCalls: nat := 1 + 5 + 3 + 3 + 3

  /** `Translator.translate`: an empty text is answered at once without a
      call; otherwise the prompt is read, the messages are built once, and
      the retry loop runs. `messages` is what every call of the client is
      given. */
  method Translate(request: TranslateRequest, promptFile: Option<string>, respond: nat -> CallResult)
    returns (outcome: Outcome, messages: seq<Message>, sleeps: seq<real>)
    ensures Consistent(outcome)
    ensures outcome.originalText == request.text && outcome.direction == DirectionName(request.direction)
    ensures outcome.usedFallback ==> outcome.translatedText == request.text && outcome.failureReason.Some?
    ensures !outcome.usedFallback ==> outcome.failureReason == None
    ensures outcome.attempts <= MaxCalls
    ensures request.text == [] ==>
      outcome == Succeeded(request, [], 0) && messages == [] && sleeps == []
    ensures request.text != [] ==>
      messages == [Message("system", SystemPrompt(promptFile)), Message("user", UserPrompt(request))]
    ensures request.text != [] ==>
      var t := Run(respond, 0, Fresh);
      outcome == OutcomeOf(request, t.verdict, t.calls) && sleeps == t.sleeps
  {
    if request.text == [] {
      outcome := Succeeded(request, request.text, 0);
      messages := [];
      sleeps := [];
      return;
    }
    var systemPrompt := SystemPrompt(promptFile);
    messages := BuildMessages(systemPrompt, request);
    outcome, sleeps := RetryLoop(request, respond);
    RunShape(respond, 0, Fresh);
  }

  /** The `while True` loop of `Translator.translate`: call the client;
      a reply ends the loop, and each failure either raises its counter
      and sleeps before going round again, or falls back. */
  method RetryLoop(request: TranslateRequest, respond: nat -> CallResult) returns (outcome: Outcome, sleeps: seq<real>)
    ensures var t := Run(respond, 0, Fresh);
      outcome == OutcomeOf(request, t.verdict, t.calls) && sleeps == t.sleeps
  {
    var counters := Fresh;
    var attempts: nat := 0;
    sleeps := [];
    assert [] + Run(respond, 0, Fresh).sleeps == Run(respond, 0, Fresh).sleeps;
    while true
      invariant counters.Valid()
      invariant Run(respond, 0, Fresh) == Resumed(sleeps, Run(respond, attempts, counters))
      decreases Remaining(counters)
    {
      attempts := attempts + 1;
      var result := respond(attempts - 1);
      var step := Decide(result, counters);
      match step {
        case Stop(verdict) =>
          StopHere(respond, attempts - 1, counters, sleeps);
          outcome := OutcomeOf(request, verdict, attempts);
          break;
        case Retry(delay, next) =>
          ResumeRetry(respond, attempts - 1, counters, sleeps);
          sleeps := sleeps + [delay];
          counters := next;
      }
    }
  }

  /** Taking a retry's delay and resuming with the next call describes the
      same run. */
  lemma ResumeRetry(respond: nat -> CallResult, k: nat, b: Budget, before: seq<real>)
    requires b.Valid() && Decide(respond(k), b).Retry?
    ensures var step := Decide(respond(k), b);
      Resumed(before, Run(respond, k, b)) == Resumed(before + [step.delay], Run(respond, k + 1, step.next))
  {
    var step := Decide(respond(k), b);
    var t := Run(respond, k + 1, step.next);
    assert before + ([step.delay] + t.sleeps) == before + [step.delay] + t.sleeps;
  }

  /** A stopping call ends the run there. */
  lemma StopHere(respond: nat -> CallResult, k: nat, b: Budget, before: seq<real>)
    requires b.Valid() && Decide(respond(k), b).Stop?
    ensures Resumed(before, Run(respond, k, b)) == Trace(Decide(respond(k), b).verdict, k + 1, before, b)
  {
    assert before + [] == before;
  }

  /** Every run makes at least one call and at most one per remaining
      retry more, and sleeps exactly once between consecutive calls. */
  lemma {:induction false} RunShape(respond: nat -> CallResult, k: nat, b: Budget)
    requires b.Valid()
    ensures var t := Run(respond, k, b);
      k < t.calls <= k + 1 + Remaining(b) && |t.sleeps| == t.calls - k - 1 && t.final.Valid()
    decreases Remaining(b)
  {
    match Decide(respond(k), b)
    case Stop(v) =>
    case Retry(d, next) => RunShape(respond, k + 1, next);
  }

  /** The kind of failure a call result is, as far as retrying goes. */
  datatype Category = EmptyReply | TimedOutCall | RateLimited | Billing | Final

  /** Which counter, if any, a call result draws on. A 429 is rate
      limiting even when its message also reads like a billing problem. */
  function CategoryOf(r: CallResult): Category {
    if r.Raised? && r.error.EmptyResponseError? then EmptyReply
    else if r.Raised? && r.error.TimeoutError? then TimedOutCall
    else if r.Raised? && r.error.HTTPError? && r.error.status == 429 then RateLimited
    else if r.Raised? && r.error.HTTPError? && IsBillingRelated(r.error) then Billing
    else Final
  }

  /** How many retries each kind of failure is allowed. */
  function Cap(c: Category): nat {
    match c
    case EmptyReply => |EmptyBackoffs|
    case TimedOutCall => MaxTimeoutRetries
    case RateLimited => MaxRateLimitRetries
    case Billing => MaxBillingRetries
    case Final => 0
  }

  /** How many retries of kind `c` the counters have used. */
  function Used(b: Budget, c: Category): nat {
    match c
    case EmptyReply => b.empty
    case TimedOutCall => b.timeout
    case RateLimited => b.rateLimit
    case Billing => b.billing
    case Final => 0
  }

  /** The counters after one more retry of kind `c`. */
  function Bump(b: Budget, c: Category): Budget {
    match c
    case EmptyReply => b.(empty := b.empty + 1)
    case TimedOutCall => b.(timeout := b.timeout + 1)
    case RateLimited => b.(rateLimit := b.rateLimit + 1)
    case Billing => b.(billing := b.billing + 1)
    case Final => b
  }

  /** The fallback reason a failed call leads to. */
  function FailureTag(r: CallResult): string {
    match CategoryOf(r)
    case EmptyReply => EmptyResponse
    case TimedOutCall => TimeoutReason
    case RateLimited => RateLimitReason
    case Billing => BillingReason
    case Final =>
      if r.Crashed? then UnexpectedError
      else if r.Raised? && r.error.HTTPError? then StatusReason(r.error.status)
      else UpstreamErrorReason
  }

  function Pow2(n: nat): nat {
    if n == 0 then 1 else 2 * Pow2(n - 1)
  }

  /** The delay before retrying after `r`, when `n` empty replies have
      already been retried: 2^n seconds for an empty reply, one second for
      a timeout, the server's Retry-After (else two seconds) for a 429,
      five seconds for a billing problem. */
  function RetryDelay(r: CallResult, n: nat): real {
    match CategoryOf(r)
    case EmptyReply => Pow2(n) as real
    case TimedOutCall => TimeoutDelay
    case RateLimited => r.error.retryAfter.GetOr(RateLimitDefaultDelay)
    case Billing => BillingDelay
    case Final => 0.0
  }

  /** The empty-reply backoff table doubles from one second. */
  lemma EmptyBackoffsArePowers()
    ensures forall i :: 0 <= i < |EmptyBackoffs| ==> EmptyBackoffs[i] == Pow2(i) as real
  {
    assert Pow2(1) == 2 && Pow2(2) == 4 && Pow2(3) == 8 && Pow2(4) == 16;
  }

  /** When a call is retried: exactly when it draws on a counter that is
      not used up; the retry raises that counter and waits the delay of
      the call's kind of failure. */
  lemma DecideRetries(r: CallResult, b: Budget)
    requires b.Valid()
    ensures var c := CategoryOf(r);
      Decide(r, b).Retry? <==> c != Final && Used(b, c) < Cap(c)
    ensures Decide(r, b).Retry? ==>
      Decide(r, b).next == Bump(b, CategoryOf(r)) && Decide(r, b).delay == RetryDelay(r, b.empty)
  {
    EmptyBackoffsArePowers();
  }

  /** How a call that is not retried ends the request: a reply gives its
      text, a failure its fallback reason. */
  lemma DecideStops(r: CallResult, b: Budget)
    requires b.Valid()
    ensures Decide(r, b).Stop? ==>
      Decide(r, b).verdict == if r.Returned? then Translated(r.text) else FellBack(FailureTag(r))
  {
  }

  /** A retry of kind `d` raises counter `c` exactly when they agree. */
  lemma BumpUsed(b: Budget, d: Category, c: Category)
    ensures Used(Bump(b, d), c) == Used(b, c) + (if d == c && d != Final then 1 else 0)
  {
  }

  /** How many of calls `lo` .. `hi - 1` were of kind `c`. */
  function CountCat(respond: nat -> CallResult, c: Category, lo: nat, hi: nat): nat
    decreases hi - lo
  {
    if lo >= hi then 0
    else (if CategoryOf(respond(lo)) == c then 1 else 0) + CountCat(respond, c, lo + 1, hi)
  }

  /** A retried call: the run is the one from the next call under the new
      counters, after that call's delay. */
  lemma RetryUnfold(respond: nat -> CallResult, k: nat, b: Budget)
    requires b.Valid() && Decide(respond(k), b).Retry?
    ensures var step := Decide(respond(k), b);
      Run(respond, k, b) == Resumed([step.delay], Run(respond, k + 1, step.next))
  {
  }

  /** The last call decides the run, with the counters as they stand at
      the end. */
  lemma {:induction false} RunLast(respond: nat -> CallResult, k: nat, b: Budget)
    requires b.Valid()
    ensures var t := Run(respond, k, b);
      t.final.Valid() && Decide(respond(t.calls - 1), t.final) == Stop(t.verdict)
    decreases Remaining(b)
  {
    var step := Decide(respond(k), b);
    var t := Run(respond, k, b);
    if step.Retry? {
      RetryUnfold(respond, k, b);
      RunLast(respond, k + 1, step.next);
      var t' := Run(respond, k + 1, step.next);
      assert t.calls == t'.calls && t.final == t'.final && t.verdict == t'.verdict;
    } else {
      assert t == Trace(step.verdict, k + 1, [], b);
    }
  }

  /** Every call before the last drew on a counter. */
  lemma {:induction false} RunRetriedBefore(respond: nat -> CallResult, k: nat, b: Budget, i: nat)
    requires b.Valid() && k <= i < Run(respond, k, b).calls - 1
    ensures CategoryOf(respond(i)) != Final
    decreases Remaining(b)
  {
    var step := Decide(respond(k), b);
    if step.Retry? {
      RetryUnfold(respond, k, b);
      if i == k {
        DecideRetries(respond(k), b);
      } else {
        RunRetriedBefore(respond, k + 1, step.next, i);
      }
    }
  }

  /** The verdict of a run: the text of the reply that ended it, or the
      fallback reason of the failure that ended it. */
  lemma RunVerdict(respond: nat -> CallResult, k: nat, b: Budget)
    requires b.Valid()
    ensures var t := Run(respond, k, b); var last := respond(t.calls - 1);
      && (t.verdict.Translated? <==> last.Returned?)
      && (last.Returned? ==> t.verdict == Translated(last.text))
      && (!last.Returned? ==> t.verdict == FellBack(FailureTag(last)))
  {
    var t := Run(respond, k, b);
    RunLast(respond, k, b);
    DecideStops(respond(t.calls - 1), t.final);
  }

  /** The counters at the end of a run have grown by the number of calls
      of each kind before the last. */
  lemma {:induction false} RunCounts(respond: nat -> CallResult, k: nat, b: Budget, c: Category)
    requires b.Valid()
    ensures var t := Run(respond, k, b);
      Used(t.final, c) == Used(b, c) + CountCat(respond, c, k, t.calls - 1)
    decreases Remaining(b)
  {
    var step := Decide(respond(k), b);
    if step.Retry? {
      RunCounts(respond, k + 1, step.next, c);
      CountsAfterRetry(respond, k, b, c);
    } else {
      assert Run(respond, k, b) == Trace(step.verdict, k + 1, [], b);
    }
  }

  /** One retry step of `RunCounts`: its claim for the next call carries
      over to this one. */
  lemma CountsAfterRetry(respond: nat -> CallResult, k: nat, b: Budget, c: Category)
    requires b.Valid() && Decide(respond(k), b).Retry?
    requires var next := Decide(respond(k), b).next; var t := Run(respond, k + 1, next);
      Used(t.final, c) == Used(next, c) + CountCat(respond, c, k + 1, t.calls - 1)
    ensures var t := Run(respond, k, b);
      Used(t.final, c) == Used(b, c) + CountCat(respond, c, k, t.calls - 1)
  {
    var step := Decide(respond(k), b);
    var t := Run(respond, k, b);
    var t' := Run(respond, k + 1, step.next);
    RetryUnfold(respond, k, b);
    assert t.calls == t'.calls && t.final == t'.final;
    RetryUsed(respond(k), b, c);
    assert Used(step.next, c) == Used(b, c) + (if CategoryOf(respond(k)) == c then 1 else 0);
    CountCatStep(respond, c, k, t.calls - 1);
  }

  /** Counting from call `lo` is counting call `lo` and then from the next. */
  lemma CountCatStep(respond: nat -> CallResult, c: Category, lo: nat, hi: nat)
    requires lo < hi
    ensures CountCat(respond, c, lo, hi) == (if CategoryOf(respond(lo)) == c then 1 else 0) + CountCat(respond, c, lo + 1, hi)
  {
  }

  /** A retry raises exactly the counter of the call's own kind. */
  lemma RetryUsed(r: CallResult, b: Budget, c: Category)
    requires b.Valid() && Decide(r, b).Retry?
    ensures Used(Decide(r, b).next, c) == Used(b, c) + (if CategoryOf(r) == c then 1 else 0)
  {
    DecideRetries(r, b);
    BumpUsed(b, CategoryOf(r), c);
  }

  /** A retry waits the delay of the call's kind, and counts an empty
      reply. */
  lemma RetryWaits(r: CallResult, b: Budget)
    requires b.Valid() && Decide(r, b).Retry?
    ensures Decide(r, b).delay == RetryDelay(r, b.empty)
    ensures Decide(r, b).next.empty == b.empty + (if CategoryOf(r) == EmptyReply then 1 else 0)
  {
    DecideRetries(r, b);
    BumpUsed(b, CategoryOf(r), EmptyReply);
  }

  /** The delays expected after the `m` calls from number `k` on, when `e`
      empty replies have already been retried. */
  function ExpectedDelays(respond: nat -> CallResult, k: nat, m: nat, e: nat): (r: seq<real>)
    ensures |r| == m
    decreases m
  {
    if m == 0 then []
    else
      var e' := e + (if CategoryOf(respond(k)) == EmptyReply then 1 else 0);
      [RetryDelay(respond(k), e)] + ExpectedDelays(respond, k + 1, m - 1, e')
  }

  /** The delays slept in a run: one per call before the last, each the
      delay that call's kind of failure calls for. */
  lemma {:induction false} RunDelays(respond: nat -> CallResult, k: nat, b: Budget)
    requires b.Valid()
    ensures var t := Run(respond, k, b);
      t.sleeps == ExpectedDelays(respond, k, t.calls - k - 1, b.empty)
    decreases Remaining(b)
  {
    var step := Decide(respond(k), b);
    if step.Retry? {
      RunDelays(respond, k + 1, step.next);
      DelaysAfterRetry(respond, k, b);
    } else {
      assert Run(respond, k, b) == Trace(step.verdict, k + 1, [], b);
    }
  }

  /** One retry step of `RunDelays`: its claim for the next call carries
      over to this one. */
  lemma DelaysAfterRetry(respond: nat -> CallResult, k: nat, b: Budget)
    requires b.Valid() && Decide(respond(k), b).Retry?
    requires var next := Decide(respond(k), b).next; var t := Run(respond, k + 1, next);
      t.sleeps == ExpectedDelays(respond, k + 1, t.calls - (k + 1) - 1, next.empty)
    ensures var t := Run(respond, k, b);
      t.sleeps == ExpectedDelays(respond, k, t.calls - k - 1, b.empty)
  {
    var step := Decide(respond(k), b);
    var t := Run(respond, k, b);
    var t' := Run(respond, k + 1, step.next);
    RetryUnfold(respond, k, b);
    assert t.calls == t'.calls && t.sleeps == [step.delay] + t'.sleeps;
    RetryWaits(respond(k), b);
    assert t.calls - k - 1 == (t'.calls - (k + 1) - 1) + 1;
  }

  /** The `i`-th expected delay follows call `k + i`, with the empty
      replies among the calls before it counted. */
  lemma {:induction false} ExpectedDelayAt(respond: nat -> CallResult, k: nat, m: nat, e: nat, i: nat)
    requires i < m
    ensures ExpectedDelays(respond, k, m, e)[i] == RetryDelay(respond(k + i), e + CountCat(respond, EmptyReply, k, k + i))
    decreases m
  {
    if i > 0 {
      var e' := e + (if CategoryOf(respond(k)) == EmptyReply then 1 else 0);
      ExpectedDelayAt(respond, k + 1, m - 1, e', i - 1);
      assert k + 1 + (i - 1) == k + i;
    }
  }

  /** From fresh counters no kind of failure is retried more often than
      its cap, and a run that falls back on a retryable failure has used
      that failure's retries up. */
  lemma RetriesWithinCaps(respond: nat -> CallResult, c: Category)
    ensures var t := Run(respond, 0, Fresh);
      CountCat(respond, c, 0, t.calls - 1) <= Cap(c)
    ensures var t := Run(respond, 0, Fresh); var last := CategoryOf(respond(t.calls - 1));
      t.verdict.FellBack? && last != Final ==> CountCat(respond, last, 0, t.calls - 1) == Cap(last)
  {
    var t := Run(respond, 0, Fresh);
    var last := CategoryOf(respond(t.calls - 1));
    RunCounts(respond, 0, Fresh, c);
    RunCounts(respond, 0, Fresh, last);
    RunLast(respond, 0, Fresh);
    DecideRetries(respond(t.calls - 1), t.final);
  }

  /** With the empty-reply counter starting from zero, as it does for a
      request, the n-th retried empty reply (counting from 0) is followed
      by a sleep of 2^n seconds: 1, 2, 4, 8, 16. */
  lemma EmptyRetriesDouble(respond: nat -> CallResult, m: nat, j: nat)
    requires j < m && CategoryOf(respond(j)) == EmptyReply
    ensures ExpectedDelays(respond, 0, m, 0)[j] == Pow2(CountCat(respond, EmptyReply, 0, j)) as real
  {
    ExpectedDelayAt(respond, 0, m, 0, j);
  }

  /** From fresh counters a request makes at most 1 + 5 + 3 + 3 + 3 calls. */
  lemma CallsBounded(respond: nat -> CallResult)
    ensures Run(respond, 0, Fresh).calls <= MaxCalls
  {
    RunShape(respond, 0, Fresh);
  }

  /** A call that draws on no counter ends the run on the spot. */
  lemma FinalCallStops(respond: nat -> CallResult, k: nat, b: Budget)
    requires b.Valid() && CategoryOf(respond(k)) == Final
    ensures Run(respond, k, b) == Trace(
      if respond(k).Returned? then Translated(respond(k).text) else FellBack(FailureTag(respond(k))), k + 1, [], b)
  {
    DecideRetries(respond(k), b);
    DecideStops(respond(k), b);
  }

  /** A 429 is never handled as a billing problem, whatever its message. */
  lemma RateLimitBeforeBilling(message: string, body: Option<Value>, retryAfter: Option<real>, b: Budget)
    requires b.Valid()
    ensures var r := Raised(HTTPError(429, message, body, retryAfter));
      && CategoryOf(r) == RateLimited
      && (Decide(r, b).Retry? ==> Decide(r, b).delay == retryAfter.GetOr(RateLimitDefaultDelay))
      && Decide(r, b) != Stop(FellBack("billing"))
  {
  }

  /** Two empty replies and then a reply: sleeps of 1 and 2 seconds and
      three calls. */
  lemma EmptyRepliesThenSuccess()
    ensures var respond := Scripted([Raised(EmptyResponseError), Raised(EmptyResponseError), Returned("Hallo!")]);
      Run(respond, 0, Fresh) == Trace(Translated("Hallo!"), 3, [1.0, 2.0], Budget(2, 0, 0, 0))
  {
    var respond := Scripted([Raised(EmptyResponseError), Raised(EmptyResponseError), Returned("Hallo!")]);
    assert Run(respond, 2, Budget(2, 0, 0, 0)) == Trace(Translated("Hallo!"), 3, [], Budget(2, 0, 0, 0));
    assert Run(respond, 1, Budget(1, 0, 0, 0)) == Trace(Translated("Hallo!"), 3, [2.0], Budget(2, 0, 0, 0));
  }

  /** Six empty replies: sleeps of 1, 2, 4, 8 and 16 seconds, six calls,
      then the "empty_response" fallback. */
  lemma SixEmptyRepliesFallBack()
    ensures var respond := Scripted(seq(6, _ => Raised(EmptyResponseError)));
      Run(respond, 0, Fresh) == Trace(FellBack("empty_response"), 6, [1.0, 2.0, 4.0, 8.0, 16.0], Budget(5, 0, 0, 0))
  {
    var respond := Scripted(seq(6, _ => Raised(EmptyResponseError)));
    var v := FellBack("empty_response");
    var last := Budget(5, 0, 0, 0);
    assert Run(respond, 5, last) == Trace(v, 6, [], last);
    assert Run(respond, 4, Budget(4, 0, 0, 0)) == Trace(v, 6, [16.0], last);
    assert Run(respond, 3, Budget(3, 0, 0, 0)) == Trace(v, 6, [8.0, 16.0], last);
    assert Run(respond, 2, Budget(2, 0, 0, 0)) == Trace(v, 6, [4.0, 8.0, 16.0], last);
    assert Run(respond, 1, Budget(1, 0, 0, 0)) == Trace(v, 6, [2.0, 4.0, 8.0, 16.0], last);
  }

  /** A client that always times out: three one-second sleeps, four calls,
      then the "timeout" fallback. */
  lemma TimeoutsFallBack()
    ensures var respond := (i: nat) => Raised(TimeoutError);
      Run(respond, 0, Fresh) == Trace(FellBack("timeout"), 4, [1.0, 1.0, 1.0], Budget(0, 3, 0, 0))
  {
    var respond := (i: nat) => Raised(TimeoutError);
    var v := FellBack("timeout");
    var last := Budget(0, 3, 0, 0);
    assert Run(respond, 3, last) == Trace(v, 4, [], last);
    assert Run(respond, 2, Budget(0, 2, 0, 0)) == Trace(v, 4, [1.0], last);
    assert Run(respond, 1, Budget(0, 1, 0, 0)) == Trace(v, 4, [1.0, 1.0], last);
  }

  /** Two rate-limit answers with Retry-After 7 and 1.5 seconds, then a
      reply: those two sleeps and three calls. */
  lemma RateLimitRespectsRetryAfter()
    ensures var respond := Scripted([
        Raised(HTTPError(429, "rate limited", None, Some(7.0))),
        Raised(HTTPError(429, "rate limited", None, Some(1.5))),
        Returned("Hello again")]);
      Run(respond, 0, Fresh) == Trace(Translated("Hello again"), 3, [7.0, 1.5], Budget(0, 0, 2, 0))
  {
    var respond := Scripted([
        Raised(HTTPError(429, "rate limited", None, Some(7.0))),
        Raised(HTTPError(429, "rate limited", None, Some(1.5))),
        Returned("Hello again")]);
    var v := Translated("Hello again");
    assert Run(respond, 2, Budget(0, 0, 2, 0)) == Trace(v, 3, [], Budget(0, 0, 2, 0));
    assert Run(respond, 1, Budget(0, 0, 1, 0)) == Trace(v, 3, [1.5], Budget(0, 0, 2, 0));
  }

  /** A client that always answers 402: three five-second sleeps, four
      calls, then the "billing" fallback. */
  lemma PaymentRequiredFallsBack()
    ensures var respond := (i: nat) => Raised(HTTPError(402, "Payment Required: insufficient balance", None, None));
      Run(respond, 0, Fresh) == Trace(FellBack("billing"), 4, [5.0, 5.0, 5.0], Budget(0, 0, 0, 3))
  {
    var respond := (i: nat) => Raised(HTTPError(402, "Payment Required: insufficient balance", None, None));
    var v := FellBack("billing");
    var last := Budget(0, 0, 0, 3);
    assert Run(respond, 3, last) == Trace(v, 4, [], last);
    assert Run(respond, 2, Budget(0, 0, 0, 2)) == Trace(v, 4, [5.0], last);
    assert Run(respond, 1, Budget(0, 0, 0, 1)) == Trace(v, 4, [5.0, 5.0], last);
  }

  /** Any other HTTP status falls back at once, tagged with the status. */
  lemma OtherStatusFallsBackAtOnce(message: string)
    ensures var respond := (i: nat) => Raised(HTTPError(500, message, None, None));
      var t := Run(respond, 0, Fresh);
      !IsBillingRelated(HTTPError(500, message, None, None)) ==>
        t == Trace(FellBack("http_500"), 1, [], Fresh)
  {
    assert NatToString(5) == "5";
    assert NatToString(50) == "5" + "0" == "50";
    assert NatToString(500) == "50" + "0" == "500";
    assert "http_" + IntToString(500) == "http_500";
  }
}

