/** The failure categories of a call to the upstream completion API, and
    the two string classifications the relay applies to them. */
module ErrorPolicy {
  import opened Wrappers
  import opened Text
  import opened Json

  /** The exceptions the upstream client raises. `GenericError` is the
      base category itself. */
  datatype UpstreamError =
    | HTTPError(status: int, message: string, body: Option<Value>, retryAfter: Option<real>)
    | TimeoutError
    | EmptyResponseError
    | MalformedResponseError
    | GenericError

  const BillingTokens: seq<string> := ["billing", "payment", "insufficient", "balance", "credits"]

  const SuspiciousPrefixes: seq<string> :=
    ["error:", "openrouter", "payment required", "insufficient balance", "rate limit", "unauthorized"]

  const SuspiciousFragments: seq<string> :=
    ["insufficient balance", "payment required", "api key", "quota exceeded", "retry-after", "status code"]

  /** Python's `any(t in haystack for t in needles)`. */
  predicate ContainsAny(haystack: string, needles: seq<string>) {
    exists i :: 0 <= i < |needles| && Contains(haystack, needles[i])
  }

  /** Python's `any(haystack.startswith(p) for p in prefixes)`. */
  predicate StartsWithAny(haystack: string, prefixes: seq<string>) {
    exists i :: 0 <= i < |prefixes| && prefixes[i] <= haystack
  }

  /** A payment problem: status 402, or a message naming one of the
      billing tokens, in any letter case. */
  function IsBillingRelated(e: UpstreamError): bool
    requires e.HTTPError?
  {
    e.status == 402 || ContainsAny(Lower(e.message), BillingTokens)
  }

  /** Status 402 is always a billing problem; any other status is one
      exactly when the lower-cased message names billing, payment, an
      insufficient balance or credits. */
  lemma BillingClassification(e: UpstreamError)
    requires e.HTTPError?
    ensures e.status == 402 ==> IsBillingRelated(e)
    ensures e.status != 402 ==>
      (IsBillingRelated(e) <==> var m := Lower(e.message);
        Contains(m, "billing") || Contains(m, "payment") || Contains(m, "insufficient")
        || Contains(m, "balance") || Contains(m, "credits"))
  {
    var haystack := Lower(e.message);
    assert ContainsAny(haystack, BillingTokens) <==>
      Contains(haystack, BillingTokens[0]) || Contains(haystack, BillingTokens[1]) || Contains(haystack, BillingTokens[2])
      || Contains(haystack, BillingTokens[3]) || Contains(haystack, BillingTokens[4]);
  }

  lemma StartsWithAnyOfSix(h: string, ps: seq<string>)
    requires |ps| == 6
    ensures StartsWithAny(h, ps) <==>
      ps[0] <= h || ps[1] <= h || ps[2] <= h || ps[3] <= h || ps[4] <= h || ps[5] <= h
  {
  }

  lemma ContainsAnyOfSix(h: string, ns: seq<string>)
    requires |ns| == 6
    ensures ContainsAny(h, ns) <==>
      Contains(h, ns[0]) || Contains(h, ns[1]) || Contains(h, ns[2])
      || Contains(h, ns[3]) || Contains(h, ns[4]) || Contains(h, ns[5])
  {
  }

  /** The text `strip().lower()` leaves for the suspicious-content heuristic. */
  function Normalized(text: string): string {
    Lower(Strip(text))
  }

  /** Whether a successful reply's text is really an upstream error message:
      blank, or starting with or containing one of the known error phrases. */
  function LooksLikeUpstreamErrorText(text: string): (r: bool)
    ensures r <==> var n := Normalized(text);
      || n == []
      || "error:" <= n || "openrouter" <= n || "payment required" <= n
      || "insufficient balance" <= n || "rate limit" <= n || "unauthorized" <= n
      || Contains(n, "insufficient balance") || Contains(n, "payment required") || Contains(n, "api key")
      || Contains(n, "quota exceeded") || Contains(n, "retry-after") || Contains(n, "status code")
  {
    var normalized := Normalized(text);
    StartsWithAnyOfSix(normalized, SuspiciousPrefixes);
    ContainsAnyOfSix(normalized, SuspiciousFragments);
    normalized == [] || StartsWithAny(normalized, SuspiciousPrefixes) || ContainsAny(normalized, SuspiciousFragments)
  }

  /** Empty or whitespace-only text is always suspicious. */
  lemma BlankIsSuspicious(text: string)
    requires AllSpace(text)
    ensures LooksLikeUpstreamErrorText(text)
  {
  }

  /** The heuristic ignores letter case. */
  lemma SuspicionIgnoresCase(text: string)
    ensures LooksLikeUpstreamErrorText(Lower(text)) == LooksLikeUpstreamErrorText(text)
  {
    StripLower(text);
    LowerIdempotent(Strip(text));
    assert Normalized(Lower(text)) == Normalized(text);
  }

  /** The heuristic ignores surrounding whitespace. */
  lemma SuspicionIgnoresPadding(w1: string, text: string, w2: string)
    requires AllSpace(w1) && AllSpace(w2)
    ensures LooksLikeUpstreamErrorText(w1 + text + w2) == LooksLikeUpstreamErrorText(text)
  {
    StripPadded(w1, text, w2);
    assert Normalized(w1 + text + w2) == Normalized(text);
  }

  /** Stripping a text first does not change the verdict. */
  lemma SuspicionOfStripped(text: string)
    ensures LooksLikeUpstreamErrorText(Strip(text)) == LooksLikeUpstreamErrorText(text)
  {
    StripIdempotent(text);
    assert Normalized(Strip(text)) == Normalized(text);
  }
}
