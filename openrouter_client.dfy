/** The non-network half of the upstream client: how the outcome of one
    POST to the completion endpoint becomes either the translated text or
    one of the upstream error categories. The JSON decoder and the float
    parser are parameters. */
module OpenRouterClient {
  import opened Wrappers
  import opened Text
  import opened Json
  import opened ErrorPolicy

  /** What the client sees of an HTTP response. */
  datatype HttpResponse = HttpResponse(status: int, retryAfterHeader: Option<string>, text: string)

  /** How the POST itself ended. */
  datatype PostOutcome =
    | TimedOut
    | TransportFailed(message: string)
    | Received(response: HttpResponse)

  const KeyMissing := "OpenRouter API key missing"

  const MaxErrorTextLength: nat := 500

  /** The Retry-After header as seconds: absent, empty, unparseable and
      negative values all give no delay. */
  function ParseRetryAfter(value: Option<string>, parseFloat: string -> Option<real>): (r: Option<real>)
    ensures r.Some? <==>
      value.Some? && value.value != "" && parseFloat(value.value).Some? && parseFloat(value.value).value >= 0.0
    ensures r.Some? ==> r == parseFloat(value.value) && r.value >= 0.0
  {
    match value
    case None => None
    case Some(v) =>
      if v == "" then None
      else
        match parseFloat(v)
        case None => None
        case Some(parsed) => if parsed < 0.0 then None else Some(parsed)
  }

  /** Python's `error.get("message") or error.get("code")`. */
  function MessageOrCode(error: seq<(string, Value)>): (r: Option<Value>)
    ensures Truthy(Get(error, "message")) ==> r == Get(error, "message")
    ensures !Truthy(Get(error, "message")) ==> r == Get(error, "code")
  {
    var message := Get(error, "message");
    if Truthy(message) then message else Get(error, "code")
  }

  /** The first `n` characters of `s`, as the slice `s[:n]`. */
  function TakeAtMost(s: string, n: nat): (r: string)
    ensures |r| == if |s| <= n then |s| else n
    ensures r <= s
  {
    if |s| <= n then s else s[..n]
  }

  /** A human-readable message for an error body: the nested error
      object's message, else its code, else a string error as it stands,
      else the whole object rendered. A string body is decoded first; one
      that is not JSON is kept, cut to 500 characters. */
  function ExtractErrorMessage(body: Value, parse: string -> Option<Value>): (r: string)
    requires Shrinks(parse)
    ensures body.JObject? && Get(body.fields, "error").Some? && Get(body.fields, "error").value.JObject?
      && Truthy(MessageOrCode(Get(body.fields, "error").value.fields))
      ==> r == ToStr(MessageOrCode(Get(body.fields, "error").value.fields).value)
    ensures body.JObject? && Get(body.fields, "error").Some? && Get(body.fields, "error").value.JString?
      ==> r == Get(body.fields, "error").value.s
    ensures body.JObject?
      && !(Get(body.fields, "error").Some? && Get(body.fields, "error").value.JObject?
           && Truthy(MessageOrCode(Get(body.fields, "error").value.fields)))
      && !(Get(body.fields, "error").Some? && Get(body.fields, "error").value.JString?)
      ==> r == Repr(body)
    ensures body.JString? && parse(body.s).None? ==> r == TakeAtMost(body.s, MaxErrorTextLength)
    ensures body.JString? && parse(body.s).None? ==> r <= body.s && |r| <= MaxErrorTextLength
    ensures body.JString? && parse(body.s).None? && |body.s| <= MaxErrorTextLength ==> r == body.s
    ensures body.JString? && parse(body.s).None? && |body.s| > MaxErrorTextLength ==> r == body.s[..MaxErrorTextLength]
    ensures !body.JObject? && !body.JString? ==> r == Repr(body)
    decreases if body.JString? then |body.s| + 1 else 0
  {
    match body
    case JObject(fields) =>
      var error := Get(fields, "error");
      if error.Some? && error.value.JObject? && Truthy(MessageOrCode(error.value.fields)) then
        ToStr(MessageOrCode(error.value.fields).value)
      else if error.Some? && error.value.JString? then
        error.value.s
      else
        Repr(body)
    case JString(s) =>
      (match parse(s)
       case None => TakeAtMost(s, MaxErrorTextLength)
       case Some(parsed) => ExtractErrorMessage(parsed, parse))
    case _ => Repr(body)
  }

  /** An error body sent as text is read through its decoding: the text of
      a JSON document carries the message of the document it decodes to. */
  lemma ErrorTextIsDecoded(text: string, parse: string -> Option<Value>)
    requires Shrinks(parse)
    requires parse(text).Some?
    ensures ExtractErrorMessage(JString(text), parse) == ExtractErrorMessage(parse(text).value, parse)
  {
  }

  /** An error sent in the upstream's usual shape, a nested object with a
      non-empty message, reads back as that message, whatever its code. */
  lemma WrappedMessageReadsBack(message: string, code: Value, parse: string -> Option<Value>)
    requires Shrinks(parse) && message != ""
    ensures ExtractErrorMessage(JObject([("error", JObject([("message", JString(message)), ("code", code)]))]), parse)
      == message
  {
    var error := [("message", JString(message)), ("code", code)];
    assert Get(error, "message") == Some(JString(message)) by {
      assert error[..1] == [("message", JString(message))];
    }
  }

  /** A list part's contribution: a string `text` field of an object part,
      or a bare string part. */
  function PartText(part: Value): (r: Option<string>)
    ensures part.JString? ==> r == Some(part.s)
    ensures part.JObject? ==>
      (r.Some? <==> Get(part.fields, "text").Some? && Get(part.fields, "text").value.JString?)
    ensures part.JObject? && r.Some? ==> r.value == Get(part.fields, "text").value.s
    ensures !part.JString? && !part.JObject? ==> r == None
  {
    match part
    case JObject(fields) =>
      (match Get(fields, "text")
       case Some(JString(t)) => Some(t)
       case _ => None)
    case JString(t) => Some(t)
    case _ => None
  }

  /** The contributions of the parts, in order, skipping parts that give none. */
  function Chunks(parts: seq<Value>): (r: seq<string>)
    ensures |r| <= |parts|
  {
    if parts == [] then []
    else
      var init := Chunks(parts[..|parts| - 1]);
      match PartText(parts[|parts| - 1])
      case Some(t) => init + [t]
      case None => init
  }

  /** Collecting contributions distributes over concatenation of parts. */
  lemma {:induction false} ChunksAppend(a: seq<Value>, b: seq<Value>)
    ensures Chunks(a + b) == Chunks(a) + Chunks(b)
    decreases |b|
  {
    if b == [] {
      assert a + b == a;
    } else {
      var b' := b[..|b| - 1];
      assert (a + b)[..|a + b| - 1] == a + b';
      assert (a + b)[|a + b| - 1] == b[|b| - 1];
      ChunksAppend(a, b');
    }
  }

  /** No chunk is collected exactly when no part contributes. */
  lemma {:induction false} ChunksEmptyIff(parts: seq<Value>)
    ensures Chunks(parts) == [] <==> forall i :: 0 <= i < |parts| ==> PartText(parts[i]).None?
    decreases |parts|
  {
    if parts != [] {
      var init := parts[..|parts| - 1];
      ChunksEmptyIff(init);
      if PartText(parts[|parts| - 1]).None? {
        forall i | 0 <= i < |parts| - 1 ensures parts[i] == init[i] { }
        assert Chunks(parts) == Chunks(init);
      }
    }
  }

  /** The text of a list content is the texts of its pieces, in order. */
  lemma ContentTextInOrder(a: seq<Value>, b: seq<Value>)
    ensures Join(Chunks(a + b), "") == Join(Chunks(a), "") + Join(Chunks(b), "")
  {
    ChunksAppend(a, b);
    JoinConcat(Chunks(a), Chunks(b));
  }

  /** The chunks of a single part are its contribution, if any. */
  lemma ChunksOfOne(part: Value)
    ensures PartText(part).Some? ==> Chunks([part]) == [PartText(part).value]
    ensures PartText(part).None? ==> Chunks([part]) == []
  {
    assert [part][..0] == [];
  }

  /** The first choice's `message` object, when `choices` is a non-empty
      list whose first element is an object holding an object `message`. */
  function FirstMessage(data: Value): (r: Option<seq<(string, Value)>>)
    ensures r.Some? ==> (
      && data.JObject? && Get(data.fields, "choices").Some?
      && Get(data.fields, "choices").value.JArray? && Get(data.fields, "choices").value.items != []
      && Get(data.fields, "choices").value.items[0].JObject?
      && Get(Get(data.fields, "choices").value.items[0].fields, "message") == Some(JObject(r.value)))
    ensures (
      && data.JObject? && Get(data.fields, "choices").Some?
      && Get(data.fields, "choices").value.JArray? && Get(data.fields, "choices").value.items != []
      && Get(data.fields, "choices").value.items[0].JObject?
      && Get(Get(data.fields, "choices").value.items[0].fields, "message").Some?
      && Get(Get(data.fields, "choices").value.items[0].fields, "message").value.JObject?)
      ==> r.Some?
  {
    if !data.JObject? then None
    else
      match Get(data.fields, "choices")
      case Some(JArray(choices)) =>
        if choices == [] || !choices[0].JObject? then None
        else
          (match Get(choices[0].fields, "message")
           case Some(JObject(message)) => Some(message)
           case _ => None)
      case _ => None
  }

  /** The reply text of a decoded completion: a string `content` as it
      stands, or the concatenated contributions of a list `content`, or
      nothing. */
  function MessageContent(data: Value): (r: Option<string>)
    ensures r.Some? ==> FirstMessage(data).Some? && Get(FirstMessage(data).value, "content").Some?
    ensures FirstMessage(data).Some? && Get(FirstMessage(data).value, "content").Some?
      && Get(FirstMessage(data).value, "content").value.JString?
      ==> r == Some(Get(FirstMessage(data).value, "content").value.s)
    ensures FirstMessage(data).Some? && Get(FirstMessage(data).value, "content").Some?
      && Get(FirstMessage(data).value, "content").value.JArray?
      ==> var chunks := Chunks(Get(FirstMessage(data).value, "content").value.items);
          r == if chunks == [] then None else Some(Join(chunks, ""))
    ensures FirstMessage(data).Some? && Get(FirstMessage(data).value, "content").Some?
      && !Get(FirstMessage(data).value, "content").value.JString?
      && !Get(FirstMessage(data).value, "content").value.JArray?
      ==> r.None?
  {
    match FirstMessage(data)
    case None => None
    case Some(message) =>
      match Get(message, "content")
      case Some(JString(content)) => Some(content)
      case Some(JArray(parts)) =>
        var chunks := Chunks(parts);
        if chunks == [] then None else Some(Join(chunks, ""))
      case _ => None
  }

  /** `_extract_message_content`: the chunks of a list `content` are
      gathered by an append loop. */
  method ExtractMessageContent(data: Value) returns (r: Option<string>)
    ensures r == MessageContent(data)
  {
    var first := FirstMessage(data);
    if first.None? {
      return None;
    }
    var content := Get(first.value, "content");
    if content.Some? && content.value.JString? {
      return Some(content.value.s);
    }
    if content.Some? && content.value.JArray? {
      var parts := content.value.items;
      var chunks: seq<string> := [];
      var i := 0;
      while i < |parts|
        invariant 0 <= i <= |parts|
        invariant chunks == Chunks(parts[..i])
      {
        var part := parts[i];
        if part.JObject? && Get(part.fields, "text").Some? && Get(part.fields, "text").value.JString? {
          chunks := chunks + [Get(part.fields, "text").value.s];
        } else if part.JString? {
          chunks := chunks + [part.s];
        }
        assert parts[..i + 1][..i] == parts[..i];
        i := i + 1;
      }
      assert parts[..i] == parts;
      if chunks == [] {
        return None;
      }
      return Some(Join(chunks, ""));
    }
    return None;
  }

  /** Whether the decoded body is an object with a truthy `error` field. */
  predicate CarriesError(data: Value) {
    data.JObject? && Truthy(Get(data.fields, "error"))
  }

  /** The mapping of a status below 400 and its body. */
  function Interpret(response: HttpResponse, parse: string -> Option<Value>): (r: Result<string, UpstreamError>)
    requires Shrinks(parse)
    ensures r.Ok? ==> r.value != [] && Strip(r.value) == r.value && !LooksLikeUpstreamErrorText(r.value)
  {
    match parse(response.text)
    case None => Err(MalformedResponseError)
    case Some(data) =>
      if CarriesError(data) then
        Err(HTTPError(response.status, ExtractErrorMessage(data, parse), Some(data), None))
      else
        match MessageContent(data)
        case None => Err(EmptyResponseError)
        case Some(content) =>
          if Strip(content) == [] || LooksLikeUpstreamErrorText(content) then Err(EmptyResponseError)
          else
            StripIdempotent(content);
            SuspicionOfStripped(content);
            Ok(Strip(content))
  }

  /** One call of the client's `translate`: a missing key fails before any
      request; transport failures, error statuses, undecodable bodies,
      error bodies and empty or suspicious replies each map to their
      error category; otherwise the stripped reply. */
  function Translate(apiKey: Option<string>, post: PostOutcome, parse: string -> Option<Value>,
                     parseFloat: string -> Option<real>): (r: Result<string, UpstreamError>)
    requires Shrinks(parse)
  {
    if apiKey.None? || apiKey.value == "" then
      Err(HTTPError(401, KeyMissing, None, None))
    else
      match post
      case TimedOut => Err(TimeoutError)
      case TransportFailed(message) => Err(HTTPError(0, message, None, None))
      case Received(response) =>
        if response.status >= 400 then
          Err(HTTPError(response.status, ExtractErrorMessage(JString(response.text), parse),
            Some(JString(response.text)), ParseRetryAfter(response.retryAfterHeader, parseFloat)))
        else
          Interpret(response, parse)
  }

  /** Without a key the call fails with status 401 whatever the network
      would have done. */
  lemma MissingKey(apiKey: Option<string>, post: PostOutcome, parse: string -> Option<Value>,
                   parseFloat: string -> Option<real>)
    requires Shrinks(parse)
    requires apiKey.None? || apiKey == Some("")
    ensures Translate(apiKey, post, parse, parseFloat) == Err(HTTPError(401, KeyMissing, None, None))
  {
  }

  /** A timeout and any other transport failure. */
  lemma TransportFailures(apiKey: string, message: string, parse: string -> Option<Value>,
                         parseFloat: string -> Option<real>)
    requires Shrinks(parse)
    requires apiKey != ""
    ensures Translate(Some(apiKey), TimedOut, parse, parseFloat) == Err(TimeoutError)
    ensures Translate(Some(apiKey), TransportFailed(message), parse, parseFloat)
      == Err(HTTPError(0, message, None, None))
  {
  }

  /** An error status carries the status, the extracted message, the raw
      body text and the parsed Retry-After. */
  lemma ErrorStatus(apiKey: string, response: HttpResponse, parse: string -> Option<Value>,
                    parseFloat: string -> Option<real>)
    requires Shrinks(parse)
    requires apiKey != "" && response.status >= 400
    ensures var r := Translate(Some(apiKey), Received(response), parse, parseFloat);
      && r.Err? && r.error.HTTPError?
      && r.error.status == response.status
      && r.error.message == ExtractErrorMessage(JString(response.text), parse)
      && r.error.body == Some(JString(response.text))
      && r.error.retryAfter == ParseRetryAfter(response.retryAfterHeader, parseFloat)
  {
  }

  /** Below status 400: an undecodable body is malformed, and a decoded
      object with a truthy `error` field is an HTTP error with the
      response's own status and the decoded body. */
  lemma BodyErrors(apiKey: string, response: HttpResponse, parse: string -> Option<Value>,
                   parseFloat: string -> Option<real>)
    requires Shrinks(parse)
    requires apiKey != "" && response.status < 400
    ensures parse(response.text).None? ==>
      Translate(Some(apiKey), Received(response), parse, parseFloat) == Err(MalformedResponseError)
    ensures parse(response.text).Some? && CarriesError(parse(response.text).value) ==>
      var r := Translate(Some(apiKey), Received(response), parse, parseFloat);
      && r.Err? && r.error.HTTPError? && r.error.status == response.status
      && r.error.message == ExtractErrorMessage(parse(response.text).value, parse)
      && r.error.body == parse(response.text) && r.error.retryAfter == None
  {
  }

  /** A successful call's result is the stripped reply content: non-empty,
      already stripped, and not suspicious. */
  lemma SuccessIsClean(apiKey: Option<string>, post: PostOutcome, parse: string -> Option<Value>,
                       parseFloat: string -> Option<real>)
    requires Shrinks(parse)
    requires Translate(apiKey, post, parse, parseFloat).Ok?
    ensures var text := Translate(apiKey, post, parse, parseFloat).value;
      && text != [] && Strip(text) == text && !LooksLikeUpstreamErrorText(text)
      && post.Received? && post.response.status < 400 && parse(post.response.text).Some?
      && MessageContent(parse(post.response.text).value).Some?
      && text == Strip(MessageContent(parse(post.response.text).value).value)
  {
    var data := parse(post.response.text).value;
    assert Translate(apiKey, post, parse, parseFloat) == Interpret(post.response, parse);
    assert !CarriesError(data) && MessageContent(data).Some?;
  }

  /** Conversely, a decoded body below 400 without an error whose content
      is neither blank nor suspicious gives the stripped content. */
  lemma CleanContentSucceeds(apiKey: string, response: HttpResponse, parse: string -> Option<Value>,
                             parseFloat: string -> Option<real>, data: Value, content: string)
    requires Shrinks(parse)
    requires apiKey != "" && response.status < 400
    requires parse(response.text) == Some(data) && !CarriesError(data)
    requires MessageContent(data) == Some(content)
    requires Strip(content) != [] && !LooksLikeUpstreamErrorText(content)
    ensures Translate(Some(apiKey), Received(response), parse, parseFloat) == Ok(Strip(content))
  {
    ReceivedBelow400(apiKey, response, parse, parseFloat);
    InterpretClean(response, parse, data, content);
  }

  /** Below status 400 the call's result is the body's interpretation. */
  lemma ReceivedBelow400(apiKey: string, response: HttpResponse, parse: string -> Option<Value>,
                         parseFloat: string -> Option<real>)
    requires Shrinks(parse)
    requires apiKey != "" && response.status < 400
    ensures Translate(Some(apiKey), Received(response), parse, parseFloat) == Interpret(response, parse)
  {
  }

  lemma InterpretClean(response: HttpResponse, parse: string -> Option<Value>, data: Value, content: string)
    requires Shrinks(parse)
    requires parse(response.text) == Some(data) && !CarriesError(data)
    requires MessageContent(data) == Some(content)
    requires Strip(content) != [] && !LooksLikeUpstreamErrorText(content)
    ensures Interpret(response, parse) == Ok(Strip(content))
  {
  }

  /** The empty-response category is exactly: a decoded body without an
      error, whose content is missing, blank or suspicious. */
  lemma EmptyResponseIff(apiKey: string, response: HttpResponse, parse: string -> Option<Value>,
                         parseFloat: string -> Option<real>)
    requires Shrinks(parse)
    requires apiKey != ""
    ensures Translate(Some(apiKey), Received(response), parse, parseFloat) == Err(EmptyResponseError)
      <==> (
        && response.status < 400 && parse(response.text).Some? && !CarriesError(parse(response.text).value)
        && var content := MessageContent(parse(response.text).value);
           (content.None? || LooksLikeUpstreamErrorText(content.value)))
  {
    if parse(response.text).Some? {
      var content := MessageContent(parse(response.text).value);
      if content.Some? && Strip(content.value) == [] {
        BlankIsSuspicious(content.value);
      }
    }
  }
}
