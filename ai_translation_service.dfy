/** The client's translation coordinator: the guards in front of each call
    to the relay, the conversation context it sends with outgoing text, and
    the cache of incoming translations. The relay and the context source
    are parameters. */
module TranslationService {
  import opened Wrappers
  import opened Models
  import opened TranslationConfig

  datatype ProxyContextMessage = ProxyContextMessage(role: string, text: string)

  /** The body posted to the relay's translate endpoint. */
  datatype ProxyRequest = ProxyRequest(
    text: string,
    direction: string,
    chatId: Option<string>,
    context: seq<ProxyContextMessage>)

  datatype DisplayResult = DisplayResult(text: string, wasTranslated: bool, originalText: string)

  /** The relay: given the base URL and a request, the translated text it
      answers with (the request's own text when the call fails). */
  type Proxy = (string, ProxyRequest) -> string

  /** Recent messages of a chat, at most the given number. */
  type ContextSource = (string, int) -> seq<ProxyContextMessage>

  const MinContextMessages := 2
  const MaxContextMessages := 100

  /** The number of context messages asked of the context source: the
      configured count clamped into [2, 100]. */
  function ContextLimit(count: int): (r: int)
    ensures MinContextMessages <= r <= MaxContextMessages
    ensures MinContextMessages <= count <= MaxContextMessages ==> r == count
    ensures count < MinContextMessages ==> r == MinContextMessages
    ensures count > MaxContextMessages ==> r == MaxContextMessages
  {
    var atLeast := if count < MinContextMessages then MinContextMessages else count;
    if atLeast > MaxContextMessages then MaxContextMessages else atLeast
  }

  predicate WantsContext(settings: Settings, chatId: Option<string>) {
    settings.contextMode == ConversationContext && chatId.Some? && settings.contextMessageCount >= MinContextMessages
  }

  /** `buildContext`: nothing unless conversation mode is on, there is a
      chat and at least two messages are configured; then the chat's
      recent messages, asked for with a limit in [2, 100]. */
  function BuildContext(settings: Settings, chatId: Option<string>, recent: ContextSource): (r: seq<ProxyContextMessage>)
    ensures !WantsContext(settings, chatId) ==> r == []
    ensures WantsContext(settings, chatId) ==>
      exists limit :: MinContextMessages <= limit <= MaxContextMessages && r == recent(chatId.value, limit)
    ensures WantsContext(settings, chatId) && settings.contextMessageCount <= MaxContextMessages ==>
      r == recent(chatId.value, settings.contextMessageCount)
    ensures WantsContext(settings, chatId) && settings.contextMessageCount > MaxContextMessages ==>
      r == recent(chatId.value, MaxContextMessages)
  {
    if !WantsContext(settings, chatId) then []
    else recent(chatId.value, ContextLimit(settings.contextMessageCount))
  }

  /** The display result for incoming text, the request sent if any, and
      the cache afterwards. Empty or switched-off text comes back as it
      is; a cached translation is used without a request; otherwise the
      relay is asked with no context and its answer is cached. */
  function IncomingDisplay(
    settings: Settings, cache: map<(string, string), string>,
    text: string, chatId: Option<string>, messageKey: string, proxy: Proxy)
    : (r: (DisplayResult, Option<ProxyRequest>, map<(string, string), string>))
    ensures r.0.originalText == text
    ensures r.0.wasTranslated <==> r.0.text != text
    ensures (text == [] || !IsEnabled(settings, chatId, true)) ==>
      r.0.text == text && r.1.None? && r.2 == cache
    ensures text != [] && IsEnabled(settings, chatId, true) && (messageKey, text) in cache ==>
      r.0.text == cache[(messageKey, text)] && r.1.None? && r.2 == cache
    ensures text != [] && IsEnabled(settings, chatId, true) && (messageKey, text) !in cache ==>
      (&& r.1 == Some(ProxyRequest(text, DirectionName(Incoming), chatId, []))
       && r.0.text == proxy(settings.proxyBaseURL, r.1.value)
       && r.2 == cache[(messageKey, text) := r.0.text])
  {
    var asIs := DisplayResult(text, false, text);
    if text == [] || !IsEnabled(settings, chatId, true) then (asIs, None, cache)
    else if (messageKey, text) in cache then
      var cached := cache[(messageKey, text)];
      (DisplayResult(cached, cached != text, text), None, cache)
    else
      var request := ProxyRequest(text, DirectionName(Incoming), chatId, []);
      var translated := proxy(settings.proxyBaseURL, request);
      (DisplayResult(translated, translated != text, text), Some(request), cache[(messageKey, text) := translated])
  }

  /** Asking again for the same message gives the same result from the
      cache, without a request and without changing the cache. */
  lemma {:induction false} RepeatIsCached(
    settings: Settings, cache: map<(string, string), string>,
    text: string, chatId: Option<string>, messageKey: string, proxy: Proxy, later: Proxy)
    ensures var first := IncomingDisplay(settings, cache, text, chatId, messageKey, proxy);
      var second := IncomingDisplay(settings, first.2, text, chatId, messageKey, later);
      second.0 == first.0 && second.1.None? && second.2 == first.2
  {
    var first := IncomingDisplay(settings, cache, text, chatId, messageKey, proxy);
    if text != [] && IsEnabled(settings, chatId, true) {
      assert (messageKey, text) in first.2;
      assert first.2[(messageKey, text)] == first.0.text;
    }
  }

  /** Every request the client sends names a direction the relay accepts. */
  lemma SentDirectionsParse(
    settings: Settings, cache: map<(string, string), string>,
    text: string, chatId: Option<string>, messageKey: string, proxy: Proxy)
    ensures var r := IncomingDisplay(settings, cache, text, chatId, messageKey, proxy);
      r.1.Some? ==> ParseDirection(r.1.value.direction) == Some(Incoming)
  {
    DirectionRoundTrip(Incoming);
  }

  /** `AITranslationService`: the coordinator over a settings store and a
      cache of incoming translations keyed by message and text. */
  class AITranslationService {
    const config: AITranslationConfig
    var cache: map<(string, string), string>

    constructor (config: AITranslationConfig)
      ensures this.config == config && cache == map[]
    {
      this.config := config;
      cache := map[];
    }

    /** `translateOutgoing`: empty or switched-off text is sent back
        unchanged without a request; otherwise the relay is asked, with
        the conversation context, and its answer is the result. */
    method TranslateOutgoing(text: string, chatId: Option<string>, proxy: Proxy, recent: ContextSource)
      returns (translated: string, sent: Option<ProxyRequest>)
      ensures (text == [] || !IsEnabled(config.stored, chatId, false)) ==> translated == text && sent.None?
      ensures text != [] && IsEnabled(config.stored, chatId, false) ==>
        && sent == Some(ProxyRequest(text, DirectionName(Outgoing), chatId, BuildContext(config.stored, chatId, recent)))
        && translated == proxy(config.stored.proxyBaseURL, sent.value)
      ensures sent.Some? ==> ParseDirection(sent.value.direction) == Some(Outgoing)
    {
      if text == [] {
        return text, None;
      }
      if !IsEnabled(config.Load(), chatId, false) {
        return text, None;
      }
      var settings := config.Load();
      var context := BuildContext(settings, chatId, recent);
      var request := ProxyRequest(text, DirectionName(Outgoing), chatId, context);
      translated := proxy(settings.proxyBaseURL, request);
      sent := Some(request);
      DirectionRoundTrip(Outgoing);
    }

    /** `translateIncomingDisplayText`: the result, the request and the
        new cache are those of `IncomingDisplay`; nothing else changes. */
    method TranslateIncomingDisplayText(text: string, chatId: Option<string>, messageKey: string, proxy: Proxy)
      returns (result: DisplayResult, sent: Option<ProxyRequest>)
      modifies this
      ensures (result, sent, cache) == IncomingDisplay(config.stored, old(cache), text, chatId, messageKey, proxy)
      ensures result.originalText == text
      ensures sent.None? ==> cache == old(cache)
    {
      var asIs := DisplayResult(text, false, text);
      if text == [] {
        return asIs, None;
      }
      if !IsEnabled(config.Load(), chatId, true) {
        return asIs, None;
      }
      var key := (messageKey, text);
      if key in cache {
        var cached := cache[key];
        return DisplayResult(cached, cached != text, text), None;
      }
      var settings := config.Load();
      var request := ProxyRequest(text, DirectionName(Incoming), chatId, []);
      var response := proxy(settings.proxyBaseURL, request);
      cache := cache[key := response];
      result := DisplayResult(response, response != text, text);
      sent := Some(request);
    }
  }
}
