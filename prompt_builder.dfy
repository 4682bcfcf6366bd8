/** Assembly of the two chat messages sent upstream for one request: the
    system prompt, and a user prompt naming the language pair, listing the
    conversation context and ending with the text to translate. */
module PromptBuilder {
  import opened Text
  import opened Models

  datatype Message = Message(role: string, content: string)

  const ContextHeader := "Conversation context (for understanding only; DO NOT translate these lines):"

  const NoContext := "(none)"

  /** (source language, target language) for a direction name. */
  function LanguagePair(direction: string): (r: (string, string))
    ensures r.0 != r.1
    ensures r.1 == "German" <==> direction == "outgoing"
  {
    if direction == "outgoing" then ("English", "German") else ("German", "English")
  }

  /** Outgoing text goes from English to German; every other direction
      name, incoming included, goes the opposite way. */
  lemma LanguagePairByDirection(direction: string)
    ensures LanguagePair(DirectionName(Outgoing)) == ("English", "German")
    ensures direction != "outgoing" ==> LanguagePair(direction) == ("German", "English")
    ensures LanguagePair(DirectionName(Incoming)) == ("German", "English")
  {
  }

  function ContextLine(item: ContextMessage): string {
    "- " + RoleName(item.role) + ": " + item.text
  }

  /** One line per context entry, in the order given. */
  function ContextLines(items: seq<ContextMessage>): (lines: seq<string>)
    ensures |lines| == |items|
    ensures forall i :: 0 <= i < |items| ==> lines[i] == ContextLine(items[i])
  {
    if items == [] then [] else ContextLines(items[..|items| - 1]) + [ContextLine(items[|items| - 1])]
  }

  /** "(none)" for no context, otherwise the header line and one line per
      entry. */
  function ContextBlock(context: seq<ContextMessage>): (r: string)
    ensures context == [] <==> r == NoContext
    ensures context != [] ==> ContextHeader <= r
  {
    if context == [] then NoContext
    else
      var lines := [ContextHeader] + ContextLines(context);
      JoinStartsWithFirst(lines, "\n");
      assert |NoContext| < |ContextHeader|;
      Join(lines, "\n")
  }

  /** Everything in the user prompt before the context block. */
  function Preamble(request: TranslateRequest): string {
    var direction := DirectionName(request.direction);
    var (source, target) := LanguagePair(direction);
    Intro + DirectionLine(direction, source, target) + RulesLine
    + RuleOne + RuleTwo + RuleThree + RuleFour + TargetRule(target) + "\n\n"
  }

  const Intro := "You are translating a chat message.\n"
  const RulesLine := "Rules:\n"
  const OnlyCurrentText := "Translate ONLY the CURRENT_TEXT"
  const RuleOne := "1. " + OnlyCurrentText + " below.\n"
  const RuleTwo := "2. Use context only for disambiguation and tone.\n"
  const RuleThree := "3. Return only the translated text with no commentary, no quotes, no labels.\n"
  const RuleFour := "4. Preserve meaning, intent, and casual chat tone.\n"

  function DirectionLine(direction: string, source: string, target: string): string {
    "Direction: " + direction + " (" + source + " -> " + target + ")\n"
  }

  function TargetRule(target: string): string {
    "5. Target language: " + target + "."
  }

  const CurrentTextLabel := "CURRENT_TEXT:\n"

  function UserPrompt(request: TranslateRequest): string {
    Preamble(request) + ContextBlock(request.context) + "\n\n" + CurrentTextLabel + request.text
  }

  /** The system message carrying `systemPrompt` verbatim, then the user
      message; the context lines are collected one entry at a time. */
  method BuildMessages(systemPrompt: string, request: TranslateRequest) returns (messages: seq<Message>)
    ensures |messages| == 2
    ensures messages[0] == Message("system", systemPrompt)
    ensures messages[1] == Message("user", UserPrompt(request))
  {
    var contextBlock := NoContext;
    if request.context != [] {
      var lines := [ContextHeader];
      var i := 0;
      while i < |request.context|
        invariant 0 <= i <= |request.context|
        invariant lines == [ContextHeader] + ContextLines(request.context[..i])
      {
        var item := request.context[i];
        lines := lines + ["- " + RoleName(item.role) + ": " + item.text];
        i := i + 1;
        assert request.context[..i][..i - 1] == request.context[..i - 1];
      }
      assert request.context[..i] == request.context;
      contextBlock := Join(lines, "\n");
    }
    var userPrompt := Preamble(request) + contextBlock + "\n\n" + CurrentTextLabel + request.text;
    messages := [Message("system", systemPrompt), Message("user", userPrompt)];
  }

  /** The user prompt ends with the label and the text to translate. */
  lemma UserPromptEndsWithText(request: TranslateRequest)
    ensures var u := UserPrompt(request); var tail := CurrentTextLabel + request.text;
      |tail| <= |u| && u[|u| - |tail|..] == tail
  {
    var head := Preamble(request) + ContextBlock(request.context) + "\n\n";
    assert UserPrompt(request) == head + (CurrentTextLabel + request.text);
  }

  /** Whatever the part before the context block contains, the user
      prompt contains. */
  lemma PreambleInPrompt(request: TranslateRequest, n: string)
    requires Contains(Preamble(request), n)
    ensures Contains(UserPrompt(request), n)
  {
    var p := Preamble(request);
    var block := ContextBlock(request.context);
    ContainsPrefixOf(p, block, n);
    ContainsPrefixOf(p + block, "\n\n", n);
    ContainsPrefixOf(p + block + "\n\n", CurrentTextLabel, n);
    ContainsPrefixOf(p + block + "\n\n" + CurrentTextLabel, request.text, n);
  }

  /** The user prompt names the target language of the direction. */
  lemma UserPromptNamesTarget(request: TranslateRequest)
    ensures Contains(UserPrompt(request), TargetRule(LanguagePair(DirectionName(request.direction)).1))
  {
    var direction := DirectionName(request.direction);
    var (source, target) := LanguagePair(direction);
    var rules := Intro + DirectionLine(direction, source, target) + RulesLine
      + RuleOne + RuleTwo + RuleThree + RuleFour;
    ContainsInfix(rules, TargetRule(target), "\n\n");
    PreambleInPrompt(request, TargetRule(target));
  }

  lemma RuleSentence()
    ensures Contains(RuleOne, OnlyCurrentText)
  {
    ContainsInfix("1. ", OnlyCurrentText, " below.\n");
  }

  /** The user prompt states the rule to translate only the current text. */
  lemma UserPromptStatesRule(request: TranslateRequest)
    ensures Contains(UserPrompt(request), OnlyCurrentText)
  {
    var direction := DirectionName(request.direction);
    var (source, target) := LanguagePair(direction);
    var lead := Intro + DirectionLine(direction, source, target) + RulesLine;
    var n := OnlyCurrentText;
    RuleSentence();
    ContainsWithin(lead, RuleOne, RuleTwo, n);
    ContainsPrefixOf(lead + RuleOne + RuleTwo, RuleThree, n);
    ContainsPrefixOf(lead + RuleOne + RuleTwo + RuleThree, RuleFour, n);
    ContainsPrefixOf(lead + RuleOne + RuleTwo + RuleThree + RuleFour, TargetRule(target), n);
    ContainsPrefixOf(lead + RuleOne + RuleTwo + RuleThree + RuleFour + TargetRule(target), "\n\n", n);
    PreambleInPrompt(request, n);
  }

  /** Every context entry appears in the user prompt as its own line. */
  lemma UserPromptShowsContext(request: TranslateRequest, i: nat)
    requires i < |request.context|
    ensures Contains(UserPrompt(request), ContextLine(request.context[i]))
  {
    var n := ContextLine(request.context[i]);
    var p := Preamble(request);
    var block := ContextBlock(request.context);
    var lines := [ContextHeader] + ContextLines(request.context);
    assert lines[i + 1] == n;
    JoinContainsPart(lines, "\n", i + 1);
    assert block == Join(lines, "\n");
    ContainsWithin(p, block, "\n\n", n);
    ContainsPrefixOf(p + block + "\n\n", CurrentTextLabel, n);
    ContainsPrefixOf(p + block + "\n\n" + CurrentTextLabel, request.text, n);
  }
}
