/** The client's translation settings: their defaults, the decision whether
    a chat and direction are translated, and the per-chat switches. */
module TranslationConfig {
  import opened Wrappers

  datatype ContextMode = SingleMessage | ConversationContext

  /** `AITranslationSettings`. */
  datatype Settings = Settings(
    globalEnabled: bool,
    translateIncomingEnabled: bool,
    translateOutgoingEnabled: bool,
    proxyBaseURL: string,
    showRawAPIResponses: bool,
    contextMode: ContextMode,
    contextMessageCount: int,
    perChatEnabled: map<string, bool>)

  /** The settings a fresh install starts with: translation switched off
      globally, both directions on, single-message mode, 20 context
      messages, no per-chat entries. */
  const DefaultSettings := Settings(false, true, true, "", false, SingleMessage, 20, map[])

  /** The per-chat switch as the decision reads it: a chat without an entry
      is on. */
  function PerChatEffective(settings: Settings, chatId: string): bool {
    if chatId in settings.perChatEnabled then settings.perChatEnabled[chatId] else true
  }

  /** `isEnabled`: nothing is translated while the global switch is off;
      a direction whose switch is off is not translated; past those, a
      message with no chat is translated and a chat's own switch decides
      otherwise. */
  function IsEnabled(settings: Settings, chatId: Option<string>, directionIncoming: bool): (r: bool)
    ensures !settings.globalEnabled ==> !r
    ensures directionIncoming && !settings.translateIncomingEnabled ==> !r
    ensures !directionIncoming && !settings.translateOutgoingEnabled ==> !r
    ensures settings.globalEnabled && (if directionIncoming then settings.translateIncomingEnabled else settings.translateOutgoingEnabled) ==>
      r == (chatId.None? || PerChatEffective(settings, chatId.value))
  {
    if !settings.globalEnabled then false
    else if directionIncoming && !settings.translateIncomingEnabled then false
    else if !directionIncoming && !settings.translateOutgoingEnabled then false
    else match chatId
      case None => true
      case Some(id) => if id in settings.perChatEnabled then settings.perChatEnabled[id] else true
  }

  /** `perChatOverride`: no answer for a missing chat, otherwise the stored
      entry itself, absent when the chat has none. */
  function PerChatOverride(settings: Settings, chatId: Option<string>): (r: Option<bool>)
    ensures chatId.None? ==> r.None?
    ensures chatId.Some? ==> (r.Some? <==> chatId.value in settings.perChatEnabled)
    ensures r.Some? ==> r.value == settings.perChatEnabled[chatId.value]
  {
    match chatId
    case None => None
    case Some(id) => if id in settings.perChatEnabled then Some(settings.perChatEnabled[id]) else None
  }

  /** The mutation `setPerChatEnabled` applies: switching a chat on removes
      its entry, switching it off stores `false`. */
  function WithPerChatEnabled(settings: Settings, enabled: bool, chatId: string): (r: Settings)
    ensures PerChatEffective(r, chatId) == enabled
    ensures enabled ==> chatId !in r.perChatEnabled
    ensures !enabled ==> chatId in r.perChatEnabled && !r.perChatEnabled[chatId]
    ensures forall other :: other != chatId ==>
      (other in r.perChatEnabled <==> other in settings.perChatEnabled)
    ensures forall other :: other != chatId && other in settings.perChatEnabled ==>
      r.perChatEnabled[other] == settings.perChatEnabled[other]
    ensures r.(perChatEnabled := settings.perChatEnabled) == settings
  {
    if enabled then settings.(perChatEnabled := settings.perChatEnabled - {chatId})
    else settings.(perChatEnabled := settings.perChatEnabled[chatId := false])
  }

  /** No per-chat entry is `true`: the per-chat switches only ever store
      `false`. */
  ghost predicate NoTrueEntries(settings: Settings) {
    forall id :: id in settings.perChatEnabled ==> !settings.perChatEnabled[id]
  }

  lemma DefaultsHaveNoTrueEntries()
    ensures NoTrueEntries(DefaultSettings)
    ensures !IsEnabled(DefaultSettings, None, true) && !IsEnabled(DefaultSettings, None, false)
  {
  }

  /** Switching a chat on or off keeps every stored entry `false`. */
  lemma SwitchKeepsNoTrueEntries(settings: Settings, enabled: bool, chatId: string)
    requires NoTrueEntries(settings)
    ensures NoTrueEntries(WithPerChatEnabled(settings, enabled, chatId))
  {
    var r := WithPerChatEnabled(settings, enabled, chatId);
    forall id | id in r.perChatEnabled
      ensures !r.perChatEnabled[id]
    {
      if id != chatId {
        assert id in settings.perChatEnabled;
      }
    }
  }

  /** Once every global and direction switch lets a message through, the
      chat's own switch decides: off after switching it off, on after
      switching it on. */
  lemma SwitchDecides(settings: Settings, enabled: bool, chatId: string, directionIncoming: bool)
    requires settings.globalEnabled
    requires if directionIncoming then settings.translateIncomingEnabled else settings.translateOutgoingEnabled
    ensures IsEnabled(WithPerChatEnabled(settings, enabled, chatId), Some(chatId), directionIncoming) == enabled
  {
  }

  /** Switching one chat leaves every other chat's decision as it was. */
  lemma SwitchIsLocal(settings: Settings, enabled: bool, chatId: string, other: Option<string>, directionIncoming: bool)
    requires other != Some(chatId)
    ensures IsEnabled(WithPerChatEnabled(settings, enabled, chatId), other, directionIncoming)
      == IsEnabled(settings, other, directionIncoming)
  {
    if other.Some? {
      assert PerChatEffective(WithPerChatEnabled(settings, enabled, chatId), other.value)
        == PerChatEffective(settings, other.value);
    }
  }

  /** The state and answer of `togglePerChatEnabled` for a chat: the
      chat's effective switch flipped, and the new value. */
  function Toggled(settings: Settings, chatId: string): (r: (Settings, bool))
    ensures r.1 == !PerChatEffective(settings, chatId)
    ensures PerChatEffective(r.0, chatId) == r.1
  {
    var updated := !PerChatEffective(settings, chatId);
    (WithPerChatEnabled(settings, updated, chatId), updated)
  }

  /** Toggling twice restores the chat's effective switch, and when no
      entry is `true` it restores the settings exactly. */
  lemma ToggleTwice(settings: Settings, chatId: string)
    ensures PerChatEffective(Toggled(Toggled(settings, chatId).0, chatId).0, chatId)
      == PerChatEffective(settings, chatId)
    ensures NoTrueEntries(settings) ==> Toggled(Toggled(settings, chatId).0, chatId).0 == settings
  {
    if NoTrueEntries(settings) {
      var twice := Toggled(Toggled(settings, chatId).0, chatId).0;
      assert twice.perChatEnabled == settings.perChatEnabled;
    }
  }

  /** `AITranslationConfig`: the stored settings, read by `Load` and
      rewritten by the mutating calls. */
  class AITranslationConfig {
    var stored: Settings

    /** A store that holds nothing yet reads back the defaults. */
    constructor ()
      ensures stored == DefaultSettings
    {
      stored := DefaultSettings;
    }

    function Load(): Settings
      reads this
    {
      stored
    }

    /** `update`: the stored settings become what `mutate` makes of them. */
    method Update(mutate: Settings -> Settings)
      modifies this
      ensures stored == mutate(old(stored))
    {
      var settings := Load();
      settings := mutate(settings);
      stored := settings;
    }

    /** `setPerChatEnabled`: answers `enabled`; leaves the settings alone
        without a chat, and otherwise applies the per-chat switch. */
    method SetPerChatEnabled(enabled: bool, chatId: Option<string>) returns (r: bool)
      modifies this
      ensures r == enabled
      ensures chatId.None? ==> stored == old(stored)
      ensures chatId.Some? ==> stored == WithPerChatEnabled(old(stored), enabled, chatId.value)
      ensures NoTrueEntries(old(stored)) ==> NoTrueEntries(stored)
    {
      if chatId.None? {
        return enabled;
      }
      var id := chatId.value;
      Update(s => WithPerChatEnabled(s, enabled, id));
      if NoTrueEntries(old(stored)) {
        SwitchKeepsNoTrueEntries(old(stored), enabled, id);
      }
      r := enabled;
    }

    /** `togglePerChatEnabled`: without a chat, answers `true` and changes
        nothing; otherwise flips the chat's effective switch and answers
        the new value. */
    method TogglePerChatEnabled(chatId: Option<string>) returns (r: bool)
      modifies this
      ensures chatId.None? ==> r && stored == old(stored)
      ensures chatId.Some? ==> (stored, r) == Toggled(old(stored), chatId.value)
      ensures chatId.Some? ==> r == !PerChatEffective(old(stored), chatId.value)
    {
      if chatId.None? {
        return true;
      }
      var id := chatId.value;
      var current := if id in Load().perChatEnabled then Load().perChatEnabled[id] else true;
      var updated := !current;
      var _ := SetPerChatEnabled(updated, chatId);
      r := updated;
    }
  }
}
