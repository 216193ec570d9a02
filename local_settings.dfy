/**
 * The connection settings hook (`hooks/use-local-settings.ts`): the
 * settings start at their defaults, are overlaid once with what the browser
 * storage holds under "psalm_settings_v1", and every update is merged in and
 * written back. A storage that throws never stops the in-memory change.
 */
module LocalSettings {
  import opened Wrappers
  import opened ChatTypes
  import opened Json

  const StorageKey: string := "psalm_settings_v1"
  const AdminFlagKey: string := "adminUnlocked"

  /** `DEFAULT_SETTINGS`. */
  const Defaults: ChatSettings := ChatSettings("", "", "gpt-4", 0.7, 2048, 30000, Some(Capabilities(true, false, false)))

  /** The browser's `localStorage`: its items, and whether access to it throws (`available` false). */
  class Storage {
    var items: map<string, string>
    var available: bool

    constructor (items: map<string, string>, available: bool)
      ensures this.items == items && this.available == available
    {
      this.items := items;
      this.available := available;
    }
  }

  /** `Partial<ChatSettings>`: the fields an update sets. */
  datatype SettingsPatch = SettingsPatch(
    baseUrl: Option<string>,
    apiKey: Option<string>,
    model: Option<string>,
    temperature: Option<real>,
    maxTokens: Option<int>,
    timeout: Option<int>,
    capabilities: Option<Capabilities>)

  const NoChange: SettingsPatch := SettingsPatch(None, None, None, None, None, None, None)

  /** `{ ...s, ...p }`: the fields the patch sets replace those of `s`. */
  function Merge(s: ChatSettings, p: SettingsPatch): (r: ChatSettings)
    ensures p.baseUrl.Some? ==> r.baseUrl == p.baseUrl.value
    ensures p.baseUrl.None? ==> r.baseUrl == s.baseUrl
    ensures p.apiKey.Some? ==> r.apiKey == p.apiKey.value
    ensures p.apiKey.None? ==> r.apiKey == s.apiKey
    ensures p.model.Some? ==> r.model == p.model.value
    ensures p.model.None? ==> r.model == s.model
    ensures p.temperature.Some? ==> r.temperature == p.temperature.value
    ensures p.temperature.None? ==> r.temperature == s.temperature
    ensures p.maxTokens.Some? ==> r.maxTokens == p.maxTokens.value
    ensures p.maxTokens.None? ==> r.maxTokens == s.maxTokens
    ensures p.timeout.Some? ==> r.timeout == p.timeout.value
    ensures p.timeout.None? ==> r.timeout == s.timeout
    ensures p.capabilities.Some? ==> r.capabilities == p.capabilities
    ensures p.capabilities.None? ==> r.capabilities == s.capabilities
  {
    ChatSettings(
      p.baseUrl.GetOr(s.baseUrl),
      p.apiKey.GetOr(s.apiKey),
      p.model.GetOr(s.model),
      p.temperature.GetOr(s.temperature),
      p.maxTokens.GetOr(s.maxTokens),
      p.timeout.GetOr(s.timeout),
      if p.capabilities.Some? then p.capabilities else s.capabilities)
  }

  /** Merging the same patch twice is merging it once; an empty patch changes nothing. */
  lemma MergeIdempotent(s: ChatSettings, p: SettingsPatch)
    ensures Merge(Merge(s, p), p) == Merge(s, p)
    ensures Merge(s, NoChange) == s
  {
  }

  /** `JSON.stringify` of the settings as an object; absent capabilities are left out of it. */
  function SettingsJson(s: ChatSettings): (j: Json)
    ensures j.JObj? && "model" in j.fields && j.fields["model"] == JStr(s.model)
    ensures "capabilities" in j.fields <==> s.capabilities.Some?
  {
    var fields := map[
      "baseUrl" := JStr(s.baseUrl),
      "apiKey" := JStr(s.apiKey),
      "model" := JStr(s.model),
      "temperature" := JNum(s.temperature),
      "maxTokens" := JNum(s.maxTokens as real),
      "timeout" := JNum(s.timeout as real)];
    match s.capabilities
    case None => JObj(fields)
    case Some(c) => JObj(fields["capabilities" := JObj(map["chat" := JBool(c.chat), "files" := JBool(c.files), "voice" := JBool(c.voice)])])
  }

  /** A string property of a parsed object. */
  function StrField(j: Json, key: string): Option<string> {
    match Prop(j, key)
    case Some(JStr(v)) => Some(v)
    case _ => None
  }

  /** A whole-number property of a parsed object. */
  function IntField(j: Json, key: string): Option<int> {
    match Prop(j, key)
    case Some(JNum(v)) => if v == v.Floor as real then Some(v.Floor) else None
    case _ => None
  }

  /** A number property of a parsed object. */
  function RealField(j: Json, key: string): Option<real> {
    match Prop(j, key)
    case Some(JNum(v)) => Some(v)
    case _ => None
  }

  /** A boolean property of a parsed object. */
  function BoolField(j: Json, key: string): Option<bool> {
    match Prop(j, key)
    case Some(JBool(v)) => Some(v)
    case _ => None
  }

  /** A capabilities object with its three flags. */
  function CapabilitiesField(j: Json): Option<Capabilities> {
    match Prop(j, "capabilities")
    case Some(c) =>
      var chat, files, voice := BoolField(c, "chat"), BoolField(c, "files"), BoolField(c, "voice");
      if chat.Some? && files.Some? && voice.Some? then Some(Capabilities(chat.value, files.value, voice.value)) else None
    case None => None
  }

  /** The fields a parsed value sets when spread over the settings. */
  function PatchOf(j: Json): (p: SettingsPatch)
    ensures !j.JObj? ==> p == NoChange
  {
    SettingsPatch(
      StrField(j, "baseUrl"),
      StrField(j, "apiKey"),
      StrField(j, "model"),
      RealField(j, "temperature"),
      IntField(j, "maxTokens"),
      IntField(j, "timeout"),
      CapabilitiesField(j))
  }

  /**
   * What the load effect makes of the stored text: nothing stored (or an
   * empty text) and text that does not parse leave the defaults; anything
   * else is spread over the defaults.
   */
  function Loaded(stored: Option<string>, codec: Codec): (r: ChatSettings)
    ensures stored.None? || stored == Some("") ==> r == Defaults
  {
    if stored.None? || stored.value == "" then Defaults
    else match codec.parse(stored.value)
      case None => Defaults
      case Some(j) => Merge(Defaults, PatchOf(j))
  }

  /**
   * Saved settings load back as they were, except that settings without
   * capabilities come back with the default ones, because the saved text
   * has no capabilities to spread.
   */
  lemma SaveLoadRoundTrip(s: ChatSettings, codec: Codec)
    requires Lawful(codec)
    ensures var back := Loaded(Some(codec.stringify(SettingsJson(s))), codec);
      && (s.capabilities.Some? ==> back == s)
      && (s.capabilities.None? ==> back == s.(capabilities := Defaults.capabilities))
  {
    var j := SettingsJson(s);
    assert IsBraced(codec.stringify(JObj(j.fields)));
    assert codec.parse(codec.stringify(j)) == Some(j);
    PatchOfSettings(s);
  }

  /** Reading the written object back yields every field, and the capabilities exactly when they were written. */
  lemma PatchOfSettings(s: ChatSettings)
    ensures PatchOf(SettingsJson(s)) ==
      SettingsPatch(Some(s.baseUrl), Some(s.apiKey), Some(s.model), Some(s.temperature),
        Some(s.maxTokens), Some(s.timeout), s.capabilities)
  {
    TextFieldsBack(s);
    NumberFieldsBack(s);
    CapabilitiesBack(s);
  }

  /** The written text fields read back as written. */
  lemma TextFieldsBack(s: ChatSettings)
    ensures var j := SettingsJson(s);
      StrField(j, "baseUrl") == Some(s.baseUrl) && StrField(j, "apiKey") == Some(s.apiKey) && StrField(j, "model") == Some(s.model)
  {
  }

  /** The written numbers read back as written; the whole numbers stay whole. */
  lemma NumberFieldsBack(s: ChatSettings)
    ensures var j := SettingsJson(s);
      RealField(j, "temperature") == Some(s.temperature) && IntField(j, "maxTokens") == Some(s.maxTokens) && IntField(j, "timeout") == Some(s.timeout)
  {
    assert (s.maxTokens as real).Floor == s.maxTokens;
    assert (s.timeout as real).Floor == s.timeout;
  }

  /** Written capabilities read back; none written reads as none. */
  lemma CapabilitiesBack(s: ChatSettings)
    ensures CapabilitiesField(SettingsJson(s)) == s.capabilities
  {
  }

  class SettingsHook {
    var settings: ChatSettings
    var isLoaded: bool

    /** The hook starts with the defaults, not yet loaded. */
    constructor ()
      ensures settings == Defaults && !isLoaded
    {
      settings := Defaults;
      isLoaded := false;
    }

    /**
     * The mount effect: the stored settings are overlaid on the defaults;
     * a storage that throws leaves the settings as they were; the hook is
     * loaded afterwards in every case.
     */
    method Load(storage: Storage, codec: Codec)
      modifies this
      ensures storage.available && StorageKey in storage.items && storage.items[StorageKey] != "" ==>
        var stored := storage.items[StorageKey];
        settings == if codec.parse(stored).Some? then Loaded(Some(stored), codec) else old(settings)
      ensures !(storage.available && StorageKey in storage.items && storage.items[StorageKey] != "") ==> settings == old(settings)
      ensures isLoaded
    {
      if storage.available && StorageKey in storage.items {
        var stored := storage.items[StorageKey];
        if stored != "" {
          var parsed := codec.parse(stored);
          if parsed.Some? {
            settings := Merge(Defaults, PatchOf(parsed.value));
          }
        }
      }
      isLoaded := true;
    }

    /**
     * `updateSettings`: the patch is merged into the settings, and the
     * result is written under the settings key when the storage can be
     * written; no other key changes.
     */
    method Update(p: SettingsPatch, storage: Storage, codec: Codec)
      modifies this`settings, storage`items
      ensures settings == Merge(old(settings), p)
      ensures storage.available ==> storage.items == old(storage.items)[StorageKey := codec.stringify(SettingsJson(settings))]
      ensures !storage.available ==> storage.items == old(storage.items)
    {
      var updated := Merge(settings, p);
      settings := updated;
      if storage.available {
        storage.items := storage.items[StorageKey := codec.stringify(SettingsJson(updated))];
      }
    }

    /** `resetSettings`: back to the defaults, and the stored settings are removed. */
    method Reset(storage: Storage)
      modifies this`settings, storage`items
      ensures settings == Defaults
      ensures storage.available ==> storage.items == old(storage.items) - {StorageKey}
      ensures !storage.available ==> storage.items == old(storage.items)
    {
      settings := Defaults;
      if storage.available {
        storage.items := storage.items - {StorageKey};
      }
    }
  }

  /** `isAdminUnlocked`: only in a browser, and only when the flag is exactly "true". */
  function AdminUnlocked(hasWindow: bool, items: map<string, string>): (r: bool)
    ensures !hasWindow ==> !r
    ensures hasWindow ==> (r <==> AdminFlagKey in items && items[AdminFlagKey] == "true")
  {
    hasWindow && AdminFlagKey in items && items[AdminFlagKey] == "true"
  }

  /** Saving settings never touches the admin flag. */
  lemma UpdateKeepsAdminFlag(hasWindow: bool, items: map<string, string>, text: string)
    ensures AdminUnlocked(hasWindow, items[StorageKey := text]) == AdminUnlocked(hasWindow, items)
    ensures AdminUnlocked(hasWindow, items - {StorageKey}) == AdminUnlocked(hasWindow, items)
  {
    assert StorageKey != AdminFlagKey;
  }
}
