/**
 * The configuration dialog: choosing the AI platform and its API key, and
 * editing the list of predefined requirements (add, delete, edit in place,
 * check and uncheck) before saving it back to the page.
 */
module ConfigModal {
  import opened Options
  import opened Strings
  import opened Requirements

  datatype Platform = OpenAI | Replicate

  /** The key typed for each platform; the empty string when none. */
  datatype ApiKeys = ApiKeys(openai: string, replicate: string) {

    /** `apiKeys[platform]`. */
    function Get(p: Platform): string {
      match p
      case OpenAI => openai
      case Replicate => replicate
    }

    /** `{ ...apiKeys, [platform]: key }`. */
    function With(p: Platform, key: string): (r: ApiKeys)
      ensures r.Get(p) == key
      ensures forall q: Platform | q != p :: r.Get(q) == Get(q)
    {
      match p
      case OpenAI => this.(openai := key)
      case Replicate => this.(replicate := key)
    }
  }

  /** The page's AI configuration; a key it has never stored is None. */
  datatype AIConfig = AIConfig(platform: Platform, openaiKey: Option<string>, replicateKey: Option<string>)

  /** `aiConfig.apiKeys.x || ""` for both platforms: a missing or empty key becomes "". */
  function KeysOf(config: AIConfig): (k: ApiKeys)
    ensures config.openaiKey.Some? ==> k.openai == config.openaiKey.value
    ensures config.openaiKey.None? ==> k.openai == ""
    ensures config.replicateKey.Some? ==> k.replicate == config.replicateKey.value
    ensures config.replicateKey.None? ==> k.replicate == ""
  {
    ApiKeys(config.openaiKey.GetOr(""), config.replicateKey.GetOr(""))
  }

  /** Keys saved as typed are the keys shown when the dialog is opened again. */
  lemma SavedKeysReload(p: Platform, keys: ApiKeys)
    ensures KeysOf(AIConfig(p, Some(keys.openai), Some(keys.replicate))) == keys
  {
  }

  /** The value `onCheckedChange` receives. */
  datatype CheckedState = Checked | Unchecked | Indeterminate

  /** The tab `saveAIConfig` closes the dialog from. */
  const PlatformTab: string := "ai-platform"
  /** The tab `saveRequirements` closes the dialog from. */
  const RequirementsTab: string := "requirements"

  /** `req-${Date.now()}`, with the clock reading as a parameter. */
  function NewId(now: nat): (id: string)
    ensures |id| > 4 && id[..4] == "req-" && id[4..] == NatToString(now)
  {
    "req-" + NatToString(now)
  }

  /** Distinct clock readings give distinct ids. */
  lemma NewIdInjective(m: nat, n: nat)
    requires NewId(m) == NewId(n)
    ensures m == n
  {
    assert NatToString(m) == NewId(m)[4..];
    NatToStringInjective(m, n);
  }

  /** `!editingId`: no edit in progress; an empty id is falsy too. */
  predicate NotEditing(editingId: Option<string>) {
    editingId.None? || editingId.value == ""
  }

  /**
   * The dialog's state, with the two values it writes outside itself: the
   * page's `config` and `predefined` list (through their setters), and the
   * `openai-api-key` entry of local storage (`legacyKey`).
   */
  class ConfigDialog {
    var isOpen: bool
    var activeTab: string
    var requirements: seq<Requirement>
    var newRequirement: string
    var editingId: Option<string>
    var editingText: string
    var selectedPlatform: Platform
    var apiKeys: ApiKeys
    var config: AIConfig
    var predefined: seq<Requirement>
    var legacyKey: Option<string>

    /** The state on first render: an empty working list and the page's platform and keys. */
    constructor(predefined: seq<Requirement>, config: AIConfig, legacyKey: Option<string>)
      ensures !isOpen && activeTab == PlatformTab
      ensures requirements == [] && newRequirement == "" && editingId == None && editingText == ""
      ensures selectedPlatform == config.platform && apiKeys == KeysOf(config)
      ensures this.config == config && this.predefined == predefined && this.legacyKey == legacyKey
    {
      isOpen := false;
      activeTab := PlatformTab;
      requirements := [];
      newRequirement := "";
      editingId := None;
      editingText := "";
      selectedPlatform := config.platform;
      apiKeys := KeysOf(config);
      this.config := config;
      this.predefined := predefined;
      this.legacyKey := legacyKey;
    }

    /** Opening the dialog runs the effect: the working list, platform and keys are reloaded from the page. */
    method Open()
      modifies this
      ensures isOpen && requirements == predefined && selectedPlatform == config.platform && apiKeys == KeysOf(config)
      ensures activeTab == old(activeTab) && newRequirement == old(newRequirement)
      ensures editingId == old(editingId) && editingText == old(editingText)
      ensures config == old(config) && predefined == old(predefined) && legacyKey == old(legacyKey)
    {
      isOpen := true;
      requirements := predefined;
      selectedPlatform := config.platform;
      apiKeys := KeysOf(config);
    }

    method Close()
      modifies this
      ensures !isOpen
      ensures activeTab == old(activeTab) && requirements == old(requirements) && newRequirement == old(newRequirement)
      ensures editingId == old(editingId) && editingText == old(editingText)
      ensures selectedPlatform == old(selectedPlatform) && apiKeys == old(apiKeys)
      ensures config == old(config) && predefined == old(predefined) && legacyKey == old(legacyKey)
    {
      isOpen := false;
    }

    /** The tabs' `onValueChange`. */
    method ChangeTab(tab: string)
      modifies this
      ensures activeTab == tab
      ensures isOpen == old(isOpen) && requirements == old(requirements) && newRequirement == old(newRequirement)
      ensures editingId == old(editingId) && editingText == old(editingText)
      ensures selectedPlatform == old(selectedPlatform) && apiKeys == old(apiKeys)
      ensures config == old(config) && predefined == old(predefined) && legacyKey == old(legacyKey)
    {
      activeTab := tab;
    }

    /** The radio group's `onValueChange`. */
    method SelectPlatform(p: Platform)
      modifies this
      ensures selectedPlatform == p
      ensures isOpen == old(isOpen) && activeTab == old(activeTab)
      ensures requirements == old(requirements) && newRequirement == old(newRequirement)
      ensures editingId == old(editingId) && editingText == old(editingText) && apiKeys == old(apiKeys)
      ensures config == old(config) && predefined == old(predefined) && legacyKey == old(legacyKey)
    {
      selectedPlatform := p;
    }

    /** The key input's `onChange`: only the selected platform's key is replaced. */
    method TypeApiKey(key: string)
      modifies this
      ensures apiKeys == old(apiKeys).With(selectedPlatform, key)
      ensures isOpen == old(isOpen) && activeTab == old(activeTab) && selectedPlatform == old(selectedPlatform)
      ensures requirements == old(requirements) && newRequirement == old(newRequirement)
      ensures editingId == old(editingId) && editingText == old(editingText)
      ensures config == old(config) && predefined == old(predefined) && legacyKey == old(legacyKey)
    {
      apiKeys := apiKeys.With(selectedPlatform, key);
    }

    /**
     * `saveAIConfig()`: a blank key for the selected platform stores
     * nothing; otherwise the platform and both keys are stored as typed,
     * an OpenAI key is also written to local storage, and the dialog closes
     * when the platform tab is the active one.
     */
    method SaveAIConfig()
      modifies this
      ensures IsBlank(old(apiKeys).Get(old(selectedPlatform))) ==>
        config == old(config) && legacyKey == old(legacyKey) && isOpen == old(isOpen)
      ensures !IsBlank(old(apiKeys).Get(old(selectedPlatform))) ==>
        && config == AIConfig(selectedPlatform, Some(apiKeys.openai), Some(apiKeys.replicate))
        && legacyKey == (if selectedPlatform == OpenAI then Some(apiKeys.openai) else old(legacyKey))
        && isOpen == (old(isOpen) && activeTab != PlatformTab)
      ensures activeTab == old(activeTab) && selectedPlatform == old(selectedPlatform) && apiKeys == old(apiKeys)
      ensures requirements == old(requirements) && newRequirement == old(newRequirement)
      ensures editingId == old(editingId) && editingText == old(editingText) && predefined == old(predefined)
    {
      if IsBlank(apiKeys.Get(selectedPlatform)) {
        return;
      }
      config := AIConfig(selectedPlatform, Some(apiKeys.openai), Some(apiKeys.replicate));
      // kept for older versions, which read the OpenAI key from local storage
      legacyKey := if selectedPlatform == OpenAI then Some(apiKeys.openai) else legacyKey;
      isOpen := isOpen && activeTab != PlatformTab;
    }

    /**
     * `deleteApiKey()`: empties the selected platform's key and leaves the
     * other one as it is; for OpenAI the local-storage entry is removed.
     * The stored configuration is not touched.
     */
    method DeleteApiKey()
      modifies this
      ensures apiKeys.Get(selectedPlatform) == ""
      ensures forall q: Platform | q != selectedPlatform :: apiKeys.Get(q) == old(apiKeys).Get(q)
      ensures legacyKey == (if selectedPlatform == OpenAI then None else old(legacyKey))
      ensures config == old(config) && isOpen == old(isOpen) && activeTab == old(activeTab)
      ensures selectedPlatform == old(selectedPlatform) && predefined == old(predefined)
      ensures requirements == old(requirements) && newRequirement == old(newRequirement)
      ensures editingId == old(editingId) && editingText == old(editingText)
    {
      apiKeys := apiKeys.With(selectedPlatform, "");
      if selectedPlatform == OpenAI {
        legacyKey := None;
      }
    }

    /** The new-requirement input's `onChange`. */
    method TypeNewRequirement(text: string)
      modifies this
      ensures newRequirement == text
      ensures isOpen == old(isOpen) && activeTab == old(activeTab) && requirements == old(requirements)
      ensures editingId == old(editingId) && editingText == old(editingText)
      ensures selectedPlatform == old(selectedPlatform) && apiKeys == old(apiKeys)
      ensures config == old(config) && predefined == old(predefined) && legacyKey == old(legacyKey)
    {
      newRequirement := text;
    }

    /**
     * `addRequirement()`: blank input is ignored; otherwise one unchecked
     * entry with the untrimmed text and the id of this clock reading goes at
     * the end, and the input is cleared.
     */
    method AddRequirement(now: nat)
      modifies this
      ensures IsBlank(old(newRequirement)) ==> requirements == old(requirements) && newRequirement == old(newRequirement)
      ensures !IsBlank(old(newRequirement)) ==>
        requirements == old(requirements) + [Requirement(NewId(now), old(newRequirement), false)] && newRequirement == ""
      ensures isOpen == old(isOpen) && activeTab == old(activeTab)
      ensures editingId == old(editingId) && editingText == old(editingText)
      ensures selectedPlatform == old(selectedPlatform) && apiKeys == old(apiKeys)
      ensures config == old(config) && predefined == old(predefined) && legacyKey == old(legacyKey)
    {
      if IsBlank(newRequirement) {
        return;
      }
      requirements := requirements + [Requirement(NewId(now), newRequirement, false)];
      newRequirement := "";
    }

    /**
     * `deleteRequirement(id)`: every entry with the id goes; the edit in
     * progress is dropped only when it was for this id.
     */
    method DeleteRequirement(id: string)
      modifies this
      ensures requirements == WithoutId(old(requirements), id)
      ensures old(editingId) == Some(id) ==> editingId == None && editingText == ""
      ensures old(editingId) != Some(id) ==> editingId == old(editingId) && editingText == old(editingText)
      ensures isOpen == old(isOpen) && activeTab == old(activeTab) && newRequirement == old(newRequirement)
      ensures selectedPlatform == old(selectedPlatform) && apiKeys == old(apiKeys)
      ensures config == old(config) && predefined == old(predefined) && legacyKey == old(legacyKey)
    {
      requirements := WithoutId(requirements, id);
      if editingId == Some(id) {
        editingId := None;
        editingText := "";
      }
    }

    /** `startEditing(id, text)`. */
    method StartEditing(id: string, text: string)
      modifies this
      ensures editingId == Some(id) && editingText == text
      ensures isOpen == old(isOpen) && activeTab == old(activeTab)
      ensures requirements == old(requirements) && newRequirement == old(newRequirement)
      ensures selectedPlatform == old(selectedPlatform) && apiKeys == old(apiKeys)
      ensures config == old(config) && predefined == old(predefined) && legacyKey == old(legacyKey)
    {
      editingId := Some(id);
      editingText := text;
    }

    /** The edit input's `onChange`. */
    method TypeEditingText(text: string)
      modifies this
      ensures editingText == text
      ensures isOpen == old(isOpen) && activeTab == old(activeTab) && editingId == old(editingId)
      ensures requirements == old(requirements) && newRequirement == old(newRequirement)
      ensures selectedPlatform == old(selectedPlatform) && apiKeys == old(apiKeys)
      ensures config == old(config) && predefined == old(predefined) && legacyKey == old(legacyKey)
    {
      editingText := text;
    }

    /**
     * `saveEdit()`: with no edit in progress or a blank text nothing
     * happens; otherwise only the text of the entries with the edited id
     * changes, untrimmed, and the edit state is cleared.
     */
    method SaveEdit()
      modifies this
      ensures NotEditing(old(editingId)) || IsBlank(old(editingText)) ==>
        requirements == old(requirements) && editingId == old(editingId) && editingText == old(editingText)
      ensures !NotEditing(old(editingId)) && !IsBlank(old(editingText)) ==>
        requirements == WithText(old(requirements), old(editingId).value, old(editingText))
        && editingId == None && editingText == ""
      ensures isOpen == old(isOpen) && activeTab == old(activeTab) && newRequirement == old(newRequirement)
      ensures selectedPlatform == old(selectedPlatform) && apiKeys == old(apiKeys)
      ensures config == old(config) && predefined == old(predefined) && legacyKey == old(legacyKey)
    {
      if NotEditing(editingId) || IsBlank(editingText) {
        return;
      }
      requirements := WithText(requirements, editingId.value, editingText);
      editingId := None;
      editingText := "";
    }

    /** `cancelEdit()`: the edit state is cleared and the list is not touched. */
    method CancelEdit()
      modifies this
      ensures editingId == None && editingText == ""
      ensures requirements == old(requirements)
      ensures isOpen == old(isOpen) && activeTab == old(activeTab) && newRequirement == old(newRequirement)
      ensures selectedPlatform == old(selectedPlatform) && apiKeys == old(apiKeys)
      ensures config == old(config) && predefined == old(predefined) && legacyKey == old(legacyKey)
    {
      editingId := None;
      editingText := "";
    }

    /** A checkbox's `onCheckedChange`: the entries with the id become checked exactly when the value is `true`. */
    method SetSelected(id: string, checked: CheckedState)
      modifies this
      ensures requirements == WithSelected(old(requirements), id, checked == Checked)
      ensures isOpen == old(isOpen) && activeTab == old(activeTab) && newRequirement == old(newRequirement)
      ensures editingId == old(editingId) && editingText == old(editingText)
      ensures selectedPlatform == old(selectedPlatform) && apiKeys == old(apiKeys)
      ensures config == old(config) && predefined == old(predefined) && legacyKey == old(legacyKey)
    {
      requirements := WithSelected(requirements, id, checked == Checked);
    }

    /** `saveRequirements()`: the working list becomes the page's list; the dialog closes from the requirements tab. */
    method SaveRequirements()
      modifies this
      ensures predefined == requirements == old(requirements)
      ensures isOpen == (old(isOpen) && activeTab != RequirementsTab)
      ensures activeTab == old(activeTab) && newRequirement == old(newRequirement)
      ensures editingId == old(editingId) && editingText == old(editingText)
      ensures selectedPlatform == old(selectedPlatform) && apiKeys == old(apiKeys)
      ensures config == old(config) && legacyKey == old(legacyKey)
    {
      predefined := requirements;
      if activeTab == RequirementsTab {
        isOpen := false;
      }
    }
  }
}
