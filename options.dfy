/** The settings rules of options/options.js: how the folder policy is saved and restored
    (with the migration of older stored forms), the disabled-domain list, the page title and
    which fields each provider shows. */
module Options {
  import opened Util
  import Llm

  const DefaultLevel := "weak"
  const LegacyBooleanLevel := "medium"
  const LegacyOff := "off"

  /** A stored `allowNewFolders` value as `typeof` sees it: a string (an older release stored
      the level there), a boolean, or anything else, of which only its truthiness matters. */
  datatype StoredValue = StrValue(s: string) | BoolValue(b: bool) | OtherValue(truthy: bool)

  /** The folder policy the options page shows: the switch and the strategy level. */
  datatype FolderPolicy = FolderPolicy(enabled: bool, level: string)

  /** What `autoSaveOptions` writes for the folder policy. */
  datatype SavedPolicy = SavedPolicy(allowNewFolders: StoredValue, folderCreationLevel: string)

  /** `autoSaveOptions`: the checkbox as a boolean, and the checked strategy radio's value, or
      `'weak'` when none is checked. */
  function SaveFolderPolicy(checked: bool, radio: Option<string>): (r: SavedPolicy)
    ensures r.allowNewFolders == BoolValue(checked)
    ensures radio.None? ==> r.folderCreationLevel == DefaultLevel
    ensures radio.Some? ==> r.folderCreationLevel == radio.value
  {
    SavedPolicy(BoolValue(checked), if radio.Some? then radio.value else DefaultLevel)
  }

  /** The migration in `restoreOptions`, as written: a string is a legacy level (`'off'`
      meaning disabled), a boolean keeps its value with level `'medium'`, and anything else
      takes the stored level (or `'weak'`). `folderCreationLevel` is `None` when it is falsy. */
  function RestoreFolderPolicy(allowNewFolders: StoredValue, folderCreationLevel: Option<string>): FolderPolicy {
    match allowNewFolders
    case StrValue(s) => if s == LegacyOff then FolderPolicy(false, DefaultLevel) else FolderPolicy(true, s)
    case BoolValue(b) => FolderPolicy(b, LegacyBooleanLevel)
    case OtherValue(t) => FolderPolicy(t, Or(folderCreationLevel, DefaultLevel))
  }

  /** The migration of each legacy form. */
  lemma RestoreLegacyForms(s: string, b: bool, t: bool, level: Option<string>)
    ensures RestoreFolderPolicy(StrValue(LegacyOff), level) == FolderPolicy(false, "weak")
    ensures s != LegacyOff ==> RestoreFolderPolicy(StrValue(s), level) == FolderPolicy(true, s)
    ensures RestoreFolderPolicy(BoolValue(b), level) == FolderPolicy(b, "medium")
    ensures RestoreFolderPolicy(OtherValue(t), level).level == (if Truthy(level) then level.value else "weak")
  {
  }

  /** The stored level is never read back: the page always saves a boolean, and a boolean
      restores level `'medium'`, so a saved `'strong'` comes back as `'medium'`. */
  lemma SavedLevelLost(checked: bool)
    ensures var saved := SaveFolderPolicy(checked, Some("strong"));
      RestoreFolderPolicy(saved.allowNewFolders, Some(saved.folderCreationLevel)) == FolderPolicy(checked, "medium")
  {
  }

  /** The migration with the stored level honoured for booleans too, which is what the page
      saves. */
  function RestoreFolderPolicyFixed(allowNewFolders: StoredValue, folderCreationLevel: Option<string>): (r: FolderPolicy)
    ensures allowNewFolders.StrValue? ==> r == RestoreFolderPolicy(allowNewFolders, folderCreationLevel)
  {
    match allowNewFolders
    case StrValue(s) => if s == LegacyOff then FolderPolicy(false, DefaultLevel) else FolderPolicy(true, s)
    case BoolValue(b) => FolderPolicy(b, Or(folderCreationLevel, DefaultLevel))
    case OtherValue(t) => FolderPolicy(t, Or(folderCreationLevel, DefaultLevel))
  }

  /** With the corrected migration, what the page saves it restores: the switch, and the
      checked level (or `'weak'` when no level was checked or it was empty). */
  lemma SaveRestoreRoundTrip(checked: bool, radio: Option<string>)
    ensures var saved := SaveFolderPolicy(checked, radio);
      RestoreFolderPolicyFixed(saved.allowNewFolders, Some(saved.folderCreationLevel))
        == FolderPolicy(checked, if radio.Some? && radio.value != "" then radio.value else DefaultLevel)
  {
  }

  // ---------------------------------------------------------------------------
  // Disabled domains

  /** `removeDomain`: `disabledDomains.filter(d => d !== domain)`. */
  function RemoveDomain(domains: seq<string>, domain: string): (r: seq<string>)
    ensures |r| <= |domains|
  {
    if domains == [] then []
    else (if domains[0] != domain then [domains[0]] else []) + RemoveDomain(domains[1..], domain)
  }

  /** Every occurrence of the domain goes and every other domain keeps all its occurrences. */
  lemma {:induction false} RemoveDomainContents(domains: seq<string>, domain: string, d: string)
    ensures multiset(RemoveDomain(domains, domain))[d] == if d == domain then 0 else multiset(domains)[d]
    decreases |domains|
  {
    if domains != [] {
      RemoveDomainContents(domains[1..], domain, d);
      assert domains == [domains[0]] + domains[1..];
    }
  }

  /** Filtering a list is filtering its parts, so the remaining domains keep their order. */
  lemma {:induction false} RemoveDomainConcat(a: seq<string>, b: seq<string>, domain: string)
    ensures RemoveDomain(a + b, domain) == RemoveDomain(a, domain) + RemoveDomain(b, domain)
    decreases |a|
  {
    if a == [] {
      assert a + b == b;
    } else {
      assert (a + b)[1..] == a[1..] + b;
      RemoveDomainConcat(a[1..], b, domain);
    }
  }

  /** Removing twice is removing once. */
  lemma {:induction false} RemoveDomainIdempotent(domains: seq<string>, domain: string)
    ensures RemoveDomain(RemoveDomain(domains, domain), domain) == RemoveDomain(domains, domain)
    decreases |domains|
  {
    if domains != [] {
      RemoveDomainIdempotent(domains[1..], domain);
      var rest := RemoveDomain(domains[1..], domain);
      if domains[0] != domain {
        assert ([domains[0]] + rest)[1..] == rest;
      } else {
        assert RemoveDomain(domains, domain) == [] + rest == rest;
      }
    }
  }

  // ---------------------------------------------------------------------------
  // Page title

  /** The tab ids with a title of their own, and the message key of each. */
  function TitleKey(tabId: string): Option<string> {
    if tabId == "settings" then Some("navSettings")
    else if tabId == "blocked" then Some("navBlocked")
    else if tabId == "history" then Some("navHistory")
    else if tabId == "bookmarks" then Some("navBookmarks")
    else None
  }

  /** The page heading and, when an application name is known, the document title. */
  datatype PageTitle = PageTitle(heading: string, documentTitle: Option<string>)

  /** `updatePageTitle(tabId)`: `t` is the translation function. */
  function UpdatePageTitle(tabId: string, t: string -> string): (r: PageTitle)
    ensures TitleKey(tabId).None? ==> r.heading == t("navSettings")
    ensures TitleKey(tabId).Some? && t(TitleKey(tabId).value) != "" ==> r.heading == t(TitleKey(tabId).value)
    ensures r.documentTitle.Some? <==> (t("appNameShort") != "" || t("appName") != "")
  {
    var mapped := if TitleKey(tabId).Some? then t(TitleKey(tabId).value) else "";
    var heading := if mapped != "" then mapped else t("navSettings");
    var appName := if t("appNameShort") != "" then t("appNameShort") else t("appName");
    if appName != "" && heading != "" then PageTitle(heading, Some(appName + " - " + heading))
    else if appName != "" then PageTitle(heading, Some(appName))
    else PageTitle(heading, None)
  }

  // ---------------------------------------------------------------------------
  // Provider fields

  /** Which settings fields `updateUIState` shows, and the model field's placeholder if it
      sets one. */
  datatype Fields = Fields(apiKey: bool, model: bool, ollamaHost: bool, defaultStatus: bool,
                           placeholder: Option<string>)

  function ProviderFields(provider: string): (r: Fields)
    ensures provider == "default" ==> !r.apiKey && !r.model && r.defaultStatus
    ensures r.model <==> provider in {"deepseek", "chatgpt", "gemini", "ollama", "doubao"}
    ensures r.placeholder.Some? <==> r.model
  {
    if provider == "default" then Fields(false, false, false, true, None)
    else if provider == "deepseek" then Fields(true, true, false, false, Some("deepseek-chat"))
    else if provider == "chatgpt" then Fields(true, true, false, false, Some("gpt-4o-mini"))
    else if provider == "gemini" then Fields(true, true, false, false, Some("gemini-1.5-flash"))
    else if provider == "ollama" then Fields(false, true, true, false, Some("llama3"))
    else if provider == "doubao" then Fields(true, true, false, false, Some("ep-2024xxxx"))
    else Fields(false, false, false, false, None)
  }

  /** The placeholder is the model the request uses when the field is left empty, for every
      provider that has a default model (Doubao has none and refuses to run without one). */
  lemma PlaceholderIsDefaultModel(config: Llm.Config, prompt: string)
    requires Truthy(config.llmProvider) && config.llmProvider.value in {"deepseek", "chatgpt", "gemini", "ollama"}
    requires !Truthy(config.model)
    ensures Llm.SelectBackend(config).Ok?
    ensures Llm.RequestOf(Llm.SelectBackend(config).value, prompt).Some?
    ensures Llm.RequestOf(Llm.SelectBackend(config).value, prompt).value.model
      == ProviderFields(config.llmProvider.value).placeholder.value
  {
  }
}
