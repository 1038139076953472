/** Message lookup and `$NAME$` substitution of utils/i18n.js, shared with the content
    script's own copy in content.js, which differs only in when a value replaces a placeholder. */
module I18n {
  import opened Util
  import opened Text

  const DefaultLanguage := "zh_CN"

  /** A character of a placeholder name: `[a-zA-Z0-9_]`. */
  predicate NameChar(c: char) {
    ('a' <= c <= 'z') || ('A' <= c <= 'Z') || ('0' <= c <= '9') || c == '_'
  }

  /** The length of the run of name characters at the start of `s`. */
  function NameRun(s: string): (n: nat)
    ensures n <= |s|
    ensures forall i :: 0 <= i < n ==> NameChar(s[i])
    ensures n < |s| ==> !NameChar(s[n])
  {
    if s != [] && NameChar(s[0]) then 1 + NameRun(s[1..]) else 0
  }

  /** Where the closing `$` is when `s` starts with a match of `/\$([a-zA-Z0-9_]+)\$/`. */
  function PlaceholderEnd(s: string): (r: Option<nat>)
    ensures r.Some? ==> (2 <= r.value < |s| && s[0] == '$' && s[r.value] == '$'
      && forall i :: 1 <= i < r.value ==> NameChar(s[i]))
    ensures r.None? && s != [] && s[0] == '$' ==>
      forall j :: 2 <= j < |s| && s[j] == '$' ==> exists i :: 1 <= i < j && !NameChar(s[i])
  {
    if s == [] || s[0] != '$' then None
    else
      var n := NameRun(s[1..]);
      if n > 0 && 1 + n < |s| && s[1 + n] == '$' then Some(1 + n)
      else
        assert forall j :: 2 <= j < |s| && s[j] == '$' ==> !NameChar(s[j]);
        assert forall j :: 2 <= j < |s| && s[j] == '$' && j > 1 + n ==> 1 <= 1 + n < j && !NameChar(s[1 + n]);
        None
  }

  /** The value a placeholder named `name` takes, if any. With `truthyOnly` (content.js) an
      empty value does not count; otherwise (utils/i18n.js) any own property does. */
  function Replacement(lookup: map<string, string>, name: string, truthyOnly: bool): Option<string> {
    var key := Lower(name);
    if key in lookup && (!truthyOnly || lookup[key] != "") then Some(lookup[key]) else None
  }

  /** One left-to-right pass of `message.replace(/\$([a-zA-Z0-9_]+)\$/g, …)`: each placeholder
      with a value is replaced by it, any other is kept verbatim, and scanning resumes after
      the placeholder, so inserted text is never scanned again. */
  function Substitute(s: string, lookup: map<string, string>, truthyOnly: bool): string
    decreases |s|
  {
    if s == [] then []
    else match PlaceholderEnd(s)
      case Some(j) =>
        var value := Replacement(lookup, s[1..j], truthyOnly);
        (if value.Some? then value.value else s[..j + 1]) + Substitute(s[j + 1..], lookup, truthyOnly)
      case None => [s[0]] + Substitute(s[1..], lookup, truthyOnly)
  }

  /** `formatMessage`: null or undefined replacements leave the message as it is. */
  function FormatMessage(message: string, replacements: Option<map<string, string>>): (r: string)
    ensures replacements.None? ==> r == message
  {
    if replacements.None? then message else Substitute(message, replacements.value, false)
  }

  /** `t`: the loaded message, formatted; without one, the browser's own translation when it
      is non-empty, formatted; failing both, the key itself. `browser` is `chrome.i18n.getMessage`. */
  function Translate(messages: Option<map<string, string>>, key: string,
                     replacements: Option<map<string, string>>, browser: string -> string): (r: string)
    ensures messages.Some? && key in messages.value ==> r == FormatMessage(messages.value[key], replacements)
    ensures (messages.None? || key !in messages.value) && browser(key) == "" ==> r == key
    ensures (messages.None? || key !in messages.value) && browser(key) != "" ==> r == FormatMessage(browser(key), replacements)
  {
    if messages.None? || key !in messages.value then
      var msg := browser(key);
      if msg != "" then FormatMessage(msg, replacements) else key
    else FormatMessage(messages.value[key], replacements)
  }

  /** A message without `$` is returned unchanged. */
  lemma {:induction false} NoDollarUnchanged(s: string, lookup: map<string, string>, truthyOnly: bool)
    requires '$' !in s
    ensures Substitute(s, lookup, truthyOnly) == s
    decreases |s|
  {
    if s != [] {
      assert '$' !in s[1..];
      NoDollarUnchanged(s[1..], lookup, truthyOnly);
      assert s == [s[0]] + s[1..];
    }
  }

  /** With no replacement values every placeholder stays verbatim, so nothing changes. */
  lemma {:induction false} EmptyLookupUnchanged(s: string, truthyOnly: bool)
    ensures Substitute(s, map[], truthyOnly) == s
    decreases |s|
  {
    if s != [] {
      match PlaceholderEnd(s)
      case Some(j) =>
        EmptyLookupUnchanged(s[j + 1..], truthyOnly);
        assert s == s[..j + 1] + s[j + 1..];
      case None =>
        EmptyLookupUnchanged(s[1..], truthyOnly);
        assert s == [s[0]] + s[1..];
    }
  }

  /** A placeholder whose lowercased name is a key is replaced by that key's value, even an
      empty one; the rest of the message is processed independently. */
  lemma PlaceholderReplaced(name: string, rest: string, lookup: map<string, string>)
    requires name != [] && (forall i :: 0 <= i < |name| ==> NameChar(name[i]))
    requires Lower(name) in lookup
    ensures Substitute("$" + name + "$" + rest, lookup, false) == lookup[Lower(name)] + Substitute(rest, lookup, false)
  {
    PlaceholderSplit(name, rest);
  }

  /** A placeholder whose lowercased name is not a key is left verbatim. */
  lemma PlaceholderKept(name: string, rest: string, lookup: map<string, string>, truthyOnly: bool)
    requires name != [] && (forall i :: 0 <= i < |name| ==> NameChar(name[i]))
    requires Lower(name) !in lookup
    ensures Substitute("$" + name + "$" + rest, lookup, truthyOnly)
      == "$" + name + "$" + Substitute(rest, lookup, truthyOnly)
  {
    PlaceholderSplit(name, rest);
  }

  /** The content script keeps a placeholder whose value is empty, where utils/i18n.js
      substitutes the empty string. */
  lemma EmptyValueDiffers(name: string, rest: string, lookup: map<string, string>)
    requires name != [] && (forall i :: 0 <= i < |name| ==> NameChar(name[i]))
    requires Lower(name) in lookup && lookup[Lower(name)] == ""
    ensures Substitute("$" + name + "$" + rest, lookup, false) == Substitute(rest, lookup, false)
    ensures Substitute("$" + name + "$" + rest, lookup, true) == "$" + name + "$" + Substitute(rest, lookup, true)
  {
    PlaceholderSplit(name, rest);
  }

  lemma PlaceholderSplit(name: string, rest: string)
    requires name != [] && (forall i :: 0 <= i < |name| ==> NameChar(name[i]))
    ensures var s := "$" + name + "$" + rest;
      PlaceholderEnd(s) == Some(|name| + 1) && s[1..|name| + 1] == name
      && s[..|name| + 2] == "$" + name + "$" && s[|name| + 2..] == rest
  {
    var s := "$" + name + "$" + rest;
    NameRunOf(name, "$" + rest);
    assert s[1..] == name + ("$" + rest);
  }

  lemma {:induction false} NameRunOf(name: string, rest: string)
    requires forall i :: 0 <= i < |name| ==> NameChar(name[i])
    requires rest != [] && !NameChar(rest[0])
    ensures NameRun(name + rest) == |name|
    decreases |name|
  {
    if name != [] {
      assert (name + rest)[1..] == name[1..] + rest;
      NameRunOf(name[1..], rest);
    } else {
      assert name + rest == rest;
    }
  }

  /** The bundle `loadMessages(lang)` leaves in place of `previous`: the bundle of `lang`;
      if it cannot be read, the Chinese bundle unless `lang` is already Chinese; if that
      fails too, `previous`. `bundles` stands for fetching `_locales/<lang>/messages.json`. */
  function Loaded(lang: string, bundles: string -> Option<map<string, string>>,
                  previous: Option<map<string, string>>): Option<map<string, string>>
  {
    if bundles(lang).Some? then bundles(lang)
    else if lang != DefaultLanguage && bundles(DefaultLanguage).Some? then bundles(DefaultLanguage)
    else previous
  }

  /** The three outcomes of a load: its own bundle, the Chinese fallback, or no change; a
      load never leaves a bundle it did not find. */
  lemma LoadedCases(lang: string, bundles: string -> Option<map<string, string>>,
                    previous: Option<map<string, string>>)
    ensures bundles(lang).Some? ==> Loaded(lang, bundles, previous) == bundles(lang)
    ensures bundles(lang).None? && lang != DefaultLanguage && bundles(DefaultLanguage).Some? ==>
      Loaded(lang, bundles, previous) == bundles(DefaultLanguage)
    ensures bundles(lang).None? && (lang == DefaultLanguage || bundles(DefaultLanguage).None?) ==>
      Loaded(lang, bundles, previous) == previous
    ensures Loaded(lang, bundles, previous) in {bundles(lang), bundles(DefaultLanguage), previous}
    ensures previous.Some? || bundles(lang).Some? || bundles(DefaultLanguage).Some? ==>
      Loaded(lang, bundles, previous).Some?
  {
  }

  /** The translation state of one extension page: the loaded message bundle and its language. */
  class Translator {
    var messages: Option<map<string, string>>
    var currentLang: string

    constructor()
      ensures messages.None? && currentLang == DefaultLanguage
    {
      messages := None;
      currentLang := DefaultLanguage;
    }

    /** `loadMessages`: the bundle of `lang`, with the Chinese fallback (see `Loaded`). */
    method LoadMessages(lang: string, bundles: string -> Option<map<string, string>>)
      modifies this
      ensures currentLang == old(currentLang)
      ensures messages == Loaded(lang, bundles, old(messages))
    {
      var loaded := bundles(lang);
      if loaded.Some? {
        messages := loaded;
      } else if lang != DefaultLanguage {
        var fallback := bundles(DefaultLanguage);
        if fallback.Some? {
          messages := fallback;
        }
      }
    }

    /** `initI18n`: the stored language, `zh_CN` when none is stored, then its bundle. */
    method Init(storedLanguage: Option<string>, bundles: string -> Option<map<string, string>>)
      modifies this
      ensures currentLang == (if Truthy(storedLanguage) then storedLanguage.value else DefaultLanguage)
      ensures messages == Loaded(currentLang, bundles, old(messages))
    {
      currentLang := Or(storedLanguage, DefaultLanguage);
      LoadMessages(currentLang, bundles);
    }

    /** The `storage.onChanged` listener: a language change in the sync area is adopted and
        its bundle loaded; any other change leaves the state as it was. */
    method OnLanguageChanged(area: string, newLanguage: Option<string>,
                             bundles: string -> Option<map<string, string>>)
      modifies this
      ensures area == "sync" && newLanguage.Some? ==>
        currentLang == newLanguage.value && messages == Loaded(newLanguage.value, bundles, old(messages))
      ensures !(area == "sync" && newLanguage.Some?) ==>
        currentLang == old(currentLang) && messages == old(messages)
    {
      if area == "sync" && newLanguage.Some? {
        currentLang := newLanguage.value;
        LoadMessages(currentLang, bundles);
      }
    }

    function T(key: string, replacements: Option<map<string, string>>, browser: string -> string): string
      reads this
    {
      Translate(messages, key, replacements, browser)
    }
  }
}
