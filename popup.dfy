/** The pure parts of popup/popup.js: HTML escaping of history fields and the short
    history list the popup shows. */
module Popup {
  import opened Util
  import History

  /** How many history entries the popup shows. */
  const PreviewLength: nat := 10

  /** `text.replace(/c/g, rep)` for a one-character pattern. */
  function ReplaceAll(s: string, c: char, rep: string): (r: string)
    ensures c !in s ==> r == s
  {
    if s == [] then []
    else (if s[0] == c then rep else [s[0]]) + ReplaceAll(s[1..], c, rep)
  }

  /** The five global replacements of `escapeHtml`, `&` first. */
  function Chain(s: string): string {
    ReplaceAll(ReplaceAll(ReplaceAll(ReplaceAll(ReplaceAll(s, '&', "&amp;"), '<', "&lt;"), '>', "&gt;"),
                          '"', "&quot;"), '\'', "&#039;")
  }

  /** `escapeHtml` as written: falsy text gives the empty string, otherwise the chain of
      replacements. */
  function EscapeHtml(text: Option<string>): string {
    if !Truthy(text) then "" else Chain(text.value)
  }

  /** The entity one character becomes. */
  function EscapeChar(c: char): string {
    match c
    case '&' => "&amp;"
    case '<' => "&lt;"
    case '>' => "&gt;"
    case '"' => "&quot;"
    case '\'' => "&#039;"
    case _ => [c]
  }

  /** The reference escaping: every character mapped on its own. */
  function EscapeEach(s: string): string {
    if s == [] then [] else EscapeChar(s[0]) + EscapeEach(s[1..])
  }

  /** The five characters HTML escaping removes, `&` aside. */
  predicate Special(c: char) {
    c == '<' || c == '>' || c == '"' || c == '\''
  }

  lemma {:induction false} ReplaceAllConcat(a: string, b: string, c: char, rep: string)
    ensures ReplaceAll(a + b, c, rep) == ReplaceAll(a, c, rep) + ReplaceAll(b, c, rep)
    decreases |a|
  {
    if a == [] {
      assert a + b == b;
    } else {
      assert (a + b)[1..] == a[1..] + b;
      ReplaceAllConcat(a[1..], b, c, rep);
    }
  }

  lemma ChainConcat(a: string, b: string)
    ensures Chain(a + b) == Chain(a) + Chain(b)
  {
    var s1a, s1b := ReplaceAll(a, '&', "&amp;"), ReplaceAll(b, '&', "&amp;");
    ReplaceAllConcat(a, b, '&', "&amp;");
    var s2a, s2b := ReplaceAll(s1a, '<', "&lt;"), ReplaceAll(s1b, '<', "&lt;");
    ReplaceAllConcat(s1a, s1b, '<', "&lt;");
    var s3a, s3b := ReplaceAll(s2a, '>', "&gt;"), ReplaceAll(s2b, '>', "&gt;");
    ReplaceAllConcat(s2a, s2b, '>', "&gt;");
    var s4a, s4b := ReplaceAll(s3a, '"', "&quot;"), ReplaceAll(s3b, '"', "&quot;");
    ReplaceAllConcat(s3a, s3b, '"', "&quot;");
    ReplaceAllConcat(s4a, s4b, '\'', "&#039;");
  }

  lemma ReplaceOne(c: char, x: char, rep: string)
    ensures ReplaceAll([c], x, rep) == if c == x then rep else [c]
  {
    assert [c][1..] == [];
  }

  /** On one character the chain produces that character's entity: the entity inserted by
      one step contains none of the characters later steps replace. */
  lemma ChainChar(c: char)
    ensures Chain([c]) == EscapeChar(c)
  {
    ReplaceOne(c, '&', "&amp;");
    if c == '&' {
      assert '<' !in "&amp;" && '>' !in "&amp;" && '"' !in "&amp;" && '\'' !in "&amp;";
    } else {
      ReplaceOne(c, '<', "&lt;");
      if c == '<' {
        assert '>' !in "&lt;" && '"' !in "&lt;" && '\'' !in "&lt;";
      } else {
        ReplaceOne(c, '>', "&gt;");
        if c == '>' {
          assert '"' !in "&gt;" && '\'' !in "&gt;";
        } else {
          ReplaceOne(c, '"', "&quot;");
          if c == '"' {
            assert '\'' !in "&quot;";
          } else {
            ReplaceOne(c, '\'', "&#039;");
          }
        }
      }
    }
  }

  /** The replacement chain equals the per-character escaping, so no entity the chain
      inserts is escaped again by a later step. */
  lemma {:induction false} ChainIsPerCharacter(s: string)
    ensures Chain(s) == EscapeEach(s)
    decreases |s|
  {
    if s != [] {
      assert s == [s[0]] + s[1..];
      ChainConcat([s[0]], s[1..]);
      ChainChar(s[0]);
      ChainIsPerCharacter(s[1..]);
    }
  }

  /** `escapeHtml` of a falsy value is empty, of any other string its per-character escaping. */
  lemma EscapeHtmlPerCharacter(text: Option<string>)
    ensures !Truthy(text) ==> EscapeHtml(text) == ""
    ensures Truthy(text) ==> EscapeHtml(text) == EscapeEach(text.value)
  {
    if Truthy(text) {
      ChainIsPerCharacter(text.value);
    }
  }

  /** The per-character escaping contains none of `<`, `>`, `"`, `'` and is at least as long
      as its input. */
  lemma {:induction false} EscapeEachSafe(s: string)
    ensures forall i :: 0 <= i < |EscapeEach(s)| ==> !Special(EscapeEach(s)[i])
    ensures |EscapeEach(s)| >= |s|
    decreases |s|
  {
    if s != [] {
      EscapeEachSafe(s[1..]);
      var head := EscapeChar(s[0]);
      assert forall i :: 0 <= i < |head| ==> !Special(head[i]);
      var r := EscapeEach(s);
      assert r == head + EscapeEach(s[1..]);
      forall i | 0 <= i < |r| ensures !Special(r[i]) {
        if i >= |head| {
          assert r[i] == EscapeEach(s[1..])[i - |head|];
        }
      }
    }
  }

  /** What the popup displays is safe to put in markup, and never shorter than the text. */
  lemma EscapeHtmlSafe(text: Option<string>)
    ensures forall i :: 0 <= i < |EscapeHtml(text)| ==> !Special(EscapeHtml(text)[i])
    ensures Truthy(text) ==> |EscapeHtml(text)| >= |text.value|
  {
    EscapeHtmlPerCharacter(text);
    if Truthy(text) {
      EscapeEachSafe(text.value);
    }
  }

  /** Text with nothing to escape is left as it is. */
  lemma {:induction false} EscapeEachPlain(s: string)
    requires forall i :: 0 <= i < |s| ==> s[i] != '&' && !Special(s[i])
    ensures EscapeEach(s) == s
    decreases |s|
  {
    if s != [] {
      EscapeEachPlain(s[1..]);
    }
  }

  /** An entity already in the text is escaped again: `&lt;` becomes `&amp;lt;`. */
  lemma ExistingEntityEscaped(name: string)
    requires forall i :: 0 <= i < |name| ==> name[i] != '&' && !Special(name[i])
    ensures EscapeHtml(Some("&" + name)) == "&amp;" + name
  {
    var s := "&" + name;
    EscapeHtmlPerCharacter(Some(s));
    assert s[1..] == name;
    EscapeEachPlain(name);
  }

  /** `loadHistory`: the first ten entries of the stored list. */
  function HistoryPreview(history: seq<History.Entry>): (r: seq<History.Entry>)
    ensures |r| == if |history| < PreviewLength then |history| else PreviewLength
    ensures r <= history
  {
    if |history| < PreviewLength then history else history[..PreviewLength]
  }
}
