/** The content script of content.js: its own message lookup, the floating button with its
    guards, drag handling and click, the bookmark request it sends, and its reaction to
    setting changes. */
module Content {
  import opened Util
  import opened Text
  import Llm
  import I18n
  import Background

  /** How many characters of the page text the floating button sends. */
  const BodyLimit: nat := 1000
  /** How far (in pixels, on either axis) the pointer must travel before a press is a drag. */
  const DragThreshold: int := 3
  const StaleContextMarker := "Extension context invalidated"
  const StaleContextMessage := "插件已更新，请刷新页面后重试"
  const UnknownError := "未知错误"
  /** What reading `.error` of an absent reply throws. */
  const NoReply := "TypeError"

  // ---------------------------------------------------------------------------
  // Message lookup

  /** `I18n.t(key, replacements)` of the content script: the key itself when nothing is
      loaded or the key is missing; placeholders are replaced only by truthy values. */
  function ContentT(messages: Option<map<string, string>>, key: string,
                    replacements: Option<map<string, string>>): (r: string)
    ensures messages.None? || key !in messages.value ==> r == key
    ensures messages.Some? && key in messages.value && replacements.None? ==> r == messages.value[key]
  {
    if messages.None? || key !in messages.value then key
    else if replacements.None? then messages.value[key]
    else I18n.Substitute(messages.value[key], replacements.value, true)
  }

  /** When every replacement value is non-empty the two substitutions agree. */
  lemma {:induction false} SubstituteAgrees(s: string, lookup: map<string, string>)
    requires forall k :: k in lookup ==> lookup[k] != ""
    ensures I18n.Substitute(s, lookup, true) == I18n.Substitute(s, lookup, false)
    decreases |s|
  {
    if s != [] {
      match I18n.PlaceholderEnd(s)
      case Some(j) =>
        SubstituteAgrees(s[j + 1..], lookup);
      case None =>
        SubstituteAgrees(s[1..], lookup);
    }
  }

  /** For a loaded message and non-empty replacement values, the content script says what
      the extension pages say. */
  lemma ContentTAgrees(messages: map<string, string>, key: string, replacements: map<string, string>,
                       browser: string -> string)
    requires key in messages
    requires forall k :: k in replacements ==> replacements[k] != ""
    ensures ContentT(Some(messages), key, Some(replacements))
      == I18n.Translate(Some(messages), key, Some(replacements), browser)
  {
    SubstituteAgrees(messages[key], replacements);
  }

  // ---------------------------------------------------------------------------
  // The page

  /** What the content script reads from the document. */
  datatype Document = Document(title: string, href: string, description: Option<string>,
                               keywords: Option<string>, innerText: string)

  /** The `AI_BOOKMARK` request data. */
  datatype PageInfo = PageInfo(title: string, url: string, content: Llm.PageContent)

  /** The request built from the document: empty meta values when the tags are missing, and
      the page-text digest. */
  function PageInfoOf(doc: Document): (r: PageInfo)
    ensures r.content.body.Some? && |r.content.body.value| <= BodyLimit
    ensures r.content.description == (if Truthy(doc.description) then doc.description.value else "")
    ensures r.content.keywords == (if Truthy(doc.keywords) then doc.keywords.value else "")
    ensures r.content.body == Some(Digest(doc.innerText, BodyLimit))
    ensures r.title == doc.title && r.url == doc.href
  {
    PageInfo(doc.title, doc.href,
             Llm.PageContent(Or(doc.description, ""), Or(doc.keywords, ""), Some(Digest(doc.innerText, BodyLimit))))
  }

  /** What `sendMessage` produced: it threw, or it resolved (to nothing, or to a response). */
  datatype SendOutcome = Threw(message: string) | Replied(response: Option<Background.Response>)

  /** The error message the request ends with, or `None` on success. */
  function RequestError(outcome: SendOutcome): (r: Option<string>)
    ensures r.None? <==> outcome.Replied? && outcome.response.Some? && outcome.response.value.Success?
    ensures r.Some? ==> (r.value != "" || (outcome.Threw? && outcome.message == ""))
    ensures outcome.Threw? && Contains(outcome.message, StaleContextMarker) ==> r == Some(StaleContextMessage)
    ensures outcome.Threw? && !Contains(outcome.message, StaleContextMarker) ==> r == Some(outcome.message)
    ensures outcome == Replied(None) ==> r == Some(NoReply)
    ensures outcome == Replied(Some(Background.Failure(""))) ==> r == Some(UnknownError)
    ensures (outcome.Replied? && outcome.response.Some? && outcome.response.value.Failure?
      && outcome.response.value.error != "") ==> r == Some(outcome.response.value.error)
  {
    match outcome
    case Threw(m) => Some(if Contains(m, StaleContextMarker) then StaleContextMessage else m)
    case Replied(None) => Some(NoReply)
    case Replied(Some(Success(_))) => None
    case Replied(Some(Failure(e))) => Some(if e != "" then e else UnknownError)
  }

  /** A toast shown in the page. */
  datatype Toast = Toast(message: string, kind: string)

  /** Whether the pointer moved past the threshold on either axis. */
  predicate Moved(dx: int, dy: int) {
    dx > DragThreshold || dx < -DragThreshold || dy > DragThreshold || dy < -DragThreshold
  }

  /** A list without repeated entries. */
  predicate NoDuplicates(s: seq<string>) {
    forall i, j :: 0 <= i < j < |s| ==> s[i] != s[j]
  }

  /** Appending a value that is absent keeps a list free of duplicates. */
  lemma AppendAbsentNoDuplicates(s: seq<string>, x: string)
    requires x !in s
    ensures NoDuplicates(s) ==> NoDuplicates(s + [x])
  {
    if !NoDuplicates(s) {
      return;
    }
    var r := s + [x];
    forall i, j | 0 <= i < j < |r| ensures r[i] != r[j] {
      if j == |s| {
        assert r[i] == s[i];
      } else {
        assert r[i] == s[i] && r[j] == s[j];
      }
    }
  }

  /** The content script of one top-level page: the synced settings it sees, the floating
      button's presence and data flags, the drag handler's closure variables and the toasts
      it has shown. */
  class Page {
    const hostname: string
    var messages: Option<map<string, string>>
    var showFloatingButton: bool
    var disabledDomains: seq<string>
    var button: bool
    /** `btn.dataset.isDragging === 'true'`. */
    var dragFlag: bool
    /** `btn.dataset.loading === 'true'`. */
    var loading: bool
    var dragActive: bool
    var hasMoved: bool
    var startX: int
    var startY: int
    var toasts: seq<Toast>

    constructor(hostname: string, messages: Option<map<string, string>>, showFloatingButton: bool,
                disabledDomains: seq<string>)
      ensures this.hostname == hostname && this.messages == messages
      ensures this.showFloatingButton == showFloatingButton && this.disabledDomains == disabledDomains
      ensures !button && !dragFlag && !loading && !dragActive && !hasMoved && toasts == []
    {
      this.hostname := hostname;
      this.messages := messages;
      this.showFloatingButton := showFloatingButton;
      this.disabledDomains := disabledDomains;
      button := false;
      dragFlag := false;
      loading := false;
      dragActive := false;
      hasMoved := false;
      startX := 0;
      startY := 0;
      toasts := [];
    }

    function T(key: string, replacements: Option<map<string, string>>): string
      reads this
    {
      ContentT(messages, key, replacements)
    }

    /** What the page's settings give: the loaded messages and the two synced options. */
    function Settings(): (Option<map<string, string>>, bool, seq<string>)
      reads this
    {
      (messages, showFloatingButton, disabledDomains)
    }

    /** The drag handler's closure variables. */
    function DragState(): (bool, bool, int, int)
      reads this
    {
      (dragActive, hasMoved, startX, startY)
    }

    /** The content script's own language listener: on a language change the new language's
        bundle is loaded, with the same Chinese fallback as the extension pages. */
    method OnLanguageChanged(newLanguage: Option<string>, bundles: string -> Option<map<string, string>>)
      modifies this
      ensures newLanguage.Some? ==> messages == I18n.Loaded(newLanguage.value, bundles, old(messages))
      ensures newLanguage.None? ==> messages == old(messages)
      ensures showFloatingButton == old(showFloatingButton) && disabledDomains == old(disabledDomains)
      ensures button == old(button) && dragFlag == old(dragFlag) && loading == old(loading)
      ensures DragState() == old(DragState()) && toasts == old(toasts)
    {
      if newLanguage.Some? {
        messages := I18n.Loaded(newLanguage.value, bundles, messages);
      }
    }

    /** `createFloatingButton`: nothing when a button exists, the global switch is off or the
        host is disabled; otherwise a fresh button with no flags set. */
    method CreateFloatingButton()
      modifies this
      ensures old(button) || !showFloatingButton || hostname in disabledDomains ==>
        button == old(button) && dragFlag == old(dragFlag) && loading == old(loading)
      ensures !old(button) && showFloatingButton && hostname !in disabledDomains ==>
        button && !dragFlag && !loading
      ensures showFloatingButton == old(showFloatingButton) && disabledDomains == old(disabledDomains)
      ensures toasts == old(toasts) && messages == old(messages)
      ensures DragState() == old(DragState())
    {
      if button {
        return;
      }
      if !showFloatingButton {
        return;
      }
      if hostname in disabledDomains {
        return;
      }
      button := true;
      dragFlag := false;
      loading := false;
    }

    /** `dragStart`: a mouse press other than the left button is ignored. */
    method DragStart(x: int, y: int, isMouse: bool, mouseButton: int)
      modifies this
      ensures isMouse && mouseButton != 0 ==>
        dragActive == old(dragActive) && hasMoved == old(hasMoved) && startX == old(startX) && startY == old(startY)
      ensures !(isMouse && mouseButton != 0) ==> dragActive && !hasMoved && startX == x && startY == y
      ensures button == old(button) && dragFlag == old(dragFlag) && loading == old(loading)
      ensures toasts == old(toasts) && Settings() == old(Settings())
    {
      if isMouse && mouseButton != 0 {
        return;
      }
      dragActive := true;
      hasMoved := false;
      startX := x;
      startY := y;
    }

    /** `drag`: a move past the threshold marks the press as a drag, on the closure and on the
        button; smaller moves mark nothing. */
    method DragMove(x: int, y: int)
      modifies this
      ensures dragActive && Moved(x - startX, y - startY) ==> hasMoved && dragFlag
      ensures !(dragActive && Moved(x - startX, y - startY)) ==> hasMoved == old(hasMoved) && dragFlag == old(dragFlag)
      ensures dragActive == old(dragActive) && startX == old(startX) && startY == old(startY)
      ensures button == old(button) && loading == old(loading) && toasts == old(toasts)
      ensures Settings() == old(Settings())
    {
      if !dragActive {
        return;
      }
      var dx := x - startX;
      var dy := y - startY;
      if Moved(dx, dy) {
        hasMoved := true;
        dragFlag := true;
      }
    }

    /** `dragEnd`: a press that never moved clears the drag mark so the click goes through. */
    method DragEnd()
      modifies this
      ensures !dragActive && hasMoved == old(hasMoved)
      ensures dragFlag == (old(dragFlag) && old(hasMoved))
      ensures startX == old(startX) && startY == old(startY)
      ensures button == old(button) && loading == old(loading) && toasts == old(toasts)
      ensures Settings() == old(Settings())
    {
      dragActive := false;
      if !hasMoved {
        dragFlag := false;
      }
    }

    /** The first half of `handleBookmark`, up to the request: nothing while a request is in
        flight; otherwise the button is marked loading and the request is built. */
    method StartBookmark(doc: Document) returns (request: Option<PageInfo>)
      requires button
      modifies this
      ensures old(loading) ==> request.None? && loading
      ensures !old(loading) ==> request == Some(PageInfoOf(doc)) && loading
      ensures button && dragFlag == old(dragFlag) && toasts == old(toasts)
      ensures Settings() == old(Settings()) && DragState() == old(DragState())
    {
      if loading {
        return None;
      }
      loading := true;
      request := Some(PageInfoOf(doc));
    }

    /** The click handler: the click ending a drag is swallowed and clears the mark, once;
        any other click starts a bookmark request. */
    method Click(doc: Document) returns (request: Option<PageInfo>)
      requires button
      modifies this
      ensures old(dragFlag) ==> request.None? && !dragFlag && loading == old(loading)
      ensures !old(dragFlag) && old(loading) ==> request.None? && loading
      ensures !old(dragFlag) && !old(loading) ==> request == Some(PageInfoOf(doc)) && loading
      ensures button && !dragFlag && toasts == old(toasts)
      ensures Settings() == old(Settings()) && DragState() == old(DragState())
    {
      if dragFlag {
        dragFlag := false;
        return None;
      }
      request := StartBookmark(doc);
    }

    /** The second half of `handleBookmark`: a success or error toast, and in every case the
        loading mark cleared. */
    method FinishBookmark(outcome: SendOutcome)
      modifies this
      ensures !loading
      ensures RequestError(outcome).None? ==>
        toasts == old(toasts) + [Toast(T("bookmarkedSuccess", Some(map["category" := outcome.response.value.category])), "success")]
      ensures RequestError(outcome).Some? ==>
        toasts == old(toasts) + [Toast(T("failedPrefix", None) + RequestError(outcome).value, "error")]
      ensures button == old(button) && dragFlag == old(dragFlag)
      ensures Settings() == old(Settings()) && DragState() == old(DragState())
    {
      var error := RequestError(outcome);
      if error.None? {
        toasts := toasts + [Toast(T("bookmarkedSuccess", Some(map["category" := outcome.response.value.category])), "success")];
      } else {
        toasts := toasts + [Toast(T("failedPrefix", None) + error.value, "error")];
      }
      loading := false;
    }

    /** `disableOnCurrentDomain`: an absent host is appended, a toast shown and the button
        removed; a host already listed changes nothing. */
    method DisableOnCurrentDomain()
      modifies this
      ensures old(hostname in disabledDomains) ==>
        disabledDomains == old(disabledDomains) && button == old(button) && toasts == old(toasts)
      ensures !old(hostname in disabledDomains) ==>
        disabledDomains == old(disabledDomains) + [hostname] && !button
        && toasts == old(toasts) + [Toast(T("hideSuccess", None), "info")]
      ensures NoDuplicates(old(disabledDomains)) ==> NoDuplicates(disabledDomains)
      ensures hostname in disabledDomains
      ensures messages == old(messages) && showFloatingButton == old(showFloatingButton)
      ensures dragFlag == old(dragFlag) && loading == old(loading) && DragState() == old(DragState())
    {
      if hostname !in disabledDomains {
        AppendAbsentNoDuplicates(disabledDomains, hostname);
        disabledDomains := disabledDomains + [hostname];
        toasts := toasts + [Toast(T("hideSuccess", None), "info")];
        button := false;
      }
    }

    /** The `storage.onChanged` listener for the sync area. `showChange` is the new switch
        value's truthiness and `domainsChange` the new disabled list, when they changed; the
        settings the button's creation reads are already the new ones. */
    method OnStorageChanged(area: string, showChange: Option<bool>, domainsChange: Option<seq<string>>)
      modifies this
      ensures area != "sync" ==> (button == old(button) && showFloatingButton == old(showFloatingButton)
        && disabledDomains == old(disabledDomains))
      ensures area == "sync" && domainsChange.Some? && hostname in domainsChange.value ==> !button
      ensures area == "sync" && showChange == Some(false) ==> !button
      ensures area == "sync" && showChange == Some(true) && domainsChange.None? ==>
        button == (old(button) || hostname !in old(disabledDomains))
      ensures area == "sync" && showChange == Some(true) && domainsChange.Some? ==>
        button == (hostname !in domainsChange.value)
      ensures area == "sync" ==>
        showFloatingButton == (if showChange.Some? then showChange.value else old(showFloatingButton))
        && disabledDomains == (if domainsChange.Some? then domainsChange.value else old(disabledDomains))
      ensures area == "sync" && showChange.None? && domainsChange.Some? && hostname !in domainsChange.value ==>
        button == (old(button) || old(showFloatingButton))
      ensures area == "sync" && showChange.None? && domainsChange.None? ==> button == old(button)
      ensures old(button) && button ==> dragFlag == old(dragFlag) && loading == old(loading)
      ensures !old(button) && button ==> !dragFlag && !loading
      ensures !button ==> (dragFlag == old(dragFlag) && loading == old(loading)) || (!dragFlag && !loading)
      ensures toasts == old(toasts) && messages == old(messages) && DragState() == old(DragState())
    {
      if area != "sync" {
        return;
      }
      if showChange.Some? {
        showFloatingButton := showChange.value;
      }
      if domainsChange.Some? {
        disabledDomains := domainsChange.value;
      }
      if showChange.Some? {
        if showChange.value {
          CreateFloatingButton();
        } else {
          button := false;
        }
      }
      if domainsChange.Some? {
        var isDisabled := hostname in domainsChange.value;
        if isDisabled && button {
          button := false;
        } else if !isDisabled && !button {
          CreateFloatingButton();
        }
      }
    }
  }
}
