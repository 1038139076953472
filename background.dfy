/** The service worker of background.js: the manual classify-and-file pipeline, the automatic
    one run for bookmarks the user creates natively, and the set of urls whose creation
    event the worker caused itself and must skip once.

    The functions `ManualTrigger`, `OnCreatedSpec` and their steps state what one event does
    to the `World` (bookmark store, history, suppression set, toasts sent to tabs); the
    methods of `ServiceWorker` perform the same steps on mutable state and are proved to
    leave exactly that world. */
module Background {
  import opened Util
  import opened Text
  import Llm
  import opened Bookmarks
  import History
  import I18n

  /** How many characters of the page text the tab extraction keeps. */
  const BodyLimit: nat := 500
  const ShortcutCommand := "trigger_smart_bookmark"

  /** An open tab, as `chrome.tabs.query` reports it. */
  datatype Tab = Tab(id: nat, url: string, title: string)

  /** What the injected extraction script finds in a page: the two meta tags (absent when
      missing) and the page's visible text. */
  datatype PageDom = PageDom(description: Option<string>, keywords: Option<string>, innerText: string)

  /** A `SHOW_TOAST` message sent to a tab. */
  datatype Toast = Toast(tabId: nat, message: string, status: string)

  /** The reply of `handleManualTrigger`. */
  datatype Response = Success(category: string) | Failure(error: string)

  /** Everything one event reads and does not change: the stored settings, the backends,
      the pages that scripts can be injected into (`None`: injection fails), the active tab,
      the loaded translations and the two clock readings a history entry takes. */
  datatype Env = Env(
    config: Llm.Config, allowNewFolders: bool, enableSmartRename: bool,
    net: Llm.Backends, parse: string -> Option<Llm.JsonObject>,
    pages: nat -> Option<PageDom>, activeTab: Option<Tab>,
    messages: Option<map<string, string>>, browser: string -> string,
    idClock: nat, clock: nat)

  /** `t(key, replacements)` of utils/i18n.js with the loaded translations. */
  function T(env: Env, key: string, replacements: map<string, string>): string {
    I18n.Translate(env.messages, key, Some(replacements), env.browser)
  }

  /** `if (tabId)`: a missing tab id and tab id 0 are both falsy. */
  predicate TabTruthy(tabId: Option<nat>) {
    tabId.Some? && tabId.value != 0
  }

  /** `a || b` on two strings. */
  function OrElse(a: string, b: string): (r: string)
    ensures r == (if a != "" then a else b)
  {
    Or(Some(a), b)
  }

  const EmptyContent := Llm.PageContent("", "", None)

  // ---------------------------------------------------------------------------
  // Extraction and lookup

  /** `extractPageContentFromTab`: the meta description and keywords (empty when missing)
      and the page text cut to `BodyLimit` characters with white-space runs collapsed; a
      failed injection gives empty content. */
  function ExtractPageContentFromTab(pages: nat -> Option<PageDom>, tabId: nat): (c: Llm.PageContent)
    ensures pages(tabId).None? ==> c == EmptyContent
    ensures pages(tabId).Some? ==> c.body.Some? && |c.body.value| <= BodyLimit
    ensures pages(tabId).Some? ==> (var dom := pages(tabId).value;
      && c.description == (if Truthy(dom.description) then dom.description.value else "")
      && c.keywords == (if Truthy(dom.keywords) then dom.keywords.value else "")
      && c.body == Some(Digest(dom.innerText, BodyLimit)))
  {
    match pages(tabId)
    case None => EmptyContent
    case Some(dom) =>
      Llm.PageContent(Or(dom.description, ""), Or(dom.keywords, ""), Some(Digest(dom.innerText, BodyLimit)))
  }

  /** The active tab shows the page of `url` when either url is a prefix of the other. */
  predicate SamePage(tab: Tab, url: string) {
    tab.url == url || url <= tab.url || tab.url <= url
  }

  /** `extractPageContent(url)`: the active tab's content, but only when it shows that page. */
  function ExtractPageContent(env: Env, url: string): Llm.PageContent {
    if env.activeTab.Some? && SamePage(env.activeTab.value, url) then
      ExtractPageContentFromTab(env.pages, env.activeTab.value.id)
    else EmptyContent
  }

  /** Content is read from a tab only when that tab is active and shows the same page. */
  lemma ExtractOnlyFromSamePage(env: Env, url: string)
    ensures ExtractPageContent(env, url) != EmptyContent ==>
      env.activeTab.Some? && (url <= env.activeTab.value.url || env.activeTab.value.url <= url)
      && env.pages(env.activeTab.value.id).Some?
    ensures ExtractPageContent(env, url).body.Some? ==> |ExtractPageContent(env, url).body.value| <= BodyLimit
  {
  }

  // ---------------------------------------------------------------------------
  // Classification

  /** The category and title a classification settles on: the classifier's answer, or the
      translated default folder name and the unchanged title when it throws. */
  function Classify(env: Env, nodes: seq<Node>, title: string, url: string, content: Llm.PageContent): (string, string) {
    match Llm.ClassifyWithLlm(title, url, content, GetExistingFolderNames(nodes), env.allowNewFolders,
                              env.enableSmartRename, env.config, env.net, env.parse)
    case Ok(c) => (c.category, c.title)
    case Err(_) => (T(env, "defaultFolder", map[]), title)
  }

  /** A failing classifier never stops the pipeline: it falls back to the default folder. */
  lemma ClassifyFallback(env: Env, nodes: seq<Node>, title: string, url: string, content: Llm.PageContent)
    requires Llm.ClassifyWithLlm(title, url, content, GetExistingFolderNames(nodes), env.allowNewFolders,
                                 env.enableSmartRename, env.config, env.net, env.parse).Err?
    ensures Classify(env, nodes, title, url, content) == (T(env, "defaultFolder", map[]), title)
  {
  }

  /** With smart renaming off, the pipeline always keeps the page title. */
  lemma ClassifyKeepsTitle(env: Env, nodes: seq<Node>, title: string, url: string, content: Llm.PageContent)
    requires !env.enableSmartRename
    ensures Classify(env, nodes, title, url, content).1 == title
  {
  }

  // ---------------------------------------------------------------------------
  // The world and one event's effect on it

  datatype World = World(store: Store, history: seq<History.Entry>, recent: set<string>, toasts: seq<Toast>)

  /** The world where a step sequence stopped, and the error that stopped it, if any. */
  datatype Outcome = Outcome(world: World, error: Option<string>)

  /** A toast to the tab if the tab id is truthy. */
  function ToastTo(tabId: Option<nat>, message: string, status: string): seq<Toast> {
    if TabTruthy(tabId) then [Toast(tabId.value, message, status)] else []
  }

  /** The history entry both pipelines record. */
  function EntryFor(env: Env, title: string, newTitle: string, url: string, category: string): History.Entry {
    History.MakeEntry(History.NewItem(Some(OrElse(newTitle, title)), Some(url), Some(category), None),
                      env.idClock, env.clock)
  }

  /** Steps 3 of `handleManualTrigger`: resolve the folder, then move (and retitle) the
      bookmark that already has the url, or remember the url and create one. A step that
      throws stops the sequence; what earlier steps did stays done. */
  function Place(w: World, url: string, title: string, category: string, newTitle: string): Outcome {
    match ResolveFolder(w.store, category)
    case Err(e) => Outcome(w, Some(e))
    case Ok(res) =>
      var w1 := w.(store := res.store);
      match FirstWithUrl(w1.store.nodes, url)
      case Some(existing) =>
        (match MoveIn(w1.store, existing.id, res.folderId)
         case Err(e) => Outcome(w1, Some(e))
         case Ok(m) =>
           var w2 := w1.(store := m.store);
           if newTitle != "" && newTitle != existing.title then
             match UpdateIn(w2.store, existing.id, newTitle, None)
             case Err(e) => Outcome(w2, Some(e))
             case Ok(u) => Outcome(w2.(store := u.store), None)
           else Outcome(w2, None))
      case None =>
        var w2 := w1.(recent := w1.recent + {url});
        match CreateIn(w2.store, res.folderId, OrElse(newTitle, title), Some(url))
        case Err(e) => Outcome(w2, Some(e))
        case Ok(c) => Outcome(w2.(store := c.store), None)
  }

  /** The content `handleManualTrigger` classifies: the tab's, or none without a tab id. */
  function ManualContent(env: Env, tabId: Option<nat>): Llm.PageContent {
    if TabTruthy(tabId) then ExtractPageContentFromTab(env.pages, tabId.value) else EmptyContent
  }

  /** `handleManualTrigger(tabId, url, title)`: extract, classify, place, then a success toast,
      one history entry and `{ success: true, category }`; any throw instead gives an error
      toast and `{ success: false, error }`. */
  function ManualTrigger(w: World, env: Env, tabId: Option<nat>, url: string, title: string): (World, Response) {
    var cls := Classify(env, w.store.nodes, title, url, ManualContent(env, tabId));
    var category := cls.0;
    var newTitle := cls.1;
    var o := Place(w, url, title, category, newTitle);
    match o.error
    case None =>
      var w1 := o.world.(toasts := o.world.toasts
        + ToastTo(tabId, T(env, "bookmarkedSuccess", map["category" := category]), "success"));
      (w1.(history := History.Prepend(w1.history, EntryFor(env, title, newTitle, url, category))), Success(category))
    case Some(e) =>
      (o.world.(toasts := o.world.toasts + ToastTo(tabId, T(env, "failedPrefix", map[]) + e, "error")), Failure(e))
  }

  /** After classification the automatic pipeline records history and, when the active tab
      shows the page, tells it. */
  function FinishAutomatic(w: World, env: Env, title: string, newTitle: string, url: string, category: string): World {
    var w1 := w.(history := History.Prepend(w.history, EntryFor(env, title, newTitle, url, category)));
    if env.activeTab.Some? && env.activeTab.value.url == url then
      w1.(toasts := w1.toasts + [Toast(env.activeTab.value.id, T(env, "toastAutoBookmarked", map["category" := category]), "success")])
    else w1
  }

  /** `processBookmarkClassification`: classify, then file the bookmark under the answer. */
  function ProcessClassification(w: World, env: Env, bookmarkId: nat, title: string, url: string,
                                 content: Llm.PageContent): Outcome
  {
    var cls := Classify(env, w.store.nodes, title, url, content);
    FileClassified(w, env, bookmarkId, title, url, cls.0, cls.1)
  }

  /** Filing a classified bookmark: nothing at all for an empty category; otherwise resolve
      the folder, move the bookmark, retitle it only when the new title is non-empty and
      differs, then finish. */
  function FileClassified(w: World, env: Env, bookmarkId: nat, title: string, url: string,
                          category: string, newTitle: string): Outcome
  {
    if category == "" then Outcome(w, None)
    else match ResolveFolder(w.store, category)
      case Err(e) => Outcome(w, Some(e))
      case Ok(res) =>
        var w1 := w.(store := res.store);
        match MoveIn(w1.store, bookmarkId, res.folderId)
        case Err(e) => Outcome(w1, Some(e))
        case Ok(m) =>
          var w2 := w1.(store := m.store);
          if newTitle != "" && newTitle != title then
            match UpdateIn(w2.store, bookmarkId, newTitle, None)
            case Err(e) => Outcome(w2, Some(e))
            case Ok(u) => Outcome(FinishAutomatic(w2.(store := u.store), env, title, newTitle, url, category), None)
          else Outcome(FinishAutomatic(w2, env, title, newTitle, url, category), None)
  }

  /** The `onCreated` listener: folders are ignored; a url the worker itself just created is
      taken out of the set and skipped, once; any other bookmark is classified. */
  function OnCreatedSpec(w: World, env: Env, id: nat, title: string, url: Option<string>): World {
    if !Truthy(url) then w
    else if url.value in w.recent then w.(recent := w.recent - {url.value})
    else ProcessClassification(w, env, id, title, url.value, ExtractPageContent(env, url.value)).world
  }

  // ---------------------------------------------------------------------------
  // Properties of the pipelines

  /** Creating a folder does not change which bookmarks have a url. */
  lemma SearchUrlAppend(nodes: seq<Node>, extra: Node, url: string)
    requires extra.url != Some(url)
    ensures SearchUrl(nodes + [extra], url) == SearchUrl(nodes, url)
  {
    if nodes != [] {
      SearchUrlAppend(nodes[1..], extra, url);
      assert (nodes + [extra])[1..] == nodes[1..] + [extra];
    } else {
      assert SearchUrl([extra], url) == SearchUrl([], url) + [] by {
        assert [extra][1..] == [];
      }
    }
  }

  /** How many bookmarks carry `url`. */
  function CountUrl(nodes: seq<Node>, url: string): nat {
    if nodes == [] then 0 else (if nodes[0].url == Some(url) then 1 else 0) + CountUrl(nodes[1..], url)
  }

  lemma {:induction false} CountUrlConcat(a: seq<Node>, b: seq<Node>, url: string)
    ensures CountUrl(a + b, url) == CountUrl(a, url) + CountUrl(b, url)
    decreases |a|
  {
    if a == [] {
      assert a + b == b;
    } else {
      assert (a + b)[1..] == a[1..] + b;
      CountUrlConcat(a[1..], b, url);
    }
  }

  lemma CountUrlSplit(nodes: seq<Node>, k: nat, url: string)
    requires k < |nodes|
    ensures CountUrl(nodes, url) == CountUrl(nodes[..k], url) + CountUrl([nodes[k]], url) + CountUrl(nodes[k + 1..], url)
  {
    assert nodes == nodes[..k] + ([nodes[k]] + nodes[k + 1..]);
    CountUrlConcat(nodes[..k], [nodes[k]] + nodes[k + 1..], url);
    CountUrlConcat([nodes[k]], nodes[k + 1..], url);
  }

  /** Moving a node and retitling it keep the number of bookmarks for every url. */
  lemma MoveKeepsCount(s: Store, id: nat, parentId: nat, url: string)
    requires MoveIn(s, id, parentId).Ok?
    ensures CountUrl(MoveIn(s, id, parentId).value.store.nodes, url) == CountUrl(s.nodes, url)
  {
    var k := IndexOf(s.nodes, id).value;
    var r := MoveIn(s, id, parentId).value.store.nodes;
    CountUrlSplit(s.nodes, k, url);
    CountUrlConcat(s.nodes[..k] + s.nodes[k + 1..], [s.nodes[k].(parentId := parentId)], url);
    CountUrlConcat(s.nodes[..k], s.nodes[k + 1..], url);
  }

  lemma RetitleKeepsCount(s: Store, id: nat, title: string, url: string)
    requires UpdateIn(s, id, title, None).Ok?
    ensures CountUrl(UpdateIn(s, id, title, None).value.store.nodes, url) == CountUrl(s.nodes, url)
  {
    var k := IndexOf(s.nodes, id).value;
    var r := UpdateIn(s, id, title, None).value.store.nodes;
    CountUrlSplit(s.nodes, k, url);
    CountUrlSplit(r, k, url);
    assert r[..k] == s.nodes[..k];
    assert r[k + 1..] == s.nodes[k + 1..];
  }

  lemma CountMatchesSearch(nodes: seq<Node>, url: string)
    ensures CountUrl(nodes, url) == |SearchUrl(nodes, url)|
  {
  }

  /** Placing a url that had at most one bookmark leaves exactly one: an existing bookmark
      is moved (and maybe retitled), never duplicated, and a new one is created only when
      none existed. */
  lemma PlaceNoDuplicate(w: World, url: string, title: string, category: string, newTitle: string)
    requires CountUrl(w.store.nodes, url) <= 1
    requires Place(w, url, title, category, newTitle).error.None?
    ensures CountUrl(Place(w, url, title, category, newTitle).world.store.nodes, url) == 1
  {
    var res := ResolveFolder(w.store, category).value;
    CountMatchesSearch(w.store.nodes, url);
    CountMatchesSearch(res.store.nodes, url);
    if FindFolder(w.store.nodes, category).None? {
      SearchUrlAppend(w.store.nodes, Node(w.store.nextId, BarId, category, None), url);
    }
    match FirstWithUrl(res.store.nodes, url)
    case Some(existing) =>
      var m := MoveIn(res.store, existing.id, res.folderId).value;
      MoveKeepsCount(res.store, existing.id, res.folderId, url);
      if newTitle != "" && newTitle != existing.title {
        RetitleKeepsCount(m.store, existing.id, newTitle, url);
      }
    case None =>
      var c := CreateIn(res.store, res.folderId, OrElse(newTitle, title), Some(url)).value;
      CountUrlConcat(res.store.nodes, [c.node], url);
  }

  /** Placing changes neither the history nor the toasts. */
  lemma PlaceKeepsHistory(w: World, url: string, title: string, category: string, newTitle: string)
    ensures Place(w, url, title, category, newTitle).world.history == w.history
    ensures Place(w, url, title, category, newTitle).world.toasts == w.toasts
  {
  }

  /** The manual pipeline never duplicates a bookmark: a url with at most one bookmark has
      exactly one after a successful run. */
  lemma ManualTriggerNoDuplicate(w: World, env: Env, tabId: Option<nat>, url: string, title: string)
    requires CountUrl(w.store.nodes, url) <= 1
    requires ManualTrigger(w, env, tabId, url, title).1.Success?
    ensures CountUrl(ManualTrigger(w, env, tabId, url, title).0.store.nodes, url) == 1
  {
    var cls := Classify(env, w.store.nodes, title, url, ManualContent(env, tabId));
    PlaceNoDuplicate(w, url, title, cls.0, cls.1);
  }

  /** A manual run that creates the bookmark remembers its url, so the creation event it
      causes is skipped and changes nothing but the set. */
  lemma ManualCreateSuppressesEcho(w: World, env: Env, tabId: Option<nat>, url: string, title: string,
                                   env2: Env, id: nat, title2: string)
    requires url != ""
    requires FirstWithUrl(w.store.nodes, url).None?
    requires ManualTrigger(w, env, tabId, url, title).1.Success?
    ensures var w1 := ManualTrigger(w, env, tabId, url, title).0;
      url in w1.recent && OnCreatedSpec(w1, env2, id, title2, Some(url)) == w1.(recent := w1.recent - {url})
  {
    var cls := Classify(env, w.store.nodes, title, url, ManualContent(env, tabId));
    PlaceRemembersCreated(w, url, title, cls.0, cls.1);
  }

  /** Placing a page with no bookmark yet remembers its url. */
  lemma PlaceRemembersCreated(w: World, url: string, title: string, category: string, newTitle: string)
    requires FirstWithUrl(w.store.nodes, url).None?
    requires Place(w, url, title, category, newTitle).error.None?
    ensures url in Place(w, url, title, category, newTitle).world.recent
  {
    var res := ResolveFolder(w.store, category).value;
    if FindFolder(w.store.nodes, category).None? {
      SearchUrlAppend(w.store.nodes, Node(w.store.nextId, BarId, category, None), url);
    }
  }

  /** Placing a page that already has a bookmark files that bookmark: it becomes the last
      child of the resolved folder, keeps its id and url, takes the new title only when
      that is non-empty and differs, and no node is added beyond a created folder. */
  lemma PlaceFilesExisting(w: World, url: string, title: string, category: string, newTitle: string)
    requires WellFormed(w.store)
    requires FirstWithUrl(w.store.nodes, url).Some?
    requires Place(w, url, title, category, newTitle).error.None?
    ensures var res := ResolveFolder(w.store, category).value;
      var existing := FirstWithUrl(w.store.nodes, url).value;
      var nodes := Place(w, url, title, category, newTitle).world.store.nodes;
      && |nodes| == |res.store.nodes|
      && nodes[|nodes| - 1] == existing.(parentId := res.folderId,
           title := if newTitle != "" && newTitle != existing.title then newTitle else existing.title)
  {
    var res := ResolveFolder(w.store, category).value;
    ResolveFolderWellFormed(w.store, category);
    ResolveKeepsBookmarks(w.store, category, url);
    var existing := FirstWithUrl(res.store.nodes, url).value;
    FileExisting(res.store, existing, res.folderId, newTitle);
  }

  /** Resolving a folder does not change which bookmark is found for a url. */
  lemma ResolveKeepsBookmarks(s: Store, category: string, url: string)
    requires ResolveFolder(s, category).Ok?
    ensures FirstWithUrl(ResolveFolder(s, category).value.store.nodes, url) == FirstWithUrl(s.nodes, url)
  {
    if FindFolder(s.nodes, category).None? {
      SearchUrlAppend(s.nodes, Node(s.nextId, BarId, category, None), url);
    }
  }

  /** Moving a stored node into a folder makes it the last node, with the new parent; a
      retitle that follows changes that last node's title and nothing else. */
  lemma FileExisting(s: Store, existing: Node, folderId: nat, newTitle: string)
    requires WellFormed(s) && existing in s.nodes && MoveIn(s, existing.id, folderId).Ok?
    ensures var m := MoveIn(s, existing.id, folderId).value.store;
      && |m.nodes| == |s.nodes| && m.nodes[|m.nodes| - 1] == existing.(parentId := folderId)
      && (UpdateIn(m, existing.id, newTitle, None).Ok? ==>
        (var u := UpdateIn(m, existing.id, newTitle, None).value.store;
         |u.nodes| == |s.nodes| && u.nodes[|u.nodes| - 1] == existing.(parentId := folderId, title := newTitle)))
  {
    var j :| 0 <= j < |s.nodes| && s.nodes[j] == existing;
    IndexOfUnique(s.nodes, s.nextId, j);
    var m := MoveIn(s, existing.id, folderId).value.store;
    MoveWellFormed(s, existing.id, folderId);
    IndexOfUnique(m.nodes, m.nextId, |m.nodes| - 1);
  }

  /** Placing a page with no bookmark yet creates exactly one, as the last child of the
      resolved folder, titled with the new title or else the page title. */
  lemma PlaceFilesCreated(w: World, url: string, title: string, category: string, newTitle: string)
    requires FirstWithUrl(w.store.nodes, url).None?
    requires Place(w, url, title, category, newTitle).error.None?
    ensures var res := ResolveFolder(w.store, category).value;
      Place(w, url, title, category, newTitle).world.store.nodes
        == res.store.nodes + [Node(res.store.nextId, res.folderId, OrElse(newTitle, title), Some(url))]
  {
    var res := ResolveFolder(w.store, category).value;
    if FindFolder(w.store.nodes, category).None? {
      SearchUrlAppend(w.store.nodes, Node(w.store.nextId, BarId, category, None), url);
    }
  }

  /** A skipped creation event changes nothing but the set, and only once: the url is no
      longer remembered afterwards. */
  lemma OnCreatedSkipsOnce(w: World, env: Env, id: nat, title: string, url: string)
    requires url != "" && url in w.recent
    ensures var w1 := OnCreatedSpec(w, env, id, title, Some(url));
      w1 == w.(recent := w.recent - {url}) && url !in w1.recent
  {
  }

  /** Folders (nodes without a url) are never classified. */
  lemma OnCreatedIgnoresFolders(w: World, env: Env, id: nat, title: string, url: Option<string>)
    requires !Truthy(url)
    ensures OnCreatedSpec(w, env, id, title, url) == w
  {
  }

  /** The manual pipeline records exactly one history entry (title, url, category of the
      run) when it succeeds, and none when it fails. */
  lemma ManualTriggerHistory(w: World, env: Env, tabId: Option<nat>, url: string, title: string)
    ensures var (w1, r) := ManualTrigger(w, env, tabId, url, title);
      var cls := Classify(env, w.store.nodes, title, url, ManualContent(env, tabId));
      && (r.Success? ==> (r.category == cls.0
            && w1.history == History.Prepend(w.history, EntryFor(env, title, cls.1, url, cls.0))
            && w1.history[0].title == Some(OrElse(cls.1, title)) && w1.history[0].url == Some(url)
            && w1.history[0].category == Some(cls.0) && w1.history[0].status == "success"))
      && (r.Failure? ==> w1.history == w.history)
  {
    var cls := Classify(env, w.store.nodes, title, url, ManualContent(env, tabId));
    PlaceKeepsHistory(w, url, title, cls.0, cls.1);
  }

  /** An empty category leaves everything as it was: no folder, no move, no history. */
  lemma EmptyCategoryDoesNothing(w: World, env: Env, id: nat, title: string, url: string, content: Llm.PageContent)
    requires Classify(env, w.store.nodes, title, url, content).0 == ""
    ensures ProcessClassification(w, env, id, title, url, content) == Outcome(w, None)
  {
  }

  /** The automatic pipeline retitles only when the new title is non-empty and differs:
      otherwise the store is exactly the one after the move. */
  lemma AutomaticRetitleOnlyWhenChanged(w: World, env: Env, id: nat, title: string, url: string, content: Llm.PageContent)
    requires var cls := Classify(env, w.store.nodes, title, url, content);
      cls.0 != "" && (cls.1 == "" || cls.1 == title)
    requires ProcessClassification(w, env, id, title, url, content).error.None?
    ensures var cls := Classify(env, w.store.nodes, title, url, content);
      var res := ResolveFolder(w.store, cls.0).value;
      ProcessClassification(w, env, id, title, url, content).world.store == MoveIn(res.store, id, res.folderId).value.store
  {
  }

  /** Every event keeps the bookmark store well formed. */
  lemma PlaceWellFormed(w: World, url: string, title: string, category: string, newTitle: string)
    requires WellFormed(w.store)
    ensures WellFormed(Place(w, url, title, category, newTitle).world.store)
  {
    match ResolveFolder(w.store, category)
    case Err(_) =>
    case Ok(res) =>
      ResolveFolderWellFormed(w.store, category);
      match FirstWithUrl(res.store.nodes, url)
      case Some(existing) =>
        if MoveIn(res.store, existing.id, res.folderId).Ok? {
          var m := MoveIn(res.store, existing.id, res.folderId).value;
          MoveWellFormed(res.store, existing.id, res.folderId);
          if UpdateIn(m.store, existing.id, newTitle, None).Ok? {
            UpdateWellFormed(m.store, existing.id, newTitle, None);
          }
        }
      case None =>
        if CreateIn(res.store, res.folderId, OrElse(newTitle, title), Some(url)).Ok? {
          CreateWellFormed(res.store, res.folderId, OrElse(newTitle, title), Some(url));
        }
  }

  // ---------------------------------------------------------------------------
  // The service worker

  /** A message to the worker: from the popup, from the floating button's content script,
      or anything else, which gets no reply. */
  datatype Request =
    | TriggerFromPopup(tabId: Option<nat>, url: string, title: string)
    | AiBookmark(url: string, title: string)
    | OtherRequest

  class ServiceWorker {
    const store: BookmarkStore
    const log: History.HistoryLog
    /** `recentlyProcessedUrls`. */
    var recent: set<string>
    /** The toasts sent to tabs so far. */
    var toasts: seq<Toast>

    function State(): World
      reads this, store, log
    {
      World(store.State(), log.items, recent, toasts)
    }

    predicate Valid()
      reads this, store
    {
      store.Valid()
    }

    constructor(store: BookmarkStore, log: History.HistoryLog)
      requires store.Valid()
      ensures this.store == store && this.log == log && recent == {} && toasts == [] && Valid()
    {
      this.store := store;
      this.log := log;
      recent := {};
      toasts := [];
    }

    /** Step 3 of `handleManualTrigger`. */
    method PlaceBookmark(url: string, title: string, category: string, newTitle: string)
      returns (error: Option<string>)
      requires Valid()
      modifies this, store
      ensures Valid()
      ensures Outcome(State(), error) == Place(old(State()), url, title, category, newTitle)
    {
      var folder := CreateOrGetFolder(store, category);
      if folder.Err? {
        return Some(folder.error);
      }
      var found := store.Search(url);
      if |found| > 0 {
        var existing := found[0];
        var moved := MoveBookmark(store, existing.id, folder.value);
        if moved.Err? {
          return Some(moved.error);
        }
        if newTitle != "" && newTitle != existing.title {
          var updated := store.Update(existing.id, newTitle, None);
          if updated.Err? {
            return Some(updated.error);
          }
        }
        error := None;
      } else {
        recent := recent + {url};
        var created := store.Create(folder.value, OrElse(newTitle, title), Some(url));
        if created.Err? {
          return Some(created.error);
        }
        error := None;
      }
    }

    /** `handleManualTrigger(tabId, url, title)`. */
    method HandleManualTrigger(env: Env, tabId: Option<nat>, url: string, title: string)
      returns (response: Response)
      requires Valid()
      modifies this, store, log
      ensures Valid()
      ensures (State(), response) == ManualTrigger(old(State()), env, tabId, url, title)
    {
      var content := EmptyContent;
      if TabTruthy(tabId) {
        content := ExtractPageContentFromTab(env.pages, tabId.value);
      }
      var cls := Classify(env, store.nodes, title, url, content);
      var category := cls.0;
      var newTitle := cls.1;
      var error := PlaceBookmark(url, title, category, newTitle);
      if error.None? {
        toasts := toasts + ToastTo(tabId, T(env, "bookmarkedSuccess", map["category" := category]), "success");
        log.AddHistoryItem(History.NewItem(Some(OrElse(newTitle, title)), Some(url), Some(category), None),
                           env.idClock, env.clock);
        response := Success(category);
      } else {
        toasts := toasts + ToastTo(tabId, T(env, "failedPrefix", map[]) + error.value, "error");
        response := Failure(error.value);
      }
    }

    /** `handleAiBookmarkRequest(data, tabId)`: the manual pipeline for the sender's tab; the
        content the floating button sends along is not used. */
    method HandleAiBookmarkRequest(env: Env, url: string, title: string, tabId: Option<nat>)
      returns (response: Response)
      requires Valid()
      modifies this, store, log
      ensures Valid()
      ensures (State(), response) == ManualTrigger(old(State()), env, tabId, url, title)
    {
      response := HandleManualTrigger(env, tabId, url, title);
    }

    /** `processBookmarkClassification(bookmarkId, title, url, pageContent)`. */
    method ProcessBookmarkClassification(env: Env, bookmarkId: nat, title: string, url: string,
                                         content: Llm.PageContent) returns (error: Option<string>)
      requires Valid()
      modifies this, store, log
      ensures Valid()
      ensures Outcome(State(), error) == ProcessClassification(old(State()), env, bookmarkId, title, url, content)
    {
      var cls := Classify(env, store.nodes, title, url, content);
      error := FileBookmark(env, bookmarkId, title, url, cls.0, cls.1);
    }

    /** The filing half of `processBookmarkClassification`, once the answer is known. */
    method FileBookmark(env: Env, bookmarkId: nat, title: string, url: string, category: string,
                        newTitle: string) returns (error: Option<string>)
      requires Valid()
      modifies this, store, log
      ensures Valid()
      ensures Outcome(State(), error) == FileClassified(old(State()), env, bookmarkId, title, url, category, newTitle)
    {
      if category == "" {
        return None;
      }
      var folder := CreateOrGetFolder(store, category);
      if folder.Err? {
        return Some(folder.error);
      }
      var moved := MoveBookmark(store, bookmarkId, folder.value);
      if moved.Err? {
        return Some(moved.error);
      }
      if newTitle != "" && newTitle != title {
        var updated := store.Update(bookmarkId, newTitle, None);
        if updated.Err? {
          return Some(updated.error);
        }
      }
      log.AddHistoryItem(History.NewItem(Some(OrElse(newTitle, title)), Some(url), Some(category), None),
                         env.idClock, env.clock);
      if env.activeTab.Some? && env.activeTab.value.url == url {
        toasts := toasts + [Toast(env.activeTab.value.id, T(env, "toastAutoBookmarked", map["category" := category]), "success")];
      }
      error := None;
    }

    /** The `chrome.bookmarks.onCreated` listener; errors of the pipeline are swallowed. */
    method OnCreated(env: Env, id: nat, title: string, url: Option<string>)
      requires Valid()
      modifies this, store, log
      ensures Valid()
      ensures State() == OnCreatedSpec(old(State()), env, id, title, url)
    {
      if !Truthy(url) {
        return;
      }
      if url.value in recent {
        recent := recent - {url.value};
        return;
      }
      var content := ExtractPageContent(env, url.value);
      var _ := ProcessBookmarkClassification(env, id, title, url.value, content);
    }

    /** The shortcut listener: for `trigger_smart_bookmark` and an active tab, an "analyzing"
        toast and then the manual pipeline for that tab. */
    method OnCommand(env: Env, command: string)
      requires Valid()
      modifies this, store, log
      ensures Valid()
      ensures command != ShortcutCommand || env.activeTab.None? ==> State() == old(State())
      ensures command == ShortcutCommand && env.activeTab.Some? ==>
        var tab := env.activeTab.value;
        var w0 := old(State()).(toasts := old(toasts) + [Toast(tab.id, T(env, "toastAnalyzing", map[]), "info")]);
        State() == ManualTrigger(w0, env, Some(tab.id), tab.url, tab.title).0
    {
      if command == ShortcutCommand && env.activeTab.Some? {
        var tab := env.activeTab.value;
        toasts := toasts + [Toast(tab.id, T(env, "toastAnalyzing", map[]), "info")];
        var _ := HandleManualTrigger(env, Some(tab.id), tab.url, tab.title);
      }
    }

    /** The message listener: both bookmark requests run the manual pipeline and are answered
        with its response; other messages get none. */
    method OnMessage(env: Env, request: Request, senderTab: Option<nat>) returns (reply: Option<Response>)
      requires Valid()
      modifies this, store, log
      ensures Valid()
      ensures request.OtherRequest? ==> reply.None? && State() == old(State())
      ensures request.TriggerFromPopup? ==>
        reply.Some? && (State(), reply.value) == ManualTrigger(old(State()), env, request.tabId, request.url, request.title)
      ensures request.AiBookmark? ==>
        reply.Some? && (State(), reply.value) == ManualTrigger(old(State()), env, senderTab, request.url, request.title)
    {
      match request
      case TriggerFromPopup(tabId, url, title) =>
        var r := HandleManualTrigger(env, tabId, url, title);
        reply := Some(r);
      case AiBookmark(url, title) =>
        var r := HandleAiBookmarkRequest(env, url, title, senderTab);
        reply := Some(r);
      case OtherRequest =>
        reply := None;
    }

    /** The delayed removal of a remembered url (ten seconds after a creation). */
    method ExpireRecent(url: string)
      modifies this
      ensures recent == old(recent) - {url} && toasts == old(toasts)
    {
      recent := recent - {url};
    }

    /** `findBookmarkByUrl(url)`. */
    method FindBookmarkByUrl(url: string) returns (found: Option<Node>)
      ensures found == FirstWithUrl(store.nodes, url)
    {
      var results := store.Search(url);
      found := if |results| > 0 then Some(results[0]) else None;
    }
  }
}
