/** The browser's bookmark store and the helpers of utils/bookmark.js that use it.

    The store is a list of nodes; a node's children are the nodes naming it as parent, in
    list order, which is the order the browser shows them in. Node `1` is the bookmarks bar,
    the container every category folder lives in, and node `0` is the implicit root. */
module Bookmarks {
  import opened Util

  const RootId: nat := 0
  const BarId: nat := 1

  const NotFound := "Can't find bookmark for id."
  const ParentNotFound := "Can't find parent bookmark for id."
  const ParentNotFolder := "Parameter 'parentId' does not specify a folder."
  const PermanentNode := "Can't modify the root bookmark folders."
  const IntoOwnSubtree := "Can't move a folder into its own descendant."
  const FolderUrl := "Can't set URL of a bookmark folder."
  /** What reading `children` of a missing bookmarks bar throws. */
  const NoBar := "TypeError"

  /** A bookmark (with a url) or a folder (without one). */
  datatype Node = Node(id: nat, parentId: nat, title: string, url: Option<string>)

  /** `!n.url`: a folder is a node without a url. */
  predicate IsFolder(n: Node) {
    !Truthy(n.url)
  }

  /** The store: its nodes in order, and the id the next created node receives. */
  datatype Store = Store(nodes: seq<Node>, nextId: nat)

  /** Ids are distinct, and every id is above the root and below the next id to hand out. */
  predicate WellFormed(s: Store) {
    && (forall i, j :: 0 <= i < j < |s.nodes| ==> s.nodes[i].id != s.nodes[j].id)
    && (forall i :: 0 <= i < |s.nodes| ==> RootId < s.nodes[i].id < s.nextId)
  }

  /** The position of the node with id `id`. */
  function IndexOf(nodes: seq<Node>, id: nat): (r: Option<nat>)
    ensures r.Some? ==> r.value < |nodes| && nodes[r.value].id == id
    ensures r.None? ==> forall i :: 0 <= i < |nodes| ==> nodes[i].id != id
  {
    if nodes == [] then None
    else if nodes[0].id == id then Some(0)
    else match IndexOf(nodes[1..], id)
      case None => None
      case Some(k) => Some(k + 1)
  }

  /** With distinct ids, a node's position is where its id is found. */
  lemma IndexOfUnique(nodes: seq<Node>, nextId: nat, k: nat)
    requires WellFormed(Store(nodes, nextId)) && k < |nodes|
    ensures IndexOf(nodes, nodes[k].id) == Some(k)
  {
    var r := IndexOf(nodes, nodes[k].id);
    assert r.Some?;
  }

  /** `tree[0].children.find(n => n.id === '1')` finds a folder. */
  predicate BarPresent(nodes: seq<Node>) {
    exists i :: 0 <= i < |nodes| && nodes[i].id == BarId && nodes[i].parentId == RootId && IsFolder(nodes[i])
  }

  /** The titles of the url-less children of `parent`, in child order. */
  function FolderTitles(nodes: seq<Node>, parent: nat): seq<string> {
    if nodes == [] then []
    else (if nodes[0].parentId == parent && IsFolder(nodes[0]) then [nodes[0].title] else [])
         + FolderTitles(nodes[1..], parent)
  }

  /** `getExistingFolderNames`: the folder names directly inside the bookmarks bar, or none
      when there is no bar. */
  function GetExistingFolderNames(nodes: seq<Node>): (r: seq<string>)
    ensures !BarPresent(nodes) ==> r == []
  {
    if BarPresent(nodes) then FolderTitles(nodes, BarId) else []
  }

  /** A name is listed exactly when some url-less direct child of the bar carries it. */
  lemma {:induction false} FolderTitlesExactly(nodes: seq<Node>, parent: nat, name: string)
    ensures name in FolderTitles(nodes, parent) <==>
      exists i :: 0 <= i < |nodes| && nodes[i].parentId == parent && IsFolder(nodes[i]) && nodes[i].title == name
  {
    if nodes != [] {
      FolderTitlesExactly(nodes[1..], parent, name);
      var rest := FolderTitles(nodes[1..], parent);
      if name in rest {
        var i :| 0 <= i < |nodes| - 1 && nodes[1..][i].parentId == parent && IsFolder(nodes[1..][i]) && nodes[1..][i].title == name;
        assert nodes[i + 1] == nodes[1..][i];
      }
      if exists i :: 0 <= i < |nodes| && nodes[i].parentId == parent && IsFolder(nodes[i]) && nodes[i].title == name {
        var i :| 0 <= i < |nodes| && nodes[i].parentId == parent && IsFolder(nodes[i]) && nodes[i].title == name;
        if i > 0 { assert nodes[1..][i - 1] == nodes[i]; }
      }
    }
  }

  /** The titles are listed node by node: a url-less child of `parent` gives its title, any
      other node nothing, and a concatenation of node lists gives the titles of the first
      list followed by those of the second, so there is one entry per such child, in child
      order. */
  lemma {:induction false} FolderTitlesConcat(a: seq<Node>, b: seq<Node>, parent: nat)
    ensures FolderTitles(a + b, parent) == FolderTitles(a, parent) + FolderTitles(b, parent)
    ensures |a| == 1 ==> FolderTitles(a, parent) == (if a[0].parentId == parent && IsFolder(a[0]) then [a[0].title] else [])
    decreases |a|
  {
    if a == [] {
      assert a + b == b;
    } else {
      FolderTitlesConcat(a[1..], b, parent);
      assert (a + b)[0] == a[0] && (a + b)[1..] == a[1..] + b;
      var head := if a[0].parentId == parent && IsFolder(a[0]) then [a[0].title] else [];
      ConcatAssoc(head, FolderTitles(a[1..], parent), FolderTitles(b, parent));
      if |a| == 1 {
        assert a[1..] == [];
      }
    }
  }

  /** A name is in the folder names exactly when a url-less child of the bar carries it. */
  lemma ExistingFolderNamesExactly(nodes: seq<Node>, name: string)
    requires BarPresent(nodes)
    ensures name in GetExistingFolderNames(nodes) <==>
      exists i :: 0 <= i < |nodes| && nodes[i].parentId == BarId && IsFolder(nodes[i]) && nodes[i].title == name
  {
    FolderTitlesExactly(nodes, BarId, name);
  }

  /** A url-less direct child of the bar titled exactly `name`. */
  predicate NamedFolder(n: Node, name: string) {
    n.parentId == BarId && IsFolder(n) && n.title == name
  }

  /** The position of the first url-less child of the bar titled exactly `name`
      (case-sensitive); a bookmark with that title is never taken for it. */
  function FindFolder(nodes: seq<Node>, name: string): (r: Option<nat>)
    ensures r.Some? ==> r.value < |nodes| && NamedFolder(nodes[r.value], name)
    ensures r.Some? ==> forall i :: 0 <= i < r.value ==> !NamedFolder(nodes[i], name)
    ensures r.None? ==> forall i :: 0 <= i < |nodes| ==> !NamedFolder(nodes[i], name)
  {
    if nodes == [] then None
    else if NamedFolder(nodes[0], name) then Some(0)
    else match FindFolder(nodes[1..], name)
      case None => None
      case Some(k) =>
        assert forall i :: 1 <= i <= k ==> nodes[i] == nodes[1..][i - 1];
        Some(k + 1)
  }

  // ---------------------------------------------------------------------------
  // The browser's operations on the store

  /** A successful operation: the new store and the node the browser hands back. */
  datatype Change = Change(store: Store, node: Node)

  /** `chrome.bookmarks.create({ parentId, title, url })`: a new last child of an existing
      folder, with a fresh id. */
  function CreateIn(s: Store, parentId: nat, title: string, url: Option<string>): (r: Result<Change>)
    ensures r.Ok? <==> IndexOf(s.nodes, parentId).Some? && IsFolder(s.nodes[IndexOf(s.nodes, parentId).value])
    ensures r.Ok? ==> (r.value.node == Node(s.nextId, parentId, title, url)
      && r.value.store == Store(s.nodes + [r.value.node], s.nextId + 1))
  {
    match IndexOf(s.nodes, parentId)
    case None => Err(ParentNotFound)
    case Some(p) =>
      if !IsFolder(s.nodes[p]) then Err(ParentNotFolder)
      else
        var node := Node(s.nextId, parentId, title, url);
        Ok(Change(Store(s.nodes + [node], s.nextId + 1), node))
  }

  /** `top` is `id` itself or one of its ancestors within `fuel` steps up the parent chain. */
  predicate AncestorOrSelf(nodes: seq<Node>, top: nat, id: nat, fuel: nat)
    decreases fuel
  {
    id == top || (fuel > 0 && IndexOf(nodes, id).Some? &&
      AncestorOrSelf(nodes, top, nodes[IndexOf(nodes, id).value].parentId, fuel - 1))
  }

  /** Why the browser refuses `move(id, { parentId })`, if it does. */
  function MoveError(nodes: seq<Node>, id: nat, parentId: nat): Option<string> {
    if IndexOf(nodes, id).None? then Some(NotFound)
    else if IndexOf(nodes, parentId).None? then Some(ParentNotFound)
    else if !IsFolder(nodes[IndexOf(nodes, parentId).value]) then Some(ParentNotFolder)
    else if nodes[IndexOf(nodes, id).value].parentId == RootId then Some(PermanentNode)
    else if AncestorOrSelf(nodes, id, parentId, |nodes|) then Some(IntoOwnSubtree)
    else None
  }

  /** The store after a successful move: the node leaves its place and becomes the last child
      of its new parent; every other node keeps its place in order. */
  function Moved(nodes: seq<Node>, k: nat, parentId: nat): (r: seq<Node>)
    requires k < |nodes|
    ensures |r| == |nodes|
    ensures r[|r| - 1] == nodes[k].(parentId := parentId)
    ensures r[..|r| - 1] == nodes[..k] + nodes[k + 1..]
  {
    nodes[..k] + nodes[k + 1..] + [nodes[k].(parentId := parentId)]
  }

  /** `chrome.bookmarks.move(id, { parentId })`. */
  function MoveIn(s: Store, id: nat, parentId: nat): (r: Result<Change>)
    ensures r.Err? <==> MoveError(s.nodes, id, parentId).Some?
    ensures r.Ok? ==> (r.value.store == Store(Moved(s.nodes, IndexOf(s.nodes, id).value, parentId), s.nextId)
      && r.value.node == s.nodes[IndexOf(s.nodes, id).value].(parentId := parentId))
  {
    match MoveError(s.nodes, id, parentId)
    case Some(e) => Err(e)
    case None =>
      var k := IndexOf(s.nodes, id).value;
      Ok(Change(Store(Moved(s.nodes, k, parentId), s.nextId), s.nodes[k].(parentId := parentId)))
  }

  /** `chrome.bookmarks.update(id, { title, url? })`: a new title, and a new url when a
      non-empty one is given (the browser treats an empty `url` as no url change); folders
      take no url and the permanent folders take no change. */
  function UpdateIn(s: Store, id: nat, title: string, url: Option<string>): (r: Result<Change>)
    ensures IndexOf(s.nodes, id).None? ==> r == Err(NotFound)
    ensures IndexOf(s.nodes, id).Some? ==> (var n := s.nodes[IndexOf(s.nodes, id).value];
      && (n.parentId == RootId ==> r == Err(PermanentNode))
      && (n.parentId != RootId && Truthy(url) && IsFolder(n) ==> r == Err(FolderUrl))
      && (r.Ok? <==> n.parentId != RootId && !(Truthy(url) && IsFolder(n))))
    ensures r.Ok? ==> (var k := IndexOf(s.nodes, id).value;
      && r.value.node == s.nodes[k].(title := title, url := if Truthy(url) then url else s.nodes[k].url)
      && r.value.store == Store(s.nodes[k := r.value.node], s.nextId))
  {
    match IndexOf(s.nodes, id)
    case None => Err(NotFound)
    case Some(k) =>
      var n := s.nodes[k];
      if n.parentId == RootId then Err(PermanentNode)
      else if Truthy(url) && IsFolder(n) then Err(FolderUrl)
      else
        var updated := n.(title := title, url := if Truthy(url) then url else n.url);
        Ok(Change(Store(s.nodes[k := updated], s.nextId), updated))
  }

  /** Every operation keeps the store well formed. */
  lemma CreateWellFormed(s: Store, parentId: nat, title: string, url: Option<string>)
    requires WellFormed(s) && CreateIn(s, parentId, title, url).Ok?
    ensures WellFormed(CreateIn(s, parentId, title, url).value.store)
  {
  }

  lemma MoveWellFormed(s: Store, id: nat, parentId: nat)
    requires WellFormed(s) && MoveIn(s, id, parentId).Ok?
    ensures WellFormed(MoveIn(s, id, parentId).value.store)
  {
    var k := IndexOf(s.nodes, id).value;
    var r := Moved(s.nodes, k, parentId);
    forall i, j | 0 <= i < j < |r| ensures r[i].id != r[j].id {
      MovedAt(s.nodes, k, parentId, i);
      MovedAt(s.nodes, k, parentId, j);
    }
    forall i | 0 <= i < |r| ensures RootId < r[i].id < s.nextId {
      MovedAt(s.nodes, k, parentId, i);
    }
  }

  /** Where the `i`-th node after a move of the `k`-th of `n` nodes came from. */
  function MovedFrom(n: nat, k: nat, i: nat): nat {
    if i == n - 1 then k else if i < k then i else i + 1
  }

  lemma MovedAt(nodes: seq<Node>, k: nat, parentId: nat, i: nat)
    requires k < |nodes| && i < |nodes|
    ensures MovedFrom(|nodes|, k, i) < |nodes|
    ensures Moved(nodes, k, parentId)[i].id == nodes[MovedFrom(|nodes|, k, i)].id
  {
    var a := nodes[..k] + nodes[k + 1..];
    var r := Moved(nodes, k, parentId);
    if i < |nodes| - 1 {
      assert r[i] == a[i];
      if i >= k {
        assert a[i] == nodes[k + 1..][i - k];
      }
    }
  }

  lemma UpdateWellFormed(s: Store, id: nat, title: string, url: Option<string>)
    requires WellFormed(s) && UpdateIn(s, id, title, url).Ok?
    ensures WellFormed(UpdateIn(s, id, title, url).value.store)
  {
    var k := IndexOf(s.nodes, id).value;
    var r := UpdateIn(s, id, title, url).value.store.nodes;
    assert forall i :: 0 <= i < |r| ==> r[i].id == s.nodes[i].id;
  }

  /** Moving changes only the moved node's parent: it keeps its id, title and url, and every
      other node is still there, in the same relative order. */
  lemma MoveChangesOnlyParent(nodes: seq<Node>, k: nat, parentId: nat)
    requires k < |nodes|
    ensures var r := Moved(nodes, k, parentId);
      && r[|r| - 1].parentId == parentId
      && r[|r| - 1].(parentId := nodes[k].parentId) == nodes[k]
      && multiset(r) == multiset(nodes) - multiset{nodes[k]} + multiset{nodes[k].(parentId := parentId)}
  {
    var r := Moved(nodes, k, parentId);
    assert nodes == nodes[..k] + [nodes[k]] + nodes[k + 1..];
    assert r == (nodes[..k] + nodes[k + 1..]) + [nodes[k].(parentId := parentId)];
  }

  /** All nodes whose url is `url`, in store order (`search({ url })`). */
  function SearchUrl(nodes: seq<Node>, url: string): (r: seq<Node>)
    ensures forall i :: 0 <= i < |r| ==> r[i].url == Some(url)
    ensures forall i :: 0 <= i < |nodes| && nodes[i].url == Some(url) ==> nodes[i] in r
    ensures forall n :: n in r ==> n in nodes
  {
    if nodes == [] then []
    else (if nodes[0].url == Some(url) then [nodes[0]] else []) + SearchUrl(nodes[1..], url)
  }

  /** The first bookmark for `url`, if any (`findBookmarkByUrl`). */
  function FirstWithUrl(nodes: seq<Node>, url: string): (r: Option<Node>)
    ensures r.Some? <==> exists i :: 0 <= i < |nodes| && nodes[i].url == Some(url)
    ensures r.Some? ==> r.value in nodes && r.value.url == Some(url)
  {
    var found := SearchUrl(nodes, url);
    if |found| > 0 then
      assert found[0] in found;
      Some(found[0])
    else None
  }

  // ---------------------------------------------------------------------------
  // createOrGetFolder

  /** The store after `createOrGetFolder`, and the folder id it returned. */
  datatype Resolution = Resolution(store: Store, folderId: nat)

  /** `createOrGetFolder`: the first matching folder if there is one, otherwise a new folder
      at the end of the bar; a missing bar throws. */
  function ResolveFolder(s: Store, name: string): (r: Result<Resolution>)
    ensures r.Err? <==> !BarPresent(s.nodes)
    ensures r.Ok? && FindFolder(s.nodes, name).Some? ==>
      r.value == Resolution(s, s.nodes[FindFolder(s.nodes, name).value].id)
    ensures r.Ok? && FindFolder(s.nodes, name).None? ==>
      r.value == Resolution(Store(s.nodes + [Node(s.nextId, BarId, name, None)], s.nextId + 1), s.nextId)
  {
    if !BarPresent(s.nodes) then Err(NoBar)
    else match FindFolder(s.nodes, name)
      case Some(k) => Ok(Resolution(s, s.nodes[k].id))
      case None => Ok(Resolution(Store(s.nodes + [Node(s.nextId, BarId, name, None)], s.nextId + 1), s.nextId))
  }

  /** After resolution the name denotes a folder in the bar, and that folder is the one returned. */
  lemma ResolvedFolderFound(s: Store, name: string)
    requires ResolveFolder(s, name).Ok?
    ensures var res := ResolveFolder(s, name).value;
      && FindFolder(res.store.nodes, name).Some?
      && res.store.nodes[FindFolder(res.store.nodes, name).value].id == res.folderId
  {
    var res := ResolveFolder(s, name).value;
    if FindFolder(s.nodes, name).None? {
      assert forall i :: 0 <= i < |s.nodes| ==> res.store.nodes[i] == s.nodes[i];
      assert NamedFolder(res.store.nodes[|s.nodes|], name);
    }
  }

  /** A second resolution of the same name returns the same folder and adds no node. */
  lemma ResolveFolderIdempotent(s: Store, name: string)
    requires ResolveFolder(s, name).Ok?
    ensures var res := ResolveFolder(s, name).value;
      ResolveFolder(res.store, name) == Ok(res)
  {
    var res := ResolveFolder(s, name).value;
    ResolvedFolderFound(s, name);
    var w :| 0 <= w < |s.nodes| && s.nodes[w].id == BarId && s.nodes[w].parentId == RootId && IsFolder(s.nodes[w]);
    assert res.store.nodes[w] == s.nodes[w];
  }

  /** Resolution keeps the store well formed. */
  lemma ResolveFolderWellFormed(s: Store, name: string)
    requires WellFormed(s) && ResolveFolder(s, name).Ok?
    ensures WellFormed(ResolveFolder(s, name).value.store)
  {
  }

  // ---------------------------------------------------------------------------
  // The store as mutable state

  /** `after` and `r` are what applying `change` to `before` leaves and returns: the changed
      store and its node on success, the unchanged store and the error on failure. */
  predicate Applied(before: Store, change: Result<Change>, r: Result<Node>, after: Store) {
    match change
    case Ok(c) => r == Ok(c.node) && after == c.store
    case Err(e) => r == Err(e) && after == before
  }

  /** The bookmark store as the browser keeps it. */
  class BookmarkStore {
    var nodes: seq<Node>
    var nextId: nat

    function State(): Store
      reads this
    {
      Store(nodes, nextId)
    }

    predicate Valid()
      reads this
    {
      WellFormed(State())
    }

    constructor(initial: Store)
      requires WellFormed(initial)
      ensures State() == initial && Valid()
    {
      nodes := initial.nodes;
      nextId := initial.nextId;
    }

    method Create(parentId: nat, title: string, url: Option<string>) returns (r: Result<Node>)
      requires Valid()
      modifies this
      ensures Valid()
      ensures Applied(old(State()), CreateIn(old(State()), parentId, title, url), r, State())
    {
      var p := IndexOf(nodes, parentId);
      if p.None? {
        return Err(ParentNotFound);
      }
      if !IsFolder(nodes[p.value]) {
        return Err(ParentNotFolder);
      }
      var node := Node(nextId, parentId, title, url);
      nodes := nodes + [node];
      nextId := nextId + 1;
      r := Ok(node);
    }

    method Move(id: nat, parentId: nat) returns (r: Result<Node>)
      requires Valid()
      modifies this
      ensures Valid()
      ensures Applied(old(State()), MoveIn(old(State()), id, parentId), r, State())
    {
      var e := MoveError(nodes, id, parentId);
      if e.Some? {
        return Err(e.value);
      }
      MoveWellFormed(State(), id, parentId);
      var k := IndexOf(nodes, id).value;
      var moved := nodes[k].(parentId := parentId);
      nodes := nodes[..k] + nodes[k + 1..] + [moved];
      r := Ok(moved);
    }

    method Update(id: nat, title: string, url: Option<string>) returns (r: Result<Node>)
      requires Valid()
      modifies this
      ensures Valid()
      ensures Applied(old(State()), UpdateIn(old(State()), id, title, url), r, State())
    {
      var p := IndexOf(nodes, id);
      if p.None? {
        return Err(NotFound);
      }
      var n := nodes[p.value];
      if n.parentId == RootId {
        return Err(PermanentNode);
      }
      if Truthy(url) && IsFolder(n) {
        return Err(FolderUrl);
      }
      UpdateWellFormed(State(), id, title, url);
      var updated := n.(title := title, url := if Truthy(url) then url else n.url);
      nodes := nodes[p.value := updated];
      r := Ok(updated);
    }

    /** `chrome.bookmarks.search({ url })`. */
    method Search(url: string) returns (results: seq<Node>)
      ensures results == SearchUrl(nodes, url)
    {
      results := SearchUrl(nodes, url);
    }
  }

  /** `createOrGetFolder(folderName)`. */
  method CreateOrGetFolder(store: BookmarkStore, folderName: string) returns (r: Result<nat>)
    requires store.Valid()
    modifies store
    ensures store.Valid()
    ensures match ResolveFolder(old(store.State()), folderName)
      case Ok(res) => r == Ok(res.folderId) && store.State() == res.store
      case Err(e) => r == Err(e) && store.State() == old(store.State())
  {
    if !BarPresent(store.nodes) {
      return Err(NoBar);
    }
    var existing := FindFolder(store.nodes, folderName);
    if existing.Some? {
      return Ok(store.nodes[existing.value].id);
    }
    var w :| 0 <= w < |store.nodes| && store.nodes[w].id == BarId && store.nodes[w].parentId == RootId && IsFolder(store.nodes[w]);
    IndexOfUnique(store.nodes, store.nextId, w);
    var folder := store.Create(BarId, folderName, None);
    return Ok(folder.value.id);
  }

  /** `moveBookmark(bookmarkId, folderId)`. */
  method MoveBookmark(store: BookmarkStore, bookmarkId: nat, folderId: nat) returns (r: Result<Node>)
    requires store.Valid()
    modifies store
    ensures store.Valid()
    ensures Applied(old(store.State()), MoveIn(old(store.State()), bookmarkId, folderId), r, store.State())
  {
    r := store.Move(bookmarkId, folderId);
  }
}
