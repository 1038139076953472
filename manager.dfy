/** The bookmark manager page of manager/main.js: the command-line style tree, the folder
    picker of the edit dialog, the search filter and the save decision of the edit dialog. */
module Manager {
  import opened Util
  import opened Text
  import Bookmarks

  const LastConnector := "└── "
  const MiddleConnector := "├── "
  const LastIndent := "    "
  const MiddleIndent := "│   "
  /** Pixels of indentation per folder level in the folder picker. */
  const IndentStep: nat := 20
  const RootLabel := "Root"

  /** A node of `chrome.bookmarks.getTree`. A folder carries its children; a node without
      a `children` array is given none, which the traversals treat alike. */
  datatype TreeNode = TreeNode(id: nat, parentId: nat, title: string, url: Option<string>,
                               children: seq<TreeNode>)

  predicate IsFolder(n: TreeNode) {
    !Truthy(n.url)
  }

  // ---------------------------------------------------------------------------
  // The command-line tree

  /** One rendered line: the inherited indentation, the connector, and the data the line
      keeps for the context menu and the search. */
  datatype Line = Line(indent: string, connector: string, id: nat, title: string, url: string,
                       parentId: nat, isFolder: bool)

  /** The prefix the children of a node inherit. */
  function ChildPrefix(prefix: string, isLast: bool): (r: string)
    ensures |r| == |prefix| + 4 && prefix <= r
  {
    prefix + (if isLast then LastIndent else MiddleIndent)
  }

  /** The line of one node. */
  function LineOf(node: TreeNode, isLast: bool, prefix: string): Line {
    Line(prefix, if isLast then LastConnector else MiddleConnector, node.id, node.title,
         Or(node.url, ""), node.parentId, IsFolder(node))
  }

  /** `traverseBookmarksCLI(nodes, prefix)` from the `i`-th sibling on: each node's line,
      then (for a folder with children) its subtree, in pre-order. */
  function RenderSiblings(nodes: seq<TreeNode>, i: nat, prefix: string): seq<Line>
    decreases nodes, |nodes| - i
  {
    if i >= |nodes| then []
    else RenderNode(nodes[i], i == |nodes| - 1, prefix) + RenderSiblings(nodes, i + 1, prefix)
  }

  /** A node's line followed by its subtree. */
  function RenderNode(node: TreeNode, isLast: bool, prefix: string): (r: seq<Line>)
    decreases node, 0
    ensures |r| >= 1 && r[0] == LineOf(node, isLast, prefix)
    ensures !IsFolder(node) ==> |r| == 1
  {
    [LineOf(node, isLast, prefix)]
      + (if IsFolder(node) then RenderSiblings(node.children, 0, ChildPrefix(prefix, isLast)) else [])
  }

  /** The ids of the siblings from the `i`-th on and of the folders' descendants, in
      pre-order: the order in which the tree lists its nodes. */
  function PreOrderIds(nodes: seq<TreeNode>, i: nat): seq<nat>
    decreases nodes, |nodes| - i
  {
    if i >= |nodes| then [] else NodeIds(nodes[i]) + PreOrderIds(nodes, i + 1)
  }

  function NodeIds(node: TreeNode): seq<nat>
    decreases node, 0
  {
    [node.id] + (if IsFolder(node) then PreOrderIds(node.children, 0) else [])
  }

  /** Every node yields exactly one line, and the lines come in pre-order. */
  lemma {:induction false} SiblingLines(nodes: seq<TreeNode>, i: nat, prefix: string)
    ensures |RenderSiblings(nodes, i, prefix)| == |PreOrderIds(nodes, i)|
    ensures forall k :: 0 <= k < |RenderSiblings(nodes, i, prefix)| ==>
      RenderSiblings(nodes, i, prefix)[k].id == PreOrderIds(nodes, i)[k]
    decreases nodes, |nodes| - i
  {
    if i < |nodes| {
      NodeLines(nodes[i], i == |nodes| - 1, prefix);
      SiblingLines(nodes, i + 1, prefix);
      var a := RenderNode(nodes[i], i == |nodes| - 1, prefix);
      var b := RenderSiblings(nodes, i + 1, prefix);
      var ia := NodeIds(nodes[i]);
      var ib := PreOrderIds(nodes, i + 1);
      assert RenderSiblings(nodes, i, prefix) == a + b;
      assert PreOrderIds(nodes, i) == ia + ib;
      var r: seq<Line> := a + b;
      var ids: seq<nat> := ia + ib;
      forall k | 0 <= k < |r| ensures r[k].id == ids[k] {
        if k < |a| {
          assert r[k] == a[k] && ids[k] == ia[k];
        } else {
          assert r[k] == b[k - |a|] && ids[k] == ib[k - |a|];
        }
      }
    }
  }

  lemma {:induction false} NodeLines(node: TreeNode, isLast: bool, prefix: string)
    ensures |RenderNode(node, isLast, prefix)| == |NodeIds(node)|
    ensures forall k :: 0 <= k < |RenderNode(node, isLast, prefix)| ==>
      RenderNode(node, isLast, prefix)[k].id == NodeIds(node)[k]
    decreases node, 0
  {
    if IsFolder(node) {
      var child := ChildPrefix(prefix, isLast);
      var rest := RenderSiblings(node.children, 0, child);
      var ids := PreOrderIds(node.children, 0);
      SiblingLines(node.children, 0, child);
      assert RenderNode(node, isLast, prefix) == [LineOf(node, isLast, prefix)] + rest;
      assert NodeIds(node) == [node.id] + ids;
    }
  }

  /** The tree holds at least one node per sibling, so there are at least that many lines. */
  lemma {:induction false} AtLeastOneLineEach(nodes: seq<TreeNode>, i: nat)
    ensures |PreOrderIds(nodes, i)| >= |nodes| - i
    decreases |nodes| - i
  {
    if i < |nodes| {
      AtLeastOneLineEach(nodes, i + 1);
    }
  }

  /** The nesting depth of each rendered line, in rendering order: `depth` for the siblings
      themselves and one more for each folder level below them. */
  function SiblingDepths(nodes: seq<TreeNode>, i: nat, depth: nat): seq<nat>
    decreases nodes, |nodes| - i
  {
    if i >= |nodes| then [] else NodeDepths(nodes[i], depth) + SiblingDepths(nodes, i + 1, depth)
  }

  function NodeDepths(node: TreeNode, depth: nat): seq<nat>
    decreases node, 0
  {
    [depth] + (if IsFolder(node) then SiblingDepths(node.children, 0, depth + 1) else [])
  }

  /** Every line below a prefix extends it, and its indentation is four characters longer
      per level it lies below the prefix's level. */
  lemma {:induction false} IndentsExtend(nodes: seq<TreeNode>, i: nat, prefix: string, depth: nat)
    ensures |RenderSiblings(nodes, i, prefix)| == |SiblingDepths(nodes, i, depth)|
    ensures forall k :: 0 <= k < |RenderSiblings(nodes, i, prefix)| ==>
      prefix <= RenderSiblings(nodes, i, prefix)[k].indent
      && |RenderSiblings(nodes, i, prefix)[k].indent| + 4 * depth == |prefix| + 4 * SiblingDepths(nodes, i, depth)[k]
    decreases nodes, |nodes| - i
  {
    if i < |nodes| {
      IndentsExtendNode(nodes[i], i == |nodes| - 1, prefix, depth);
      IndentsExtend(nodes, i + 1, prefix, depth);
      var a := RenderNode(nodes[i], i == |nodes| - 1, prefix);
      var b := RenderSiblings(nodes, i + 1, prefix);
      var da := NodeDepths(nodes[i], depth);
      var db := SiblingDepths(nodes, i + 1, depth);
      assert RenderSiblings(nodes, i, prefix) == a + b;
      assert SiblingDepths(nodes, i, depth) == da + db;
      var r: seq<Line> := a + b;
      var d: seq<nat> := da + db;
      forall k | 0 <= k < |r|
        ensures prefix <= r[k].indent && |r[k].indent| + 4 * depth == |prefix| + 4 * d[k]
      {
        if k < |a| {
          assert r[k] == a[k] && d[k] == da[k];
        } else {
          assert r[k] == b[k - |a|] && d[k] == db[k - |a|];
        }
      }
    }
  }

  lemma {:induction false} IndentsExtendNode(node: TreeNode, isLast: bool, prefix: string, depth: nat)
    ensures |RenderNode(node, isLast, prefix)| == |NodeDepths(node, depth)|
    ensures forall k :: 0 <= k < |RenderNode(node, isLast, prefix)| ==>
      prefix <= RenderNode(node, isLast, prefix)[k].indent
      && |RenderNode(node, isLast, prefix)[k].indent| + 4 * depth == |prefix| + 4 * NodeDepths(node, depth)[k]
    decreases node, 0
  {
    var r := RenderNode(node, isLast, prefix);
    var d := NodeDepths(node, depth);
    if IsFolder(node) {
      var child := ChildPrefix(prefix, isLast);
      var rest := RenderSiblings(node.children, 0, child);
      var drest := SiblingDepths(node.children, 0, depth + 1);
      IndentsExtend(node.children, 0, child, depth + 1);
      assert r == [LineOf(node, isLast, prefix)] + rest;
      assert d == [depth] + drest;
      forall k | 0 <= k < |r|
        ensures prefix <= r[k].indent && |r[k].indent| + 4 * depth == |prefix| + 4 * d[k]
      {
        if k > 0 {
          assert r[k] == rest[k - 1] && d[k] == drest[k - 1];
          assert prefix <= child <= r[k].indent;
        }
      }
    }
  }

  /** The tree's top level starts with no indentation, so a line's indentation is four
      characters per level of depth. */
  lemma TopLevelIndents(nodes: seq<TreeNode>)
    ensures |RenderSiblings(nodes, 0, "")| == |SiblingDepths(nodes, 0, 0)|
    ensures forall k :: 0 <= k < |RenderSiblings(nodes, 0, "")| ==>
      |RenderSiblings(nodes, 0, "")[k].indent| == 4 * SiblingDepths(nodes, 0, 0)[k]
  {
    IndentsExtend(nodes, 0, "", 0);
  }

  /** The rendered lines, as the page's line container holds them. */
  class LineContainer {
    var lines: seq<Line>

    constructor()
      ensures lines == []
    {
      lines := [];
    }
  }

  /** `traverseBookmarksCLI(nodes, prefix, container)`: appends the rendering of the siblings. */
  method TraverseBookmarksCli(nodes: seq<TreeNode>, prefix: string, container: LineContainer)
    modifies container
    ensures container.lines == old(container.lines) + RenderSiblings(nodes, 0, prefix)
    decreases nodes
  {
    var i := 0;
    while i < |nodes|
      invariant 0 <= i <= |nodes|
      invariant container.lines + RenderSiblings(nodes, i, prefix) == old(container.lines) + RenderSiblings(nodes, 0, prefix)
    {
      var node := nodes[i];
      var isLast := i == |nodes| - 1;
      ghost var before := container.lines;
      container.lines := container.lines + [LineOf(node, isLast, prefix)];
      if IsFolder(node) {
        ghost var mid := container.lines;
        TraverseBookmarksCli(node.children, ChildPrefix(prefix, isLast), container);
        ConcatAssoc(before, [LineOf(node, isLast, prefix)], RenderSiblings(node.children, 0, ChildPrefix(prefix, isLast)));
      } else {
        assert RenderNode(node, isLast, prefix) == [LineOf(node, isLast, prefix)];
      }
      assert container.lines == before + RenderNode(node, isLast, prefix);
      ConcatAssoc(before, RenderNode(node, isLast, prefix), RenderSiblings(nodes, i + 1, prefix));
      i := i + 1;
    }
  }

  // ---------------------------------------------------------------------------
  // The folder picker

  /** One entry of the folder picker. */
  datatype FolderOption = FolderOption(id: nat, indent: nat, caption: string, selected: bool)

  /** `traverseFolders(nodes, depth, currentParentId)` from the `i`-th sibling on. */
  function FolderSiblings(nodes: seq<TreeNode>, i: nat, depth: nat, current: nat): seq<FolderOption>
    decreases nodes, |nodes| - i
  {
    if i >= |nodes| then [] else FolderNode(nodes[i], depth, current) + FolderSiblings(nodes, i + 1, depth, current)
  }

  /** One node of the picker: a folder is listed (indented by depth, labelled by title or
      `Root`, selected when it is the current parent) and then its children one level deeper;
      a bookmark and everything below it is skipped. */
  function FolderNode(node: TreeNode, depth: nat, current: nat): (r: seq<FolderOption>)
    decreases node, 0
    ensures !IsFolder(node) ==> r == []
    ensures IsFolder(node) ==> |r| >= 1 && r[0].id == node.id && r[0].indent == depth * IndentStep
  {
    if IsFolder(node) then
      [FolderOption(node.id, depth * IndentStep, Or(Some(node.title), RootLabel), node.id == current)]
        + FolderSiblings(node.children, 0, depth + 1, current)
    else []
  }

  /** An option listed at `depth` or below: indented by a whole number of steps, at least
      `depth` of them, and selected exactly when it is the current parent. */
  predicate Shaped(o: FolderOption, depth: nat, current: nat) {
    o.indent >= depth * IndentStep && o.indent % IndentStep == 0 && (o.selected <==> o.id == current)
  }

  lemma {:induction false} FolderSiblingsShape(nodes: seq<TreeNode>, i: nat, depth: nat, current: nat)
    ensures forall k :: 0 <= k < |FolderSiblings(nodes, i, depth, current)| ==>
      Shaped(FolderSiblings(nodes, i, depth, current)[k], depth, current)
    decreases nodes, |nodes| - i
  {
    if i < |nodes| {
      FolderNodeShape(nodes[i], depth, current);
      FolderSiblingsShape(nodes, i + 1, depth, current);
      var a := FolderNode(nodes[i], depth, current);
      var b := FolderSiblings(nodes, i + 1, depth, current);
      var r: seq<FolderOption> := a + b;
      assert FolderSiblings(nodes, i, depth, current) == r;
      forall k | 0 <= k < |r| ensures Shaped(r[k], depth, current) {
        if k < |a| { assert r[k] == a[k]; } else { assert r[k] == b[k - |a|]; }
      }
    }
  }

  /** Every option of the picker has the shape above, from the top level down. */
  lemma {:induction false} FolderNodeShape(node: TreeNode, depth: nat, current: nat)
    ensures forall k :: 0 <= k < |FolderNode(node, depth, current)| ==>
      Shaped(FolderNode(node, depth, current)[k], depth, current)
    decreases node, 0
  {
    if IsFolder(node) {
      var rest := FolderSiblings(node.children, 0, depth + 1, current);
      FolderSiblingsShape(node.children, 0, depth + 1, current);
      var r := FolderNode(node, depth, current);
      assert (depth * IndentStep) % IndentStep == 0;
      forall k | 0 <= k < |r| ensures Shaped(r[k], depth, current) {
        if k > 0 {
          assert r[k] == rest[k - 1];
          assert Shaped(rest[k - 1], depth + 1, current);
        }
      }
    }
  }

  /** The picker as the page builds it. */
  class FolderSelector {
    var options: seq<FolderOption>

    constructor()
      ensures options == []
    {
      options := [];
    }
  }

  /** `traverseFolders(nodes, depth, container, currentParentId)`. */
  method TraverseFolders(nodes: seq<TreeNode>, depth: nat, container: FolderSelector, current: nat)
    modifies container
    ensures container.options == old(container.options) + FolderSiblings(nodes, 0, depth, current)
    decreases nodes
  {
    var i := 0;
    while i < |nodes|
      invariant 0 <= i <= |nodes|
      invariant container.options + FolderSiblings(nodes, i, depth, current)
        == old(container.options) + FolderSiblings(nodes, 0, depth, current)
    {
      var node := nodes[i];
      ghost var before := container.options;
      if IsFolder(node) {
        container.options := container.options
          + [FolderOption(node.id, depth * IndentStep, Or(Some(node.title), RootLabel), node.id == current)];
        TraverseFolders(node.children, depth + 1, container, current);
      }
      assert container.options == before + FolderNode(node, depth, current);
      assert FolderSiblings(nodes, i, depth, current) == FolderNode(node, depth, current) + FolderSiblings(nodes, i + 1, depth, current);
      i := i + 1;
    }
  }

  // ---------------------------------------------------------------------------
  // Search

  /** Whether a line stays visible for a search query. */
  predicate Visible(line: Line, query: string) {
    var q := Lower(query);
    q == [] || Contains(Lower(line.title), q) || Contains(Lower(line.url), q)
  }

  /** `handleSearch`: each line is shown or hidden by the query; `shown[k]` is the visibility
      of `lines[k]`. */
  method HandleSearch(lines: seq<Line>, query: string, shown: array<bool>)
    requires shown.Length == |lines|
    modifies shown
    ensures forall k :: 0 <= k < |lines| ==> shown[k] == Visible(lines[k], query)
  {
    var q := Lower(query);
    if q == [] {
      var j := 0;
      while j < |lines|
        invariant 0 <= j <= |lines|
        invariant forall k :: 0 <= k < j ==> shown[k]
      {
        shown[j] := true;
        j := j + 1;
      }
      return;
    }
    var i := 0;
    while i < |lines|
      invariant 0 <= i <= |lines|
      invariant forall k :: 0 <= k < i ==> shown[k] == Visible(lines[k], query)
    {
      shown[i] := Contains(Lower(lines[i].title), q) || Contains(Lower(lines[i].url), q);
      i := i + 1;
    }
  }

  lemma {:induction false} LowerIdempotent(s: string)
    ensures Lower(Lower(s)) == Lower(s)
    decreases |s|
  {
    if s != [] {
      LowerIdempotent(s[1..]);
      assert Lower(s) == [LowerChar(s[0])] + Lower(s[1..]);
      assert Lower(s)[1..] == Lower(s[1..]);
    }
  }

  /** The filter ignores case in the query: a query and its lower-case form show the same
      lines. */
  lemma SearchIgnoresQueryCase(line: Line, query: string)
    ensures Visible(line, query) == Visible(line, Lower(query))
  {
    LowerIdempotent(query);
  }

  // ---------------------------------------------------------------------------
  // Saving the edit dialog

  /** What `saveEdit` leaves: the store, and whether the dialog was closed. */
  datatype SaveResult = SaveResult(store: Bookmarks.Store, closed: bool)

  /** The store after the first step of `saveEdit`: the update applied, or the store as it
      was when the browser refused it (the callback runs either way). */
  function AfterUpdate(s: Bookmarks.Store, id: nat, title: string, url: string, isFolder: bool): Bookmarks.Store {
    match Bookmarks.UpdateIn(s, id, title, if isFolder then None else Some(url))
    case Ok(u) => u.store
    case Err(_) => s
  }

  /** `saveEdit`: update the title (and the url, for a bookmark); then, whether or not that
      worked, read the node back and move it when its parent differs from the chosen one.
      No callback looks at the browser's error, so a refused move keeps the update and the
      dialog still closes; only a node that cannot be read back (reading `results[0]` of
      nothing throws) leaves the dialog open. The page tells folders by the hidden url
      field. */
  function SaveEdit(s: Bookmarks.Store, id: nat, title: string, url: string, newParentId: nat, isFolder: bool)
    : (r: SaveResult)
    ensures Bookmarks.IndexOf(s.nodes, id).None? ==> r == SaveResult(s, false)
    ensures Bookmarks.IndexOf(s.nodes, id).Some? ==> r.closed
  {
    var updated := AfterUpdate(s, id, title, url, isFolder);
    AfterUpdateKeepsIds(s, id, title, url, isFolder);
    match Bookmarks.IndexOf(updated.nodes, id)
    case None => SaveResult(updated, false)
    case Some(k) =>
      if updated.nodes[k].parentId != newParentId then
        match Bookmarks.MoveIn(updated, id, newParentId)
        case Ok(m) => SaveResult(m.store, true)
        case Err(_) => SaveResult(updated, true)
      else SaveResult(updated, true)
  }

  /** The update step keeps every node's id where it was. */
  lemma AfterUpdateKeepsIds(s: Bookmarks.Store, id: nat, title: string, url: string, isFolder: bool)
    ensures Bookmarks.IndexOf(AfterUpdate(s, id, title, url, isFolder).nodes, id) == Bookmarks.IndexOf(s.nodes, id)
  {
    var s1 := AfterUpdate(s, id, title, url, isFolder);
    if s1 != s {
      SameIdsSameIndex(s.nodes, s1.nodes, id);
    }
  }

  lemma {:induction false} SameIdsSameIndex(a: seq<Bookmarks.Node>, b: seq<Bookmarks.Node>, id: nat)
    requires |a| == |b| && forall i :: 0 <= i < |a| ==> a[i].id == b[i].id
    ensures Bookmarks.IndexOf(a, id) == Bookmarks.IndexOf(b, id)
    decreases |a|
  {
    if a != [] {
      SameIdsSameIndex(a[1..], b[1..], id);
    }
  }

  /** The list without its `k`-th element. */
  function Without(nodes: seq<Bookmarks.Node>, k: nat): seq<Bookmarks.Node>
    requires k < |nodes|
  {
    nodes[..k] + nodes[k + 1..]
  }

  /** A saved edit of an existing node: the title (and, for a bookmark, a non-empty url)
      change unless the browser refuses the update (a permanent folder, or a url for a folder);
      the node moves under the chosen parent when it is elsewhere and the browser allows the
      move, and otherwise stays where it is with the update kept; every other node is left
      as it was, in the same order. */
  lemma SaveEditResult(s: Bookmarks.Store, id: nat, title: string, url: string, newParentId: nat, isFolder: bool)
    requires Bookmarks.WellFormed(s)
    requires Bookmarks.IndexOf(s.nodes, id).Some?
    ensures var r := SaveEdit(s, id, title, url, newParentId, isFolder);
      var k := Bookmarks.IndexOf(s.nodes, id).value;
      var before := s.nodes[k];
      var updated := Bookmarks.UpdateIn(s, id, title, if isFolder then None else Some(url)).Ok?;
      var moves := before.parentId != newParentId
        && Bookmarks.MoveError(AfterUpdate(s, id, title, url, isFolder).nodes, id, newParentId).None?;
      && r.closed
      && (updated <==> before.parentId != Bookmarks.RootId && (isFolder || url == "" || !Bookmarks.IsFolder(before)))
      && |r.store.nodes| == |s.nodes|
      && Bookmarks.IndexOf(r.store.nodes, id).Some?
      && (var j := Bookmarks.IndexOf(r.store.nodes, id).value;
          var n := r.store.nodes[j];
          && n.title == (if updated then title else before.title)
          && n.url == (if updated && !isFolder && url != "" then Some(url) else before.url)
          && n.parentId == (if moves then newParentId else before.parentId)
          && (if moves then j == |s.nodes| - 1 else j == k)
          && Without(r.store.nodes, j) == Without(s.nodes, k))
  {
    var k := Bookmarks.IndexOf(s.nodes, id).value;
    var s1 := AfterUpdate(s, id, title, url, isFolder);
    UpdateKeepsOthers(s, id, title, url, isFolder);
    if s1.nodes[k].parentId != newParentId {
      MoveKeepsOthers(s1, k, id, newParentId);
    }
  }

  /** The update step changes at most the node's title and url, in place. */
  lemma UpdateKeepsOthers(s: Bookmarks.Store, id: nat, title: string, url: string, isFolder: bool)
    requires Bookmarks.WellFormed(s) && Bookmarks.IndexOf(s.nodes, id).Some?
    ensures var k := Bookmarks.IndexOf(s.nodes, id).value;
      var s1 := AfterUpdate(s, id, title, url, isFolder);
      var updated := Bookmarks.UpdateIn(s, id, title, if isFolder then None else Some(url)).Ok?;
      && Bookmarks.WellFormed(s1) && |s1.nodes| == |s.nodes|
      && Bookmarks.IndexOf(s1.nodes, id) == Some(k)
      && (updated <==> s.nodes[k].parentId != Bookmarks.RootId && (isFolder || url == "" || !Bookmarks.IsFolder(s.nodes[k])))
      && s1.nodes[k] == (if updated then s.nodes[k].(title := title, url := if isFolder || url == "" then s.nodes[k].url else Some(url))
                         else s.nodes[k])
      && Without(s1.nodes, k) == Without(s.nodes, k)
  {
    var k := Bookmarks.IndexOf(s.nodes, id).value;
    var s1 := AfterUpdate(s, id, title, url, isFolder);
    if Bookmarks.UpdateIn(s, id, title, if isFolder then None else Some(url)).Ok? {
      Bookmarks.UpdateWellFormed(s, id, title, if isFolder then None else Some(url));
      Bookmarks.IndexOfUnique(s1.nodes, s1.nextId, k);
      assert s1.nodes[..k] == s.nodes[..k] && s1.nodes[k + 1..] == s.nodes[k + 1..];
    }
  }

  /** The move step puts the node last when the browser allows it, and changes nothing
      otherwise; the other nodes keep their order. */
  lemma MoveKeepsOthers(s1: Bookmarks.Store, k: nat, id: nat, newParentId: nat)
    requires Bookmarks.WellFormed(s1) && Bookmarks.IndexOf(s1.nodes, id) == Some(k)
    ensures var r := match Bookmarks.MoveIn(s1, id, newParentId) case Ok(m) => m.store case Err(_) => s1;
      var last := |s1.nodes| - 1;
      && |r.nodes| == |s1.nodes|
      && (Bookmarks.MoveError(s1.nodes, id, newParentId).None? ==>
            Bookmarks.IndexOf(r.nodes, id) == Some(last) && r.nodes[last] == s1.nodes[k].(parentId := newParentId)
            && Without(r.nodes, last) == Without(s1.nodes, k))
      && (Bookmarks.MoveError(s1.nodes, id, newParentId).Some? ==> r == s1)
  {
    if Bookmarks.MoveError(s1.nodes, id, newParentId).None? {
      var m := Bookmarks.MoveIn(s1, id, newParentId).value.store;
      Bookmarks.MoveWellFormed(s1, id, newParentId);
      Bookmarks.IndexOfUnique(m.nodes, m.nextId, |m.nodes| - 1);
      assert m.nodes[|m.nodes| - 1 + 1..] == [];
    }
  }
}
