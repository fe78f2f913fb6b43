/**
 * What the chart does with d3's tree layout: the layout itself is an input
 * (`buildTree`), and this module keeps what `updateDataList` and `draw` do
 * with its node and link lists — dropping the synthetic root, and appending
 * the special links a dataset declares.
 */
module Layout {
  import opened Wrappers
  import opened Sequences
  import opened TreeData

  /** Per-node width and height and per-level spacing (`treeConfig`). */
  datatype TreeConfig = TreeConfig(nodeWidth: real, nodeHeight: real, levelHeight: real)

  /**
   * One node of the layout: its data object, the child indices that lead to
   * that object from the dataset's root (the object reference d3 keeps in
   * `.data`), the node's own `value` attribute, and its position.
   */
  datatype HNode = HNode(data: Datum, path: seq<nat>, value: Option<Value>, x: real, y: real)

  /** A `{source, target}` link between two laid-out nodes. */
  datatype Link = Link(source: HNode, target: HNode)

  /** What `buildTree` returns: `tree.descendants()` and `tree.links()`. */
  datatype Tree = Tree(nodes: seq<HNode>, links: seq<Link>)

  /** The node list after `splice(0, 1)`: every node but the first. */
  function DropRoot(nodes: seq<HNode>): (r: seq<HNode>)
    ensures nodes == [] ==> r == []
    ensures nodes != [] ==> |r| == |nodes| - 1 && forall k :: 0 <= k < |r| ==> r[k] == nodes[k + 1]
  {
    if nodes == [] then [] else nodes[1..]
  }

  predicate FromShownNode(l: Link)
  {
    l.source.data.name != InvisibleRoot
  }

  /** The link list after `updateDataList`'s filter. */
  function VisibleLinks(links: seq<Link>): (r: seq<Link>)
    ensures |r| <= |links|
    ensures forall i :: 0 <= i < |r| ==> r[i] in links && r[i].source.data.name != InvisibleRoot
    ensures forall i :: 0 <= i < |links| && links[i].source.data.name != InvisibleRoot ==> links[i] in r
  {
    Filter(FromShownNode, links)
  }

  /**
   * `updateDataList` keeps exactly the links whose source is not named
   * `"__invisible_root"`, in their original relative order.
   */
  lemma VisibleLinksSpec(links: seq<Link>, more: seq<Link>)
    ensures forall l :: l in VisibleLinks(links) ==> l in links && l.source.data.name != InvisibleRoot
    ensures forall l :: l in links && l.source.data.name != InvisibleRoot ==> l in VisibleLinks(links)
    ensures VisibleLinks(links + more) == VisibleLinks(links) + VisibleLinks(more)
  {
    FilterAppend(FromShownNode, links, more);
    forall l | l in VisibleLinks(links)
      ensures l in links && l.source.data.name != InvisibleRoot
    {
      var i :| 0 <= i < |VisibleLinks(links)| && VisibleLinks(links)[i] == l;
    }
    forall l | l in links && l.source.data.name != InvisibleRoot
      ensures l in VisibleLinks(links)
    {
      var i :| 0 <= i < |links| && links[i] == l;
    }
  }

  /**
   * When d3 lists the root first and gives every data object one node, the
   * synthetic root is not among the nodes `updateDataList` keeps, and no kept
   * link starts at a node named `"__invisible_root"`.
   */
  lemma RootNeverLeaks(t: Tree)
    requires t.nodes != [] && t.nodes[0].path == []
    requires forall i, j :: 0 <= i < j < |t.nodes| ==> t.nodes[i].path != t.nodes[j].path
    ensures |DropRoot(t.nodes)| == |t.nodes| - 1
    ensures forall k :: 0 <= k < |DropRoot(t.nodes)| ==> DropRoot(t.nodes)[k] == t.nodes[k + 1] && DropRoot(t.nodes)[k].path != []
    ensures forall l :: l in VisibleLinks(t.links) ==> l.source.data.name != InvisibleRoot
  {
    VisibleLinksSpec(t.links, []);
  }

  // ----------------------------------------------------------- special links

  /**
   * The attribute a special-link declaration is matched on: the node's own
   * `value` when `identifier` is `"value"`, otherwise its data's attribute.
   */
  function Key(n: HNode, identifier: string): (r: Option<Value>)
    ensures identifier == "value" ==> r == n.value
    ensures identifier == "name" ==> r == Some(Text(n.data.name))
    ensures identifier != "value" && identifier != "name" ==>
      (r.Some? <==> identifier in n.data.fields) && (r.Some? ==> r.value == n.data.fields[identifier])
  {
    if identifier == "value" then n.value else Field(n.data, identifier)
  }

  predicate Matches(n: HNode, identifier: string, v: Value)
  {
    Key(n, identifier) == Some(v)
  }

  /** `nodes.find(...)`: the position of the first node matching `v`, if any. */
  function Find(nodes: seq<HNode>, identifier: string, v: Value): (r: Option<nat>)
    ensures r.Some? ==> r.value < |nodes| && Matches(nodes[r.value], identifier, v)
    ensures r.Some? ==> forall j :: 0 <= j < r.value ==> !Matches(nodes[j], identifier, v)
    ensures r.None? ==> forall j :: 0 <= j < |nodes| ==> !Matches(nodes[j], identifier, v)
  {
    if nodes == [] then None
    else if Matches(nodes[0], identifier, v) then Some(0)
    else match Find(nodes[1..], identifier, v)
      case None => None
      case Some(k) => Some(k + 1)
  }

  /** `nodes.filter(...)`: every node matching `v`, in node-list order. */
  function MatchingNodes(nodes: seq<HNode>, identifier: string, v: Value): (r: seq<HNode>)
    ensures |r| <= |nodes|
    ensures forall i :: 0 <= i < |r| ==> r[i] in nodes && Matches(r[i], identifier, v)
    ensures forall i :: 0 <= i < |nodes| && Matches(nodes[i], identifier, v) ==> nodes[i] in r
  {
    Filter(n => Matches(n, identifier, v), nodes)
  }

  /** One link from `parent` to each of `children`, in order. */
  function FanOut(parent: HNode, children: seq<HNode>): seq<Link>
  {
    seq(|children|, k requires 0 <= k < |children| => Link(parent, children[k]))
  }

  /** The links one declaration contributes: none when no node matches its parent. */
  function LinksFor(nodes: seq<HNode>, identifier: string, d: LinkDecl): (r: seq<Link>)
    ensures Find(nodes, identifier, d.parent).None? ==> r == []
    ensures |r| <= |nodes|
    ensures forall i :: 0 <= i < |r| ==>
      r[i].source == nodes[Find(nodes, identifier, d.parent).value] &&
      r[i].target in nodes && Matches(r[i].target, identifier, d.child)
  {
    match Find(nodes, identifier, d.parent)
    case None => []
    case Some(k) => FanOut(nodes[k], MatchingNodes(nodes, identifier, d.child))
  }

  /** The links a list of declarations contributes, declaration by declaration. */
  function SpecialLinks(nodes: seq<HNode>, identifier: string, decls: seq<LinkDecl>): (r: seq<Link>)
    ensures |r| <= |decls| * |nodes|
    ensures forall i :: 0 <= i < |r| ==> r[i].source in nodes && r[i].target in nodes
  {
    if decls == [] then []
    else
      var first, rest := LinksFor(nodes, identifier, decls[0]), SpecialLinks(nodes, identifier, decls[1..]);
      assert |decls| * |nodes| == |nodes| + |decls[1..]| * |nodes| by {
        MultiplyStep(|decls[1..]|, |nodes|);
      }
      assert forall i :: 0 <= i < |first + rest| ==> (first + rest)[i] in first || (first + rest)[i] in rest;
      first + rest
  }

  lemma MultiplyStep(a: nat, b: nat)
    ensures (a + 1) * b == b + a * b
  {
  }

  /** `l` is a link declaration `d` gives rise to: from the first node matching its parent to a node matching its child. */
  predicate Resolves(nodes: seq<HNode>, identifier: string, d: LinkDecl, l: Link)
  {
    match Find(nodes, identifier, d.parent)
    case None => false
    case Some(k) => l.source == nodes[k] && l.target in nodes && Matches(l.target, identifier, d.child)
  }

  lemma LinksForIff(nodes: seq<HNode>, identifier: string, d: LinkDecl, l: Link)
    ensures l in LinksFor(nodes, identifier, d) <==> Resolves(nodes, identifier, d, l)
  {
    var children := MatchingNodes(nodes, identifier, d.child);
    if l in LinksFor(nodes, identifier, d) {
      var i :| 0 <= i < |LinksFor(nodes, identifier, d)| && LinksFor(nodes, identifier, d)[i] == l;
      assert l.target == children[i];
    }
    if Resolves(nodes, identifier, d, l) {
      var j :| 0 <= j < |nodes| && nodes[j] == l.target;
      var i :| 0 <= i < |children| && children[i] == l.target;
      assert LinksFor(nodes, identifier, d)[i] == l;
    }
  }

  /**
   * The special links are exactly the links some declaration gives rise to:
   * each runs from the first node matching a declared parent to a node
   * matching that declaration's child, and every such pair is present.
   */
  lemma {:induction false} SpecialLinksIff(nodes: seq<HNode>, identifier: string, decls: seq<LinkDecl>, l: Link)
    ensures l in SpecialLinks(nodes, identifier, decls) <==>
      exists d :: d in decls && Resolves(nodes, identifier, d, l)
    decreases |decls|
  {
    if decls != [] {
      var first, rest := decls[0], decls[1..];
      assert decls == [first] + rest;
      SpecialLinksIff(nodes, identifier, rest, l);
      LinksForIff(nodes, identifier, first, l);
      if Resolves(nodes, identifier, first, l) {
        assert first in decls;
      }
      if d :| d in rest && Resolves(nodes, identifier, d, l) {
        assert d in decls;
      }
      if d :| d in decls && Resolves(nodes, identifier, d, l) {
        assert d == first || d in rest;
      }
    }
  }

  /** Declarations are resolved in order: the links of later declarations follow those of earlier ones. */
  lemma {:induction false} SpecialLinksAppend(nodes: seq<HNode>, identifier: string, a: seq<LinkDecl>, b: seq<LinkDecl>)
    ensures SpecialLinks(nodes, identifier, a + b) == SpecialLinks(nodes, identifier, a) + SpecialLinks(nodes, identifier, b)
    decreases |a|
  {
    if a == [] {
      assert a + b == b;
    } else {
      assert (a + b)[0] == a[0];
      assert (a + b)[1..] == a[1..] + b;
      SpecialLinksAppend(nodes, identifier, a[1..], b);
    }
  }

  /** One more child adds one link after the others. */
  lemma FanOutStep(parent: HNode, children: seq<HNode>, j: nat)
    requires j < |children|
    ensures FanOut(parent, children[..j + 1]) == FanOut(parent, children[..j]) + [Link(parent, children[j])]
  {
  }

  /** Resolving one more declaration appends its links after those already resolved. */
  lemma SpecialLinksStep(nodes: seq<HNode>, identifier: string, decls: seq<LinkDecl>, i: nat)
    requires i < |decls|
    ensures SpecialLinks(nodes, identifier, decls[..i + 1]) ==
      SpecialLinks(nodes, identifier, decls[..i]) + LinksFor(nodes, identifier, decls[i])
  {
    assert decls[..i + 1] == decls[..i] + [decls[i]];
    SpecialLinksAppend(nodes, identifier, decls[..i], [decls[i]]);
    assert [decls[i]][1..] == [];
  }

  /** The loop step of resolving declarations: appending one declaration's links to those of the first `i` gives those of the first `i + 1`. */
  lemma ResolvedOneMore(nodes: seq<HNode>, identifier: string, decls: seq<LinkDecl>, i: nat, start: seq<Link>)
    requires i < |decls|
    ensures (start + SpecialLinks(nodes, identifier, decls[..i])) + LinksFor(nodes, identifier, decls[i]) ==
      start + SpecialLinks(nodes, identifier, decls[..i + 1])
  {
    SpecialLinksStep(nodes, identifier, decls, i);
    AppendAssociative(start, SpecialLinks(nodes, identifier, decls[..i]), LinksFor(nodes, identifier, decls[i]));
  }

  /** A declaration whose parent matches no node contributes nothing. */
  lemma UnmatchedParentContributesNothing(nodes: seq<HNode>, identifier: string, d: LinkDecl)
    requires forall j :: 0 <= j < |nodes| ==> !Matches(nodes[j], identifier, d.parent)
    ensures SpecialLinks(nodes, identifier, [d]) == []
  {
    assert [d][1..] == [];
  }
}
