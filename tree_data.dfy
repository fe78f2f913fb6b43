/**
 * The dataset a chart draws: the caller's nested nodes, the synthetic root
 * `updatedInternalData` wraps them in, and the collapse/expand swap that
 * `onClickNode` performs on one node of that tree.
 *
 * The dataset is a value: `deepCopy` of a value is the value itself, so the
 * chart never shares a node with its caller.
 */
module TreeData {
  import opened Wrappers
  import opened Sequences

  /** The name of the synthetic node every dataset is wrapped in. */
  const InvisibleRoot: string := "__invisible_root"

  /** An attribute value of a data node, compared by the special-link matcher. */
  datatype Value = Null | Bool(b: bool) | Number(n: real) | Text(s: string)

  /** One `{parent, child}` declaration of a special link. */
  datatype LinkDecl = LinkDecl(parent: Value, child: Value)

  /**
   * A data node. `children` is what the layout descends into; `hidden` is
   * `_children` (the subtree stashed by a collapse) and `collapsed` is
   * `_collapsed`. `identifier` and `links` are the special-link declaration,
   * read only on the dataset's root. `None` is an absent or `null` attribute.
   */
  datatype Datum = Datum(
    name: string,
    fields: map<string, Value>,
    children: Option<seq<Datum>>,
    hidden: Option<seq<Datum>>,
    collapsed: Option<bool>,
    identifier: Option<string>,
    links: Option<seq<LinkDecl>>)

  /** `data[key]`: the `name` attribute or a payload attribute. */
  function Field(d: Datum, key: string): (r: Option<Value>)
    ensures r.Some? <==> key == "name" || key in d.fields
    ensures key == "name" ==> r == Some(Text(d.name))
    ensures key != "name" && r.Some? ==> r.value == d.fields[key]
  {
    if key == "name" then Some(Text(d.name))
    else if key in d.fields then Some(d.fields[key])
    else None
  }

  /** What a caller may hand to the chart: nothing, one root object, or an array of roots. */
  datatype Input = Absent | Single(root: Datum) | Many(items: seq<Datum>)

  /** The synthetic root `{name: "__invisible_root", children: children}`. */
  function Wrap(children: seq<Datum>): Datum
  {
    Datum(InvisibleRoot, map[], Some(children), None, None, None, None)
  }

  /** The dataset `updatedInternalData` builds from `input`. */
  function Normalized(input: Input): (r: Datum)
    ensures r.name == InvisibleRoot && r.children.Some?
    ensures r.hidden.None? && r.identifier.None? && r.links.None?
    ensures input.Absent? ==> r.children.value == []
    ensures input.Single? ==> r.children.value == [input.root]
    ensures input.Many? ==>
      |r.children.value| == |input.items| &&
      forall k :: 0 <= k < |input.items| ==> r.children.value[k] == input.items[|input.items| - 1 - k]
  {
    match input
    case Absent => Wrap([])
    case Single(d) => Wrap([d])
    case Many(items) => Wrap(Reverse(items))
  }

  /**
   * `updatedInternalData`: start from an empty root and push the input's
   * nodes into its children, walking an array input from its last element down.
   */
  method UpdatedInternalData(input: Input) returns (data: Datum)
    ensures data == Normalized(input)
  {
    data := Wrap([]);
    match input {
      case Absent =>
      case Single(d) =>
        data := data.(children := Some(data.children.value + [d]));
        assert data.children.value == [d];
      case Many(items) =>
        for i := |items| downto 0
          invariant data.children.Some? && data == Wrap(data.children.value)
          invariant |data.children.value| == |items| - i
          invariant forall k :: 0 <= k < |items| - i ==> data.children.value[k] == items[|items| - 1 - k]
        {
          data := data.(children := Some(data.children.value + [items[i]]));
        }
        assert data.children.value == Reverse(items);
    }
  }

  // ---------------------------------------------------------------- collapse

  /** The subtree a node owns, shown or stashed: its `children`, else its `_children`. */
  function Subtree(d: Datum): Option<seq<Datum>>
  {
    if d.children.Some? then d.children else d.hidden
  }

  /** `onClickNode`'s swap on the clicked node's data object. */
  function Toggle(d: Datum): (r: Datum)
    ensures r.name == d.name && r.fields == d.fields
    ensures r.identifier == d.identifier && r.links == d.links
    ensures r.collapsed == Some(d.children.Some?)
    ensures r.children.None? || r.hidden.None?
    ensures Subtree(r) == Subtree(d)
    ensures r.children.Some? ==> d.children.None?
    ensures d.children.Some? ==> r.hidden == d.children && r.children.None?
    ensures d.children.None? ==> r.children == d.hidden && r.hidden.None?
  {
    if d.children.Some? then
      d.(hidden := d.children, children := None, collapsed := Some(true))
    else
      d.(children := d.hidden, hidden := None, collapsed := Some(false))
  }

  /** Clicking an expanded node twice gives back its children and leaves it marked expanded with nothing stashed. */
  lemma ToggleTwice(d: Datum)
    requires d.children.Some?
    ensures Toggle(Toggle(d)) == d.(hidden := None, collapsed := Some(false))
    ensures Toggle(Toggle(d)).children == d.children
  {
  }

  // ----------------------------------------------------------- dataset paths

  /** The node reached from `d` by following child indices `p` through `children`. */
  function At(d: Datum, p: seq<nat>): Option<Datum>
    decreases |p|
  {
    if p == [] then Some(d)
    else match d.children
      case None => None
      case Some(cs) => if p[0] < |cs| then At(cs[p[0]], p[1..]) else None
  }

  /** `d` with the node at `p` replaced by `m`; `d` itself when `p` leads nowhere. */
  function ReplaceAt(d: Datum, p: seq<nat>, m: Datum): Datum
    decreases |p|
  {
    if p == [] then m
    else match d.children
      case None => d
      case Some(cs) =>
        if p[0] < |cs| then d.(children := Some(cs[p[0] := ReplaceAt(cs[p[0]], p[1..], m)])) else d
  }

  lemma {:induction false} AtReplaceAt(d: Datum, p: seq<nat>, m: Datum)
    requires At(d, p).Some?
    ensures At(ReplaceAt(d, p, m), p) == Some(m)
    decreases |p|
  {
    if p != [] {
      var cs := d.children.value;
      AtReplaceAt(cs[p[0]], p[1..], m);
    }
  }

  lemma {:induction false} ReplaceAtTwice(d: Datum, p: seq<nat>, m1: Datum, m2: Datum)
    requires At(d, p).Some?
    ensures ReplaceAt(ReplaceAt(d, p, m1), p, m2) == ReplaceAt(d, p, m2)
    decreases |p|
  {
    if p != [] {
      var cs := d.children.value;
      var x1 := ReplaceAt(cs[p[0]], p[1..], m1);
      ReplaceAtTwice(cs[p[0]], p[1..], m1, m2);
      assert cs[p[0] := x1][p[0] := ReplaceAt(x1, p[1..], m2)] == cs[p[0] := ReplaceAt(x1, p[1..], m2)];
    }
  }

  lemma {:induction false} ReplaceAtSame(d: Datum, p: seq<nat>)
    requires At(d, p).Some?
    ensures ReplaceAt(d, p, At(d, p).value) == d
    decreases |p|
  {
    if p != [] {
      var cs := d.children.value;
      ReplaceAtSame(cs[p[0]], p[1..]);
      assert cs[p[0] := cs[p[0]]] == cs;
    }
  }

  /** Neither path is a prefix of the other: the two nodes lie in disjoint subtrees. */
  predicate Apart(p: seq<nat>, q: seq<nat>)
  {
    exists k :: 0 <= k < |p| && k < |q| && p[..k] == q[..k] && p[k] != q[k]
  }

  /** Replacing one node leaves every node in a disjoint subtree readable as before. */
  lemma {:induction false} ReplaceAtElsewhere(d: Datum, p: seq<nat>, q: seq<nat>, m: Datum)
    requires Apart(p, q)
    ensures At(ReplaceAt(d, p, m), q) == At(d, q)
    decreases |p|
  {
    var k :| 0 <= k < |p| && k < |q| && p[..k] == q[..k] && p[k] != q[k];
    if d.children.Some? && p[0] < |d.children.value| {
      var cs := d.children.value;
      var cs' := cs[p[0] := ReplaceAt(cs[p[0]], p[1..], m)];
      if k > 0 {
        assert p[0] == p[..k][0] == q[..k][0] == q[0];
        assert Apart(p[1..], q[1..]) by {
          assert p[1..][..k - 1] == p[..k][1..] == q[..k][1..] == q[1..][..k - 1];
          assert p[1..][k - 1] != q[1..][k - 1];
        }
        ReplaceAtElsewhere(cs[p[0]], p[1..], q[1..], m);
      } else {
        assert p[0] != q[0];
        assert q[0] < |cs| ==> cs'[q[0]] == cs[q[0]];
      }
    }
  }

  /**
   * Every node on the way to the replaced one (a proper prefix of `p`) is
   * still there, and differs from before at most in its `children`.
   */
  lemma {:induction false} ReplaceAtAncestors(d: Datum, p: seq<nat>, m: Datum, k: nat)
    requires At(d, p).Some? && k < |p|
    ensures At(d, p[..k]).Some? && At(ReplaceAt(d, p, m), p[..k]).Some?
    ensures At(ReplaceAt(d, p, m), p[..k]).value ==
      At(d, p[..k]).value.(children := At(ReplaceAt(d, p, m), p[..k]).value.children)
    decreases |p|
  {
    var cs := d.children.value;
    if k == 0 {
      assert p[..0] == [];
    } else {
      ReplaceAtAncestors(cs[p[0]], p[1..], m, k - 1);
      assert p[..k][0] == p[0];
      assert p[..k][1..] == p[1..][..k - 1];
    }
  }

  /** The dataset after a click on the node at `p` (an unreachable `p` changes nothing). */
  function ToggleAt(d: Datum, p: seq<nat>): (r: Datum)
    ensures At(d, p).None? ==> r == d
    ensures At(d, p).Some? ==> At(r, p) == Some(Toggle(At(d, p).value))
    ensures r.name == d.name && r.identifier == d.identifier && r.links == d.links
  {
    match At(d, p)
    case Some(n) =>
      AtReplaceAt(d, p, Toggle(n));
      ReplaceAt(d, p, Toggle(n))
    case None => d
  }

  /**
   * A click toggles exactly the clicked node: it reads back toggled, nodes in
   * other subtrees are untouched, and the nodes above it change at most in
   * their `children`.
   */
  lemma ToggleAtEffect(d: Datum, p: seq<nat>, q: seq<nat>)
    requires At(d, p).Some?
    ensures At(ToggleAt(d, p), p) == Some(Toggle(At(d, p).value))
    ensures Apart(p, q) ==> At(ToggleAt(d, p), q) == At(d, q)
    ensures |q| < |p| && q == p[..|q|] ==>
      At(d, q).Some? && At(ToggleAt(d, p), q).Some? &&
      At(ToggleAt(d, p), q).value == At(d, q).value.(children := At(ToggleAt(d, p), q).value.children)
  {
    if Apart(p, q) {
      ReplaceAtElsewhere(d, p, q, Toggle(At(d, p).value));
    }
    if |q| < |p| && q == p[..|q|] {
      ReplaceAtAncestors(d, p, Toggle(At(d, p).value), |q|);
    }
  }

  /**
   * Two clicks on an expanded node restore the dataset, except that the node is
   * now marked expanded with nothing stashed; a node in that state comes back exactly.
   */
  lemma ClickTwice(d: Datum, p: seq<nat>)
    requires At(d, p).Some? && At(d, p).value.children.Some?
    ensures ToggleAt(ToggleAt(d, p), p) == ReplaceAt(d, p, At(d, p).value.(hidden := None, collapsed := Some(false)))
    ensures At(ToggleAt(ToggleAt(d, p), p), p) == Some(At(d, p).value.(hidden := None, collapsed := Some(false)))
    ensures At(d, p).value.hidden.None? && At(d, p).value.collapsed == Some(false) ==>
      ToggleAt(ToggleAt(d, p), p) == d
  {
    var n := At(d, p).value;
    var once := ReplaceAt(d, p, Toggle(n));
    AtReplaceAt(d, p, Toggle(n));
    assert ToggleAt(d, p) == once;
    ReplaceAtTwice(d, p, Toggle(n), Toggle(Toggle(n)));
    ToggleTwice(n);
    AtReplaceAt(d, p, Toggle(Toggle(n)));
    assert ToggleAt(once, p) == ReplaceAt(once, p, Toggle(Toggle(n)));
    if n.hidden.None? && n.collapsed == Some(false) {
      assert Toggle(Toggle(n)) == n;
      ReplaceAtSame(d, p);
    }
  }

  /** The chart's normalised dataset never declares special links, so `draw` never resolves any. */
  lemma NormalizedDeclaresNothing(input: Input)
    ensures Normalized(input).identifier.None? && Normalized(input).links.None?
  {
  }
}
