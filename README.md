# tree-chart-core in Dafny

A verified model of `TreeChartCore`, the engine behind the tree chart. The engine
wraps a caller's hierarchical dataset under a synthetic root, hands it to d3's
tree layout and post-processes the node and link lists it gets back, adds the
"special links" a dataset may declare between arbitrary nodes, collapses and
expands subtrees on a click, and keeps the pan/zoom state of two drawing
surfaces (the vector surface and its overlay) in their `style.transform` text.

Modules, one per concern:

- `TreeData` (`tree_data.dfy`): the data nodes, `updatedInternalData`'s
  normalisation (a loop pushing the input's items in reverse order), the
  `children`/`_children`/`_collapsed` swap of a click, and updates of one
  node reached by a path of child indices.
- `Layout` (`layout.dfy`): what d3's layout returns, the filter
  `updateDataList` applies to it, and the resolution of special links.
- `Geometry` (`geometry.dfy`): the four points of a straight link and the
  floored offset that first centres the tree.
- `Transforms` (`transforms.dfy`): a surface's transform as a value (optional
  scale, optional translate with possibly unreadable coordinates), the text
  it is written as and read back from, `getTranslate`, the zoom targets and
  the drag arithmetic.
- `TreeChart` (`tree_chart.dfy`): the class `TreeChartCore` with the fields
  the source updates in place (`currentScale`, `dataset`, `nodeDataList`,
  `linkDataList`, both surface transforms, the initial offset, the drag
  session) and one method per operation. Every method is stated against the
  functions of the other modules, and the properties of those functions are
  proved there.
- `Wrappers`, `Sequences` (`wrappers.dfy`, `sequences.dfy`): `Option`, and
  `Filter` and `Reverse` on sequences.

External collaborators are parameters. d3's layout (`buildTree`) is the
constructor argument `layout`, a function from tree configuration and dataset
to node and link lists. `rotatePoint` is an uninterpreted function
`Point -> Point`. The default tree configuration and
`DEFAULT_HEIGHT_DECREMENT` are constructor arguments. The container size is an
argument of `Init`/`InitTransform`, and pointer coordinates are arguments of
the pointer handlers.

d3 keeps in each laid-out node a reference to its data object. The model keeps
both the node's copy of its data and its `path`, the child indices that lead
from the dataset's root to that object. The class assumes, once, that d3
builds nodes this way: following a node's path through the dataset it was
laid out from leads to the node's data
(`TreeChart.TreeChartCore.LayoutConsistent`). A click's in-place update of
`curNode.data` is then the dataset with the node at that path replaced
(`TreeData.ToggleAt`): the clicked node reads back swapped, its ancestors
change only in `children`, and every other subtree is untouched.

Two behaviours of the code are kept as written:

- `updatedInternalData` builds a root that has only `name` and `children`, so
  the dataset that `draw` reads `identifier` and `links` from never declares
  special links. A click keeps the root's `identifier` and `links`, and the
  pan/zoom operations do not touch the dataset. So the special-link loop is
  modelled and proved in full, but through the class it never runs
  (`TreeData.NormalizedDeclaresNothing`, `TreeData.ToggleAt`,
  `TreeChart.TreeChartCore.OnClickNode`, `TreeChart.TreeChartCore.UpdateDataset`).
- When the vector surface has no readable translate, `setScale` writes the
  nulls `getTranslate` returned (`translate(nullpx, nullpx)`). The model takes
  a surface to store whatever text is written to it. Under that assumption, a
  later drag's substitution finds no translate to replace, and panning leaves
  the transform unchanged (`Transforms.DragAfterUnsetScale`). A browser would
  most likely reject that text as invalid CSS and keep the previous transform
  (see "## Left out").

## Model

| member | source | states |
|---|---|---|
| TreeData.Normalized | build/tree-chart/index.js:241-254 | the root is named `"__invisible_root"` with children, nothing stashed and no link declaration; no input gives no children, one object gives exactly that child, an array gives its elements last first |
| TreeData.UpdatedInternalData | build/tree-chart/index.js:241-254 | the backward push loop builds exactly the normalised dataset |
| TreeData.NormalizedDeclaresNothing | build/tree-chart/index.js:242 | a normalised dataset carries neither `identifier` nor `links`, so `draw` resolves no special links for it |
| TreeData.Field | build/tree-chart/index.js:181 | `data[identifier]` is the name for `"name"`, the payload attribute when present, and absent otherwise |
| TreeData.Toggle | build/tree-chart/index.js:321-330 | a node with children gets them stashed in `_children`, `children` null and `_collapsed` true; any other node gets its `_children` shown as `children`, `_children` null and `_collapsed` false; the subtree, name and other attributes are kept |
| TreeData.ToggleAt | build/tree-chart/index.js:320-330 | the clicked node reads back swapped; the root keeps its name, `identifier` and `links` |
| TreeData.ToggleTwice | build/tree-chart/index.js:321-330 | two swaps of a node with children give back its children, with nothing stashed and `_collapsed` false |
| TreeData.ToggleAtEffect | build/tree-chart/index.js:318-333 | after a click the clicked node reads back swapped, every node on the way to it changes only in `children`, and every node in a disjoint subtree is unchanged |
| TreeData.ClickTwice | build/tree-chart/index.js:318-333 | two clicks on an expanded node restore the whole dataset, except that the node ends with nothing stashed and `_collapsed` false; a node already in that state comes back exactly |
| TreeData.ReplaceAtElsewhere | build/tree-chart/index.js:320-330 | writing through one node's data reference changes no node in a disjoint subtree |
| TreeData.ReplaceAtAncestors | build/tree-chart/index.js:320-330 | writing through one node's data reference leaves every node above it in place, differing at most in `children` |
| Layout.DropRoot | build/tree-chart/index.js:159 | every node but the first, in order |
| Layout.VisibleLinks | build/tree-chart/index.js:160 | only layout links whose source is not named `"__invisible_root"`, and every such link |
| Layout.VisibleLinksSpec | build/tree-chart/index.js:160 | the kept links are exactly the layout links whose source is not named `"__invisible_root"`, and the filter keeps relative order |
| Layout.RootNeverLeaks | build/tree-chart/index.js:157-163 | the node list is the layout's minus its first (root) node, and no kept link starts at the synthetic root |
| Layout.Key | build/tree-chart/index.js:171-185 | the matched attribute is the node's own `value` for identifier `"value"`, and otherwise the data's attribute of that name |
| Layout.Find | build/tree-chart/index.js:172-182 | the result is the position of the first node matching the declared parent, or none when no node matches |
| Layout.MatchingNodes | build/tree-chart/index.js:175-184 | only nodes matching the value, and every such node |
| Layout.LinksFor | build/tree-chart/index.js:169-197 | no link when no node matches the parent; otherwise each link runs from the first parent match to a node matching the child, at most one per node |
| Layout.SpecialLinks | build/tree-chart/index.js:199-202 | every special link joins two laid-out nodes, at most one per declaration and node |
| Layout.LinksForIff | build/tree-chart/index.js:169-197 | one declaration adds a link exactly when it runs from the first parent match to a node matching the child |
| Layout.SpecialLinksIff | build/tree-chart/index.js:199-202 | the special links are exactly the links some declaration gives rise to, in both directions |
| Layout.SpecialLinksAppend | build/tree-chart/index.js:199-202 | declarations are resolved in order: the links of later declarations follow those of earlier ones |
| Layout.UnmatchedParentContributesNothing | build/tree-chart/index.js:187-196 | a declaration whose parent matches no node adds no link |
| Layout.ResolvedOneMore | build/tree-chart/index.js:199-202 | appending one more declaration's links continues the in-order resolution |
| Geometry.Elbow | build/tree-chart/index.js:143-150 | four points from source to target; the middle segment is halfway between them across the growth axis, the inner points keep source and target on the other axis |
| Geometry.StraightLinkPoints | build/tree-chart/index.js:135-156 | the straight link starts exactly at the (rotated when horizontal) source and ends at the target, via the elbow between them |
| Geometry.StraightLinkCoincident | build/tree-chart/index.js:135-156 | coincident endpoints make all four points equal |
| Geometry.ElbowSymmetry | build/tree-chart/index.js:145-150 | the horizontal elbow is the vertical one with the axes exchanged |
| Geometry.InitialOffset | build/tree-chart/index.js:306-317 | vertical: half the container width and node height less the decrement, both rounded down; horizontal: node width less the decrement and half the container height, rounded down |
| Transforms.Format | build/tree-chart/index.js:72-73 | the scale part, when there is one, comes first as `scale(`, the scale, `) `; the translate part comes last as `translate(`, x, `px, `, y, `px)` |
| Transforms.ParseFormat | build/tree-chart/index.js:72-73 | reading back the text `setScale` or a drag writes gives the same transform |
| Transforms.FormatInjective | build/tree-chart/index.js:72-73 | two different transforms are never written as the same text |
| Transforms.GetTranslate | build/tree-chart/index.js:78-87 | both coordinates are read exactly when the translate part holds two integers, and are then those integers; otherwise both are null |
| Transforms.Scaled | build/tree-chart/index.js:68-77 | the written transform has the new scale and carries the translate read before, so `getTranslate` is unchanged; when nothing was readable, both coordinates are written as the nulls `getTranslate` returned |
| Transforms.ScaledTwice | build/tree-chart/index.js:68-77 | setting the scale twice equals setting it once to the second value |
| Transforms.ZoomInScale | build/tree-chart/index.js:46-51 | 1.2 times the scale read, or 1.2 when there is none |
| Transforms.ZoomOutScale | build/tree-chart/index.js:57-62 | 1.2 times the target is the scale read, or 1 when there is none |
| Transforms.ZoomInverse | build/tree-chart/index.js:43-64 | a zoom-in then a zoom-out, or the reverse, comes back to the scale first read (1 when none) |
| Transforms.ZoomCompounds | build/tree-chart/index.js:43-64 | from scale 1 three zoom-ins reach 1.728, and a zoom-out then targets 1.44 |
| Transforms.DragOffset | build/tree-chart/index.js:289-292 | the new offset is the pointer travel over the scale rounded down plus the captured offset; none when the scale is zero |
| Transforms.OriginOffset | build/tree-chart/index.js:278-288 | the captured offsets are the translate of the transform at pointer-down, 0 and 0 when it has none |
| Transforms.Dragged | build/tree-chart/index.js:293-296 | the scale part is kept; the translate is replaced when the captured text was empty or had one, and otherwise the captured text is written unchanged |
| Transforms.DragResult | build/tree-chart/index.js:278-298 | a pointer-move keeps the captured scale, never yields a readable translate at scale zero, and writes back captured text that has no readable translate |
| Transforms.DragWithoutTravel | build/tree-chart/index.js:275-299 | a move back to the pointer-down position leaves a readable translate where it was |
| Transforms.DragMoves | build/tree-chart/index.js:275-299 | a drag moves the translate by the floored scaled travel and keeps the scale |
| Transforms.DragAfterUnsetScale | build/tree-chart/index.js:293-296 | after `setScale` wrote `translate(nullpx, nullpx)`, no drag changes the transform |
| TreeChart.TreeChartCore.constructor | build/tree-chart/index.js:6-28 | each setting is the parameter when given and the default otherwise; scale 1; the dataset is the normalised input |
| TreeChart.TreeChartCore.Init | build/tree-chart/index.js:29-33 | the lists are drawn, the pointer handlers are installed with no drag under way, the initial offset is computed, and dataset, scale and transforms are kept |
| TreeChart.TreeChartCore.InitialTransformStyle | build/tree-chart/index.js:37-42 | scale 1 and the initial offset as translate, about the centre; the offset reads back when set |
| TreeChart.TreeChartCore.SetScale | build/tree-chart/index.js:68-77 | a non-number changes nothing; a number is written with the vector surface's translate to both surfaces, which end identical, and becomes the current scale |
| TreeChart.TreeChartCore.ZoomIn | build/tree-chart/index.js:43-53 | both surfaces get 1.2 times the overlay's scale (1.2 when none) and keep the translate |
| TreeChart.TreeChartCore.ZoomOut | build/tree-chart/index.js:54-64 | both surfaces get the overlay's scale over 1.2 (1/1.2 when none) and keep the translate |
| TreeChart.TreeChartCore.RestoreScale | build/tree-chart/index.js:65-67 | both surfaces get scale 1 and keep the translate |
| TreeChart.TreeChartCore.EnableDrag | build/tree-chart/index.js:262-268 | the pointer handlers are installed, and the drag session starts idle at (0, 0) with an empty captured transform |
| TreeChart.TreeChartCore.PointerDown | build/tree-chart/index.js:269-274 | before the handlers are installed nothing changes; afterwards the vector surface's transform and the pointer position are captured and a drag starts |
| TreeChart.TreeChartCore.PointerMove | build/tree-chart/index.js:275-299 | before the handlers are installed or outside a drag nothing changes; during one both surfaces get the same dragged transform, and the scale is untouched |
| TreeChart.TreeChartCore.PointerUp | build/tree-chart/index.js:300-304 | before the handlers are installed nothing changes; afterwards the drag ends and the start goes back to (0, 0) |
| TreeChart.TreeChartCore.InitTransform | build/tree-chart/index.js:306-317 | the initial offset is the floored centring offset for the chart's direction |
| TreeChart.TreeChartCore.UpdateDataList | build/tree-chart/index.js:157-163 | the node list is the layout's minus its root, the link list the filtered layout links |
| TreeChart.TreeChartCore.ResolveSpecialLink | build/tree-chart/index.js:169-197 | one declaration's links are appended after the links already listed, one per child match in node order |
| TreeChart.TreeChartCore.ResolveSpecialLinks | build/tree-chart/index.js:198-202 | earlier links stay in front and the special links of all declarations follow, in declaration order |
| TreeChart.TreeChartCore.Draw | build/tree-chart/index.js:164-203 | the lists are the filtered layout, plus the special links when the dataset declares both `links` and a non-empty `identifier` |
| TreeChart.TreeChartCore.OnClickNode | build/tree-chart/index.js:318-333 | with collapsing off nothing changes; otherwise the clicked node's own data, swapped, is what the dataset holds at that node, and the chart is drawn again; the root's `identifier` and `links` are kept |
| TreeChart.TreeChartCore.UpdateDataset | build/tree-chart/index.js:339-342 | the dataset is the normalised input and the lists are drawn from it, with no special links |

## Left out

- d3's tree layout (`buildTree`, `d3.tree().nodeSize`, `d3.hierarchy`) is the abstract parameter `layout`. The constructor requires that each node's path leads to its data (`TreeChart.TreeChartCore.LayoutConsistent`). `Layout.RootNeverLeaks` also assumes that the root is listed first and that no two nodes share a data object.
- The curve link generator and d3's path serialisation are not modelled, since both are foreign string formats. The straight link is its four points, and the link-style dispatch in `generateLinkPath` is not modelled.
- The render pass is not modelled: selection, keyed data join, transitions, opacity and easing. The link key formula (`_key` of source and target) is not modelled either.
- DOM handles (`svgElement`, `domElement`, `treeContainer`) and `destroy` are not modelled. A surface is its transform, and container sizes are arguments.
- `deepCopy`'s body is not part of this model. The dataset is a value, so a copy is the value itself. By the comment above `updatedInternalData`, the copy also adds a unique `_key` attribute to every node. The model drops `_key`, so `TreeData.Normalized`'s children are the input nodes without it. Only the render pass, which is left out, reads `_key`.
- `rotatePoint`'s body is not modelled; it is a parameter.
- The texts of `MATCH_SCALE_REGEX` and `MATCH_TRANSLATE_REGEX` are not part of this model. A surface holds the structured `Transform` value rather than its text. `GetTranslate`, `ZoomInScale`, `ZoomOutScale` and `OriginOffset` read that value. `Transforms.ParseFormat` shows that the text written determines the value.
- A surface is assumed to store any written text verbatim. A browser's `style.transform` setter ignores text it cannot parse. Examples are `translate(nullpx, nullpx)` from `setScale`, or `Infinity`/`NaN` coordinates from a drag at scale 0. There the surface keeps its previous transform while `currentScale` still changes. The model does not capture that.
- JS number printing is not modelled: numbers stay numbers inside the text. Coordinates that are not integers (`null`, `undefined`, `NaN`, `Infinity`) are all one unreadable value.
- JS loose equality `==` in special-link matching is modelled as equality on one value type.
- TreeData.Field: a data node's `children`, `_children`, `_collapsed`, `identifier` and `links` are separate fields, and `Field` reads only `name` and the payload attributes. An `identifier` naming one of those five attributes therefore looks it up among the payload attributes, where the source reads the real attribute.
- Floating point is modelled as `real`.
- `getNodeDataList` only returns the `nodeDataList` field.
- `isVertical` is the test `direction == Vertical`, written where it is used.
- TreeChart.TreeChartCore.OnClickNode: the clicked node's data is written back at its path in the dataset, which stands for the shared data reference. The method requires an index inside the node list; the source throws a `TypeError` for an index past the end (`curNode.data` on `undefined`), and that error is not modelled. It also requires the node list to be the one the last draw derived from the current dataset. That always holds after `init`, and before `init` the source has no node list.
- TreeChart.TreeChartCore.constructor: a falsy `direction`, `linkStyle` or `treeConfig` parameter is modelled as an absent one. `collapseEnabled` is a boolean.
