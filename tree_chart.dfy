/**
 * `TreeChartCore`: the chart object. It owns the normalised dataset, the node
 * and link lists of the last layout, the transform text of its two surfaces
 * (the vector surface `svgElement` and the overlay `domElement`, which must
 * always show the same pan and zoom), the current scale, and the state of the
 * pointer handlers that pan the chart.
 *
 * d3's layout (`buildTree`) and `rotatePoint` are given to the constructor as
 * functions; the container's size is given to `Init`.
 */
module TreeChart {
  import opened Wrappers
  import opened TreeData
  import opened Layout
  import opened Geometry
  import opened Transforms

  datatype LinkStyle = Curve | Straight

  /** The constructor's `params`, the three surface handles aside; `None` is an absent or falsy entry. */
  datatype Params = Params(
    treeConfig: Option<TreeConfig>,
    collapseEnabled: bool,
    dataset: Input,
    direction: Option<Direction>,
    linkStyle: Option<LinkStyle>)

  /** What `getInitialTransformStyle` returns. */
  datatype Style = Style(transform: Transform, transformOrigin: string)

  /** `specialLinks && identifier`: a links array and a non-empty identifier are both present. */
  predicate DeclaresSpecialLinks(d: Datum)
  {
    d.links.Some? && d.identifier.Some? && d.identifier.value != ""
  }

  class TreeChartCore {
    const treeConfig: TreeConfig
    const collapseEnabled: bool
    const direction: Direction
    const linkStyle: LinkStyle
    /** `DEFAULT_HEIGHT_DECREMENT`. */
    const heightDecrement: real
    /** `buildTree`: d3's tree layout with node size `[nodeWidth, levelHeight]`, applied to a dataset. */
    const layout: (TreeConfig, Datum) -> Tree
    const rotatePoint: Point -> Point

    var currentScale: real
    var dataset: Datum
    var nodeDataList: seq<HNode>
    var linkDataList: seq<Link>
    /** `svgElement.style.transform` and `domElement.style.transform`. */
    var svgTransform: Transform
    var domTransform: Transform
    var initTransformX: Option<int>
    var initTransformY: Option<int>

    /** Whether `enableDrag` has installed the pointer handlers; before that, pointer events reach no handler. */
    var dragEnabled: bool
    // The variables the pointer handlers of `enableDrag` share.
    var startX: real
    var startY: real
    var isDrag: bool
    var mouseDownTransform: Transform

    /** The node and link lists are those `draw` derives from the layout of the current dataset. */
    ghost predicate Drawn()
      reads this`dataset, this`nodeDataList, this`linkDataList
    {
      var tree := layout(treeConfig, dataset);
      && nodeDataList == DropRoot(tree.nodes)
      && linkDataList == VisibleLinks(tree.links) +
           (if DeclaresSpecialLinks(dataset)
            then SpecialLinks(nodeDataList, dataset.identifier.value, dataset.links.value)
            else [])
    }

    /**
     * d3 builds each laid-out node from one data object of the dataset it is
     * given, and the node keeps that object: following the node's path from
     * the dataset's root leads to the node's data.
     */
    ghost predicate LayoutConsistent()
    {
      forall c, d, i :: 0 <= i < |layout(c, d).nodes| ==>
        At(d, layout(c, d).nodes[i].path) == Some(layout(c, d).nodes[i].data)
    }

    constructor (params: Params, defaultConfig: TreeConfig, heightDecrement: real,
                 layout: (TreeConfig, Datum) -> Tree, rotatePoint: Point -> Point,
                 svgTransform: Transform, domTransform: Transform)
      requires forall c, d, i :: 0 <= i < |layout(c, d).nodes| ==>
        At(d, layout(c, d).nodes[i].path) == Some(layout(c, d).nodes[i].data)
      ensures LayoutConsistent()
      ensures this.treeConfig == params.treeConfig.GetOr(defaultConfig)
      ensures this.collapseEnabled == params.collapseEnabled
      ensures this.direction == params.direction.GetOr(Vertical)
      ensures this.linkStyle == params.linkStyle.GetOr(Curve)
      ensures this.heightDecrement == heightDecrement
      ensures this.layout == layout && this.rotatePoint == rotatePoint
      ensures currentScale == 1.0
      ensures dataset == Normalized(params.dataset)
      ensures nodeDataList == [] && linkDataList == []
      ensures this.svgTransform == svgTransform && this.domTransform == domTransform
      ensures initTransformX.None? && initTransformY.None?
      ensures startX == 0.0 && startY == 0.0 && !isDrag && mouseDownTransform == Empty
      ensures !dragEnabled
    {
      this.treeConfig := params.treeConfig.GetOr(defaultConfig);
      this.collapseEnabled := params.collapseEnabled;
      this.direction := params.direction.GetOr(Vertical);
      this.linkStyle := params.linkStyle.GetOr(Curve);
      this.heightDecrement := heightDecrement;
      this.layout := layout;
      this.rotatePoint := rotatePoint;
      currentScale := 1.0;
      var data := UpdatedInternalData(params.dataset);
      dataset := data;
      nodeDataList, linkDataList := [], [];
      this.svgTransform, this.domTransform := svgTransform, domTransform;
      initTransformX, initTransformY := None, None;
      startX, startY, isDrag, mouseDownTransform := 0.0, 0.0, false, Empty;
      dragEnabled := false;
    }

    /** `init`: lay out and draw, install the pointer handlers, compute the initial offset. */
    method Init(containerWidth: int, containerHeight: int)
      modifies this
      ensures Drawn()
      ensures dataset == old(dataset) && currentScale == old(currentScale)
      ensures svgTransform == old(svgTransform) && domTransform == old(domTransform)
      ensures dragEnabled && !isDrag && startX == 0.0 && startY == 0.0 && mouseDownTransform == Empty
      ensures initTransformX == Some(InitialOffset(direction, containerWidth, containerHeight, treeConfig, heightDecrement).0)
      ensures initTransformY == Some(InitialOffset(direction, containerWidth, containerHeight, treeConfig, heightDecrement).1)
    {
      Draw();
      EnableDrag();
      InitTransform(containerWidth, containerHeight);
    }

    /** `getInitialTransformStyle`: scale 1 and the initial offset, about the centre. */
    function InitialTransformStyle(): (s: Style)
      reads this
      ensures s.transform.scale == Some(1.0) && s.transformOrigin == "center"
      ensures s.transform.translate == Some(Translate(initTransformX, initTransformY))
      ensures initTransformX.Some? && initTransformY.Some? ==>
        GetTranslate(s.transform) == (initTransformX, initTransformY)
    {
      Style(Transform(Some(1.0), Some(Translate(initTransformX, initTransformY))), "center")
    }

    // ---------------------------------------------------------------- zoom

    /**
     * `setScale`: a non-number changes nothing; a number is written, with the
     * translate read from the vector surface, to both surfaces and becomes
     * the current scale.
     */
    method SetScale(scaleNum: Option<real>)
      modifies this`svgTransform, this`domTransform, this`currentScale
      ensures scaleNum.None? ==> unchanged(this)
      ensures scaleNum.Some? ==>
        && svgTransform == domTransform == Scaled(old(svgTransform), scaleNum.value)
        && currentScale == scaleNum.value
    {
      if scaleNum.None? {
        return;
      }
      var pos := GetTranslate(svgTransform);
      var transform := Transform(Some(scaleNum.value), Some(Translate(pos.0, pos.1)));
      svgTransform := transform;
      domTransform := transform;
      currentScale := scaleNum.value;
    }

    /** `zoomIn`: scale up by 1.2 from the scale shown on the overlay surface, keeping the translate. */
    method ZoomIn()
      modifies this`svgTransform, this`domTransform, this`currentScale
      ensures svgTransform == domTransform == Scaled(old(svgTransform), ZoomInScale(old(domTransform)))
      ensures currentScale == ZoomInScale(old(domTransform))
      ensures GetTranslate(svgTransform) == GetTranslate(old(svgTransform))
    {
      SetScale(Some(ZoomInScale(domTransform)));
    }

    /** `zoomOut`: scale down by 1.2 from the scale shown on the overlay surface, keeping the translate. */
    method ZoomOut()
      modifies this`svgTransform, this`domTransform, this`currentScale
      ensures svgTransform == domTransform == Scaled(old(svgTransform), ZoomOutScale(old(domTransform)))
      ensures currentScale == ZoomOutScale(old(domTransform))
      ensures GetTranslate(svgTransform) == GetTranslate(old(svgTransform))
    {
      SetScale(Some(ZoomOutScale(domTransform)));
    }

    /** `restoreScale`: back to scale 1, keeping the translate. */
    method RestoreScale()
      modifies this`svgTransform, this`domTransform, this`currentScale
      ensures svgTransform == domTransform == Scaled(old(svgTransform), 1.0)
      ensures currentScale == 1.0
      ensures GetTranslate(svgTransform) == GetTranslate(old(svgTransform))
    {
      SetScale(Some(1.0));
    }

    // ---------------------------------------------------------------- drag

    /** `enableDrag`: install the pointer handlers, with no drag under way. */
    method EnableDrag()
      modifies this`dragEnabled, this`startX, this`startY, this`isDrag, this`mouseDownTransform
      ensures dragEnabled
      ensures startX == 0.0 && startY == 0.0 && !isDrag && mouseDownTransform == Empty
    {
      dragEnabled := true;
      startX := 0.0;
      startY := 0.0;
      isDrag := false;
      mouseDownTransform := Empty;
    }

    /** Pointer-down: once the handlers are installed, capture the vector surface's transform and the pointer position, and start a drag. */
    method PointerDown(clientX: real, clientY: real)
      modifies this`startX, this`startY, this`isDrag, this`mouseDownTransform
      ensures !dragEnabled ==> unchanged(this)
      ensures dragEnabled ==> mouseDownTransform == svgTransform
      ensures dragEnabled ==> startX == clientX && startY == clientY && isDrag
    {
      if !dragEnabled {
        return;
      }
      mouseDownTransform := svgTransform;
      startX := clientX;
      startY := clientY;
      isDrag := true;
    }

    /**
     * Pointer-move: outside a drag nothing changes; during one, both surfaces
     * get the captured transform with its translate moved by the pointer's
     * travel divided by the current scale.
     */
    method PointerMove(clientX: real, clientY: real)
      modifies this`svgTransform, this`domTransform
      ensures !(dragEnabled && isDrag) ==> unchanged(this)
      ensures dragEnabled && isDrag ==>
        svgTransform == domTransform ==
        DragResult(mouseDownTransform, startX, startY, clientX, clientY, currentScale)
    {
      if !dragEnabled || !isDrag {
        return;
      }
      var originTransform := mouseDownTransform;
      var originOffsetX, originOffsetY := 0, 0;
      if originTransform != Empty {
        var result := GetTranslate(originTransform);
        if result.0.Some? {
          originOffsetX, originOffsetY := result.0.value, result.1.value;
        }
      }
      var newX := DragOffset(clientX, startX, currentScale, originOffsetX);
      var newY := DragOffset(clientY, startY, currentScale, originOffsetY);
      var transform := Dragged(originTransform, newX, newY);
      svgTransform := transform;
      domTransform := transform;
    }

    /** Pointer-up: once the handlers are installed, the drag ends and the start position goes back to the origin. */
    method PointerUp()
      modifies this`startX, this`startY, this`isDrag
      ensures !dragEnabled ==> unchanged(this)
      ensures dragEnabled ==> startX == 0.0 && startY == 0.0 && !isDrag
    {
      if !dragEnabled {
        return;
      }
      startX := 0.0;
      startY := 0.0;
      isDrag := false;
    }

    /** `initTransform`: record the offset that first centres the tree in a container of the given size. */
    method InitTransform(containerWidth: int, containerHeight: int)
      modifies this`initTransformX, this`initTransformY
      ensures initTransformX == Some(InitialOffset(direction, containerWidth, containerHeight, treeConfig, heightDecrement).0)
      ensures initTransformY == Some(InitialOffset(direction, containerWidth, containerHeight, treeConfig, heightDecrement).1)
    {
      var offset := InitialOffset(direction, containerWidth, containerHeight, treeConfig, heightDecrement);
      initTransformX := Some(offset.0);
      initTransformY := Some(offset.1);
    }

    // -------------------------------------------------------------- layout

    /** `updateDataList`: lay out the dataset, drop the first node, keep the links not leaving the synthetic root. */
    method UpdateDataList()
      modifies this`nodeDataList, this`linkDataList
      ensures nodeDataList == DropRoot(layout(treeConfig, dataset).nodes)
      ensures linkDataList == VisibleLinks(layout(treeConfig, dataset).links)
    {
      var tree := layout(treeConfig, dataset);
      var nodes := tree.nodes;
      if nodes != [] {
        nodes := nodes[1..];
      }
      linkDataList := VisibleLinks(tree.links);
      nodeDataList := nodes;
    }

    /**
     * The body of `draw`'s loop for one declaration: find the first node
     * matching its parent and append a link from it to every node matching its child.
     */
    method ResolveSpecialLink(identifier: string, link: LinkDecl)
      modifies this`linkDataList
      ensures linkDataList == old(linkDataList) + LinksFor(nodeDataList, identifier, link)
    {
      var parent := Find(nodeDataList, identifier, link.parent);
      var children := MatchingNodes(nodeDataList, identifier, link.child);
      if parent.Some? {
        var source := nodeDataList[parent.value];
        for j := 0 to |children|
          invariant linkDataList == old(linkDataList) + FanOut(source, children[..j])
        {
          FanOutStep(source, children, j);
          linkDataList := linkDataList + [Link(source, children[j])];
        }
        assert children[..|children|] == children;
      }
    }

    /** `draw`'s loop over the declarations, appending the special links after the links already listed. */
    method ResolveSpecialLinks(identifier: string, specialLinks: seq<LinkDecl>)
      modifies this`linkDataList
      ensures linkDataList == old(linkDataList) + SpecialLinks(nodeDataList, identifier, specialLinks)
    {
      ghost var nodes, start := nodeDataList, linkDataList;
      var i := 0;
      while i < |specialLinks|
        invariant i <= |specialLinks| && nodeDataList == nodes
        invariant linkDataList == start + SpecialLinks(nodes, identifier, specialLinks[..i])
      {
        ResolveSpecialLink(identifier, specialLinks[i]);
        ResolvedOneMore(nodes, identifier, specialLinks, i, start);
        i := i + 1;
      }
      assert specialLinks[..|specialLinks|] == specialLinks;
    }

    /** `draw`, short of rendering: refresh the lists, then add the special links the dataset declares. */
    method Draw()
      modifies this`nodeDataList, this`linkDataList
      ensures Drawn()
    {
      UpdateDataList();
      var identifier := dataset.identifier;
      var specialLinks := dataset.links;
      if specialLinks.Some? && identifier.Some? && identifier.value != "" {
        ResolveSpecialLinks(identifier.value, specialLinks.value);
      }
    }

    // ---------------------------------------------------- collapse, update

    /**
     * `onClickNode`: with collapsing enabled, swap the clicked node's shown and
     * stashed children in the dataset and draw again; otherwise nothing. The
     * node list is the one the last draw derived from the current dataset.
     */
    method OnClickNode(index: nat)
      requires LayoutConsistent()
      requires collapseEnabled ==> index < |nodeDataList| && Drawn()
      modifies this`dataset, this`nodeDataList, this`linkDataList
      ensures !collapseEnabled ==> unchanged(this)
      ensures collapseEnabled ==> dataset == ToggleAt(old(dataset), old(nodeDataList[index].path)) && Drawn()
      ensures collapseEnabled ==> At(dataset, old(nodeDataList[index].path)) == Some(Toggle(old(nodeDataList[index].data)))
      ensures dataset.identifier == old(dataset.identifier) && dataset.links == old(dataset.links)
    {
      if collapseEnabled {
        var curNode := nodeDataList[index];
        var data := curNode.data;
        assert At(dataset, curNode.path) == Some(data) by {
          assert curNode == layout(treeConfig, dataset).nodes[index + 1];
        }
        if data.children.Some? {
          data := data.(hidden := data.children);
          data := data.(children := None);
          data := data.(collapsed := Some(true));
        } else {
          data := data.(children := data.hidden);
          data := data.(hidden := None);
          data := data.(collapsed := Some(false));
        }
        // The data object is shared with the dataset: the write lands at the node's path.
        dataset := ReplaceAt(dataset, curNode.path, data);
        Draw();
      }
    }

    /** `updateDataset`: normalise the new data and draw it; it declares no special links, so only layout links remain. */
    method UpdateDataset(input: Input)
      modifies this`dataset, this`nodeDataList, this`linkDataList
      ensures dataset == Normalized(input) && Drawn()
      ensures linkDataList == VisibleLinks(layout(treeConfig, dataset).links)
    {
      var data := UpdatedInternalData(input);
      dataset := data;
      Draw();
    }
  }
}
