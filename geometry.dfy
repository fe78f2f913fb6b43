/**
 * Point arithmetic of the chart: the right-angled ("straight") link between
 * two laid-out nodes, and the offset that first centres the tree in its
 * container. `rotatePoint`, which turns a vertical layout into a horizontal
 * one, is defined elsewhere and is a parameter here.
 */
module Geometry {
  import opened Layout

  datatype Point = Point(x: real, y: real)

  /** Which way the tree grows: `Direction.VERTICAL` or anything else. */
  datatype Direction = Vertical | Horizontal

  /** A laid-out node's position as drawn: rotated by `rotate` unless the tree is vertical. */
  function Oriented(n: HNode, direction: Direction, rotate: Point -> Point): Point
  {
    if direction == Vertical then Point(n.x, n.y) else rotate(Point(n.x, n.y))
  }

  /**
   * The polyline source, second, third, target of a straight link between
   * two drawn points: the middle segment sits halfway between them, across
   * the tree's growth axis (on y for a vertical tree, on x for a horizontal one).
   */
  function Elbow(s: Point, t: Point, vertical: bool): (r: seq<Point>)
    ensures |r| == 4 && r[0] == s && r[3] == t
    ensures vertical ==>
      r[1].x == s.x && r[2].x == t.x && r[1].y == r[2].y &&
      r[1].y - s.y == t.y - r[1].y
    ensures !vertical ==>
      r[1].y == s.y && r[2].y == t.y && r[1].x == r[2].x &&
      r[1].x - s.x == t.x - r[1].x
  {
    var xOffset := t.x - s.x;
    var yOffset := t.y - s.y;
    var second := if vertical then Point(s.x, s.y + yOffset / 2.0) else Point(s.x + xOffset / 2.0, s.y);
    var third := if vertical then Point(t.x, s.y + yOffset / 2.0) else Point(s.x + xOffset / 2.0, t.y);
    [s, second, third, t]
  }

  /** `generateStraightLinkPath`, as the four points its path visits. */
  function StraightLinkPoints(link: Link, direction: Direction, rotate: Point -> Point): (r: seq<Point>)
    ensures |r| == 4
    ensures r[0] == Oriented(link.source, direction, rotate)
    ensures r[3] == Oriented(link.target, direction, rotate)
    ensures r == Elbow(r[0], r[3], direction == Vertical)
  {
    Elbow(Oriented(link.source, direction, rotate), Oriented(link.target, direction, rotate), direction == Vertical)
  }

  /** A link between two nodes drawn at the same place passes straight through that place. */
  lemma StraightLinkCoincident(link: Link, direction: Direction, rotate: Point -> Point)
    requires Oriented(link.source, direction, rotate) == Oriented(link.target, direction, rotate)
    ensures forall k :: 0 <= k < 4 ==> StraightLinkPoints(link, direction, rotate)[k] == Oriented(link.source, direction, rotate)
  {
  }

  function Transpose(p: Point): Point
  {
    Point(p.y, p.x)
  }

  /** The horizontal elbow is the vertical elbow with the two axes exchanged. */
  lemma ElbowSymmetry(s: Point, t: Point)
    ensures |Elbow(s, t, false)| == 4
    ensures forall k :: 0 <= k < 4 ==> Elbow(s, t, false)[k] == Transpose(Elbow(Transpose(s), Transpose(t), true)[k])
  {
  }

  /**
   * `initTransform`: the offset that first places the tree. A vertical tree
   * is centred horizontally in a container `width` wide and lowered by the
   * node height less `decrement`; a horizontal tree is centred vertically and
   * moved right by the node width less `decrement`. Both are rounded down.
   */
  function InitialOffset(direction: Direction, width: int, height: int, config: TreeConfig, decrement: real): (r: (int, int))
    ensures direction == Vertical ==>
      2 * r.0 <= width < 2 * r.0 + 2 &&
      r.1 as real <= config.nodeHeight - decrement < r.1 as real + 1.0
    ensures direction == Horizontal ==>
      r.0 as real <= config.nodeWidth - decrement < r.0 as real + 1.0 &&
      2 * r.1 <= height < 2 * r.1 + 2
  {
    if direction == Vertical then
      ((width as real / 2.0).Floor, (config.nodeHeight - decrement).Floor)
    else
      ((config.nodeWidth - decrement).Floor, (height as real / 2.0).Floor)
  }
}
