/**
 * The pan/zoom state the chart keeps in the `style.transform` text of its
 * two surfaces, read back by pattern matching. A transform is modelled by
 * what those patterns read from it: an optional `scale(s)` part and an
 * optional `translate(x px, y px)` part.
 */
module Transforms {
  import opened Wrappers

  /**
   * The `translate(...)` part. A `None` coordinate stands for text that is
   * not an integer (`null`, `undefined`, `NaN`, `Infinity`): the translate
   * pattern does not read such a part back.
   */
  datatype Translate = Translate(x: Option<int>, y: Option<int>)

  /** A surface's `style.transform`: `scale(...) ` then `translate(...)`, each optional. */
  datatype Transform = Transform(scale: Option<real>, translate: Option<Translate>)

  /** The empty style text a surface starts with when nobody has set it. */
  const Empty: Transform := Transform(None, None)

  /** A piece of transform text; numbers are kept as numbers rather than printed. */
  datatype Piece = Literal(text: string) | Decimal(r: real) | Pixels(n: Option<int>)

  /** The text the chart writes: `scale(s) translate(xpx, ypx)` from `setScale`, `translate(xpx, ypx)` from a drag. */
  function Format(t: Transform): (r: seq<Piece>)
    ensures |r| == (if t.scale.Some? then 3 else 0) + (if t.translate.Some? then 5 else 0)
    ensures t.scale.Some? ==>
      r[0] == Literal("scale(") && r[1] == Decimal(t.scale.value) && r[2] == Literal(") ")
    ensures t.translate.Some? ==>
      r[|r| - 5] == Literal("translate(") &&
      r[|r| - 4] == Pixels(t.translate.value.x) && r[|r| - 3] == Literal("px, ") &&
      r[|r| - 2] == Pixels(t.translate.value.y) && r[|r| - 1] == Literal("px)")
  {
    (match t.scale
     case Some(s) => [Literal("scale("), Decimal(s), Literal(") ")]
     case None => [])
    + (match t.translate
       case Some(tr) => [Literal("translate("), Pixels(tr.x), Literal("px, "), Pixels(tr.y), Literal("px)")]
       case None => [])
  }

  function ParseTranslate(ps: seq<Piece>): Option<Option<Translate>>
  {
    if ps == [] then Some(None)
    else if |ps| == 5 && ps[0] == Literal("translate(") && ps[1].Pixels? && ps[2] == Literal("px, ")
         && ps[3].Pixels? && ps[4] == Literal("px)")
    then Some(Some(Translate(ps[1].n, ps[3].n)))
    else None
  }

  /** Reads transform text of the grammar above; `None` for any other text. */
  function Parse(ps: seq<Piece>): Option<Transform>
  {
    if |ps| >= 3 && ps[0] == Literal("scale(") && ps[1].Decimal? && ps[2] == Literal(") ") then
      match ParseTranslate(ps[3..])
      case Some(tr) => Some(Transform(Some(ps[1].r), tr))
      case None => None
    else
      match ParseTranslate(ps)
      case Some(tr) => Some(Transform(None, tr))
      case None => None
  }

  /** Reading back what was written gives the same transform. */
  lemma ParseFormat(t: Transform)
    ensures Parse(Format(t)) == Some(t)
  {
    if t.scale.Some? {
      assert Format(t)[3..] == Format(t.(scale := None));
    }
  }

  /** Two transforms are written as the same text only when they are the same transform. */
  lemma FormatInjective(a: Transform, b: Transform)
    requires Format(a) == Format(b)
    ensures a == b
  {
    ParseFormat(a);
    ParseFormat(b);
  }

  /** `getTranslate`: the two integers of the translate part, or `[null, null]` when there are none to read. */
  function GetTranslate(t: Transform): (r: (Option<int>, Option<int>))
    ensures r.0.Some? <==> r.1.Some?
    ensures r.0.Some? <==> t.translate.Some? && t.translate.value.x.Some? && t.translate.value.y.Some?
    ensures r.0.Some? ==> t.translate == Some(Translate(r.0, r.1))
  {
    match t.translate
    case Some(Translate(Some(x), Some(y))) => (Some(x), Some(y))
    case _ => (None, None)
  }

  /** The value `setScale(s)` writes: scale `s` and the translate read from `t`, formatted verbatim even when it is `[null, null]`. */
  function Scaled(t: Transform, s: real): (r: Transform)
    ensures r.scale == Some(s) && r.translate.Some?
    ensures GetTranslate(r) == GetTranslate(t)
    ensures GetTranslate(t).0.None? ==> r.translate == Some(Translate(None, None))
  {
    var pos := GetTranslate(t);
    Transform(Some(s), Some(Translate(pos.0, pos.1)))
  }

  /** Setting the scale again replaces only the scale. */
  lemma ScaledTwice(t: Transform, s1: real, s2: real)
    ensures Scaled(Scaled(t, s1), s2) == Scaled(t, s2)
  {
  }

  const ZoomFactor: real := 1.2

  /** `zoomIn`'s target: 1.2 times the scale read from `t`, or 1.2 when there is none. */
  function ZoomInScale(t: Transform): (r: real)
    ensures r == ZoomFactor * t.scale.GetOr(1.0)
  {
    var target := 1.0 * ZoomFactor;
    match t.scale
    case Some(s) => target * s
    case None => target
  }

  /** `zoomOut`'s target: the scale read from `t` divided by 1.2, or 1/1.2 when there is none. */
  function ZoomOutScale(t: Transform): (r: real)
    ensures r * ZoomFactor == t.scale.GetOr(1.0)
  {
    match t.scale
    case Some(s) => s / ZoomFactor
    case None => 1.0 / ZoomFactor
  }

  /** A zoom-in followed by a zoom-out, or the other way round, comes back to the scale first read (1 when there was none). */
  lemma ZoomInverse(t: Transform, u: Transform)
    ensures ZoomOutScale(Scaled(u, ZoomInScale(t))) == t.scale.GetOr(1.0)
    ensures ZoomInScale(Scaled(u, ZoomOutScale(t))) == t.scale.GetOr(1.0)
  {
  }

  /** Zooming compounds: three zoom-ins from scale 1 reach 1.728, and a zoom-out then gives 1.44. */
  lemma ZoomCompounds(t: Transform)
    requires t.scale.GetOr(1.0) == 1.0
    ensures var t1 := Scaled(t, ZoomInScale(t));
      var t2 := Scaled(t1, ZoomInScale(t1));
      var t3 := Scaled(t2, ZoomInScale(t2));
      t3.scale == Some(1.728) && ZoomOutScale(t3) == 1.44
  {
  }

  // -------------------------------------------------------------------- drag

  /**
   * The offset a pointer-move gives one axis: the pointer's travel divided
   * by the current scale, rounded down, plus the offset at pointer-down;
   * no integer at all when the scale is zero.
   */
  function DragOffset(client: real, start: real, scale: real, origin: int): (r: Option<int>)
    ensures r.Some? <==> scale != 0.0
    ensures r.Some? ==> (r.value - origin) as real <= (client - start) / scale < (r.value - origin) as real + 1.0
  {
    if scale == 0.0 then None else Some(((client - start) / scale).Floor + origin)
  }

  /** The offsets read from the transform captured at pointer-down; zero where none can be read. */
  function OriginOffset(t: Transform): (r: (int, int))
    ensures GetTranslate(t).0.Some? ==> t.translate == Some(Translate(Some(r.0), Some(r.1)))
    ensures GetTranslate(t).0.None? ==> r == (0, 0)
  {
    (GetTranslate(t).0.GetOr(0), GetTranslate(t).1.GetOr(0))
  }

  /**
   * What a pointer-move writes, given the transform captured at pointer-down:
   * a bare translate when that was empty, the captured text with only its
   * translate replaced when it had one, and the captured text unchanged
   * otherwise (the replacement finds nothing to replace).
   */
  function Dragged(origin: Transform, x: Option<int>, y: Option<int>): (r: Transform)
    ensures r.scale == origin.scale
    ensures origin == Empty || GetTranslate(origin).0.Some? ==> r.translate == Some(Translate(x, y))
    ensures !(origin == Empty || GetTranslate(origin).0.Some?) ==> r == origin
  {
    if origin == Empty then Transform(None, Some(Translate(x, y)))
    else if GetTranslate(origin).0.Some? then origin.(translate := Some(Translate(x, y)))
    else origin
  }

  /** The transform a pointer-move writes, from the captured transform, the pointer travel and the current scale. */
  function DragResult(origin: Transform, startX: real, startY: real, clientX: real, clientY: real, scale: real): (r: Transform)
    ensures r.scale == origin.scale
    ensures scale == 0.0 ==> GetTranslate(r) == (None, None)
    ensures !(origin == Empty || GetTranslate(origin).0.Some?) ==> r == origin
  {
    var (ox, oy) := OriginOffset(origin);
    Dragged(origin, DragOffset(clientX, startX, scale, ox), DragOffset(clientY, startY, scale, oy))
  }

  /** A pointer-move back at the pointer-down position leaves a readable translate where it was. */
  lemma DragWithoutTravel(origin: Transform, x: real, y: real, scale: real)
    requires scale != 0.0 && GetTranslate(origin).0.Some?
    ensures DragResult(origin, x, y, x, y, scale) == origin
  {
    var (ox, oy) := OriginOffset(origin);
    assert DragOffset(x, x, scale, ox) == Some(ox);
    assert DragOffset(y, y, scale, oy) == Some(oy);
  }

  /** Dragging moves the translate by the scaled pointer travel, rounded down, and keeps the scale. */
  lemma DragMoves(origin: Transform, sx: real, sy: real, cx: real, cy: real, scale: real)
    requires scale != 0.0 && (origin == Empty || GetTranslate(origin).0.Some?)
    ensures var r := DragResult(origin, sx, sy, cx, cy, scale);
      r.scale == origin.scale &&
      GetTranslate(r) == (Some(((cx - sx) / scale).Floor + OriginOffset(origin).0),
                          Some(((cy - sy) / scale).Floor + OriginOffset(origin).1))
  {
  }

  /**
   * Once `setScale` has written a transform without a readable translate
   * (`translate(nullpx, nullpx)`), no drag changes it.
   */
  lemma DragAfterUnsetScale(t: Transform, s: real, sx: real, sy: real, cx: real, cy: real, scale: real)
    requires GetTranslate(t).0.None?
    ensures DragResult(Scaled(t, s), sx, sy, cx, cy, scale) == Scaled(t, s)
  {
  }
}
