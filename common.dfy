/** Context-menu placement (components/common.js): the menu opens at the
    cursor plus an offset and is pulled back left or up when it would cross
    the window's edge minus a padding. Pixel quantities are integers. */
module Common {
  import opened Wrappers
  import opened Text

  function Default(v: Option<int>, d: int): int { if v.Some? then v.value else d }

  /** The placement `placeMenu` computes for a menu of size (width, height). */
  function Placement(ex: int, ey: int, width: int, height: int, xOffset: int, yOffset: int,
                     xWindowPad: int, yWindowPad: int, innerWidth: int, innerHeight: int): (p: (int, int))
    // a target that fits is kept
    ensures ex + xOffset + width + xWindowPad <= innerWidth ==> p.0 == ex + xOffset
    ensures ey + yOffset + height + yWindowPad <= innerHeight ==> p.1 == ey + yOffset
    // otherwise the menu ends exactly at the padded edge
    ensures ex + xOffset + width + xWindowPad > innerWidth ==> p.0 + width + xWindowPad == innerWidth
    ensures ey + yOffset + height + yWindowPad > innerHeight ==> p.1 + height + yWindowPad == innerHeight
    // either way it fits, and it never moves right or down
    ensures p.0 + width + xWindowPad <= innerWidth && p.0 <= ex + xOffset
    ensures p.1 + height + yWindowPad <= innerHeight && p.1 <= ey + yOffset
  {
    var x := ex + xOffset;
    var y := ey + yOffset;
    (if x + width + xWindowPad > innerWidth then innerWidth - width - xWindowPad else x,
     if y + height + yWindowPad > innerHeight then innerHeight - height - yWindowPad else y)
  }

  /** There is no lower clamp: a menu wider than the window is placed at a
      negative x. */
  lemma NoLowerClamp()
    ensures Placement(10, 10, 500, 100, 0, 0, 20, 70, 300, 800).0 == -220
  {
  }

  /** The parts of the menu element `placeMenu` touches. */
  class Elem {
    const offsetWidth: int
    const offsetHeight: int
    var left: string
    var top: string

    constructor (w: int, h: int)
      ensures offsetWidth == w && offsetHeight == h && left == "" && top == ""
    {
      offsetWidth, offsetHeight := w, h;
      left, top := "", "";
    }
  }

  /** `placeMenu(event, elem, xOffset, yOffset, xWindowPad, yWindowPad)` with
      the defaults 0, 0, 20 and 70; only the element's left and top change. */
  method PlaceMenu(ex: int, ey: int, elem: Elem, xOffset: Option<int>, yOffset: Option<int>,
                   xWindowPad: Option<int>, yWindowPad: Option<int>, innerWidth: int, innerHeight: int)
    modifies elem`left, elem`top
    ensures var p := Placement(ex, ey, elem.offsetWidth, elem.offsetHeight, Default(xOffset, 0), Default(yOffset, 0),
                               Default(xWindowPad, 20), Default(yWindowPad, 70), innerWidth, innerHeight);
      elem.left == IntToString(p.0) + "px" && elem.top == IntToString(p.1) + "px"
  {
    var xPad := Default(xWindowPad, 20);
    var yPad := Default(yWindowPad, 70);
    var xTarget := ex + Default(xOffset, 0);
    var yTarget := ey + Default(yOffset, 0);
    if xTarget + elem.offsetWidth + xPad > innerWidth {
      xTarget := innerWidth - elem.offsetWidth - xPad;
    }
    if yTarget + elem.offsetHeight + yPad > innerHeight {
      yTarget := innerHeight - elem.offsetHeight - yPad;
    }
    elem.left := IntToString(xTarget) + "px";
    elem.top := IntToString(yTarget) + "px";
  }
}
