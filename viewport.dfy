/** The view onto the complex plane: how many pixels make one unit
    (`zoomFactor`) and where the top-left corner lies. Pixel column `x`
    shows real part `x / zoomFactor + topLeftX`, pixel row `y` shows
    imaginary part `y / zoomFactor - topLeftY`. Doubles are modelled as
    reals. */
module Viewport {
  import opened Config

  type PosReal = r: real | r > 0.0 witness 1.0

  datatype View = View(zoomFactor: PosReal, topLeftX: real, topLeftY: real)

  const DefaultView := View(DefaultZoom, DefaultTopLeftX, DefaultTopLeftY)

  /** One sixth of the frame, in pixels: the distance of one pan. */
  const PanColumns: real := Width as real / 6.0
  const PanRows: real := Height as real / 6.0

  /** The centre pixel a zoom re-centres on; the source divides the frame
      size by 2 in `int` arithmetic. */
  const CentreX: real := (Width / 2) as real
  const CentreY: real := (Height / 2) as real

  /** getXPos: the real part shown in pixel column `x`. */
  function XPos(v: View, x: real): (re: real)
    ensures PixelX(v, re) == x
  {
    x / v.zoomFactor + v.topLeftX
  }

  /** getYPos: the imaginary part shown in pixel row `y`. */
  function YPos(v: View, y: real): (im: real)
    ensures PixelY(v, im) == y
  {
    y / v.zoomFactor - v.topLeftY
  }

  /** The pixel column that shows real part `re`. */
  function PixelX(v: View, re: real): real {
    (re - v.topLeftX) * v.zoomFactor
  }

  /** The pixel row that shows imaginary part `im`. */
  function PixelY(v: View, im: real): real {
    (im + v.topLeftY) * v.zoomFactor
  }

  /** The mappings are onto: every point of the plane has its pixel. */
  lemma XPosOfPixelX(v: View, re: real)
    ensures XPos(v, PixelX(v, re)) == re
  {
  }

  lemma YPosOfPixelY(v: View, im: real)
    ensures YPos(v, PixelY(v, im)) == im
  {
  }

  /** moveUp: row `y` now shows what row `y - Height/6` showed. */
  function PanUp(v: View): (r: View)
    ensures r.zoomFactor == v.zoomFactor && r.topLeftX == v.topLeftX
    ensures forall y :: YPos(r, y) == YPos(v, y - PanRows)
  {
    var curHeight := Height as real / v.zoomFactor;
    v.(topLeftY := v.topLeftY + curHeight / 6.0)
  }

  /** moveDown: row `y` now shows what row `y + Height/6` showed. */
  function PanDown(v: View): (r: View)
    ensures r.zoomFactor == v.zoomFactor && r.topLeftX == v.topLeftX
    ensures forall y :: YPos(r, y) == YPos(v, y + PanRows)
  {
    var curHeight := Height as real / v.zoomFactor;
    v.(topLeftY := v.topLeftY - curHeight / 6.0)
  }

  /** moveLeft: column `x` now shows what column `x - Width/6` showed. */
  function PanLeft(v: View): (r: View)
    ensures r.zoomFactor == v.zoomFactor && r.topLeftY == v.topLeftY
    ensures forall x :: XPos(r, x) == XPos(v, x - PanColumns)
  {
    var curWidth := Width as real / v.zoomFactor;
    v.(topLeftX := v.topLeftX - curWidth / 6.0)
  }

  /** moveRight: column `x` now shows what column `x + Width/6` showed. */
  function PanRight(v: View): (r: View)
    ensures r.zoomFactor == v.zoomFactor && r.topLeftY == v.topLeftY
    ensures forall x :: XPos(r, x) == XPos(v, x + PanColumns)
  {
    var curWidth := Width as real / v.zoomFactor;
    v.(topLeftX := v.topLeftX + curWidth / 6.0)
  }

  /** adjustZoom: the point under pixel (`newX`, `newY`) moves to the
      centre pixel and the scale becomes `newZoomFactor`. The four offset
      updates run in the source's order: the first two divide by the old
      zoom factor, the last two by the new one. */
  function ZoomAt(v: View, newX: real, newY: real, newZoomFactor: PosReal): (r: View)
    ensures r.zoomFactor == newZoomFactor
    ensures XPos(r, CentreX) == XPos(v, newX)
    ensures YPos(r, CentreY) == YPos(v, newY)
  {
    var x1 := v.topLeftX + newX / v.zoomFactor;
    var y1 := v.topLeftY - newY / v.zoomFactor;
    View(newZoomFactor, x1 - (Width / 2) as real / newZoomFactor, y1 + (Height / 2) as real / newZoomFactor)
  }

  /** Over the reals a pan is undone by the opposite pan. */
  lemma PanUpThenDown(v: View)
    ensures PanDown(PanUp(v)) == v
  {
  }

  lemma PanRightThenLeft(v: View)
    ensures PanLeft(PanRight(v)) == v
  {
  }

  /** A left click (zoom factor doubled) followed by a right click (halved)
      at the same pixel restores the scale but moves the corner by
      (3/2 * pixel - 675) / zoomFactor on each axis: the view comes back
      only when both clicks hit the centre pixel (450, 450). */
  lemma ZoomInThenOut(v: View, x: real, y: real)
    ensures var r := ZoomAt(ZoomAt(v, x, y, v.zoomFactor * 2.0), x, y, (v.zoomFactor * 2.0) / 2.0);
      && r.zoomFactor == v.zoomFactor
      && r.topLeftX == v.topLeftX + (1.5 * x - 675.0) / v.zoomFactor
      && r.topLeftY == v.topLeftY - (1.5 * y - 675.0) / v.zoomFactor
      && (r == v <==> x == CentreX && y == CentreY)
  {
    var z := v.zoomFactor;
    ZoomInThenOutX(v, x, y);
    ZoomInThenOutY(v, x, y);
    DivByPositiveIsZero(1.5 * x - 675.0, z);
    DivByPositiveIsZero(1.5 * y - 675.0, z);
  }

  lemma ZoomInThenOutX(v: View, x: real, y: real)
    ensures var r := ZoomAt(ZoomAt(v, x, y, v.zoomFactor * 2.0), x, y, (v.zoomFactor * 2.0) / 2.0);
      r.topLeftX == v.topLeftX + (1.5 * x - 675.0) / v.zoomFactor
  {
    var z := v.zoomFactor;
    var z2: PosReal := z * 2.0;
    assert z2 / 2.0 == z;
    var r1 := ZoomAt(v, x, y, z2);
    assert x / z2 == (x / z) / 2.0 && 450.0 / z2 == 225.0 / z;
    assert r1.topLeftX == v.topLeftX + x / z - 225.0 / z;
    assert (1.5 * x - 675.0) / z == 1.5 * (x / z) - 675.0 / z;
  }

  lemma ZoomInThenOutY(v: View, x: real, y: real)
    ensures var r := ZoomAt(ZoomAt(v, x, y, v.zoomFactor * 2.0), x, y, (v.zoomFactor * 2.0) / 2.0);
      r.topLeftY == v.topLeftY - (1.5 * y - 675.0) / v.zoomFactor
  {
    var z := v.zoomFactor;
    var z2: PosReal := z * 2.0;
    assert z2 / 2.0 == z;
    var r1 := ZoomAt(v, x, y, z2);
    assert y / z2 == (y / z) / 2.0 && 450.0 / z2 == 225.0 / z;
    assert r1.topLeftY == v.topLeftY - y / z + 225.0 / z;
    assert (1.5 * y - 675.0) / z == 1.5 * (y / z) - 675.0 / z;
  }

  lemma DivByPositiveIsZero(a: real, z: PosReal)
    ensures a / z == 0.0 <==> a == 0.0
  {
  }
}
