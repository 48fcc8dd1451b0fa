/** The fractal explorer window: the view it holds, the frame buffer it
    renders into, and the pan and zoom actions that change the view and
    render again. */
module Explorer {
  import opened Config
  import opened Quantizer
  import opened Evaluator
  import opened Viewport

  /** The colour of pixel (`x`, `y`) under view `v`: map the pixel to the
      plane, count the iterations, quantise. Black exactly for the pixels
      whose point is counted as inside the set. */
  function Pixel(v: View, x: int, y: int): (color: bv32)
    ensures color == Black <==> EscapeTime(Complex(XPos(v, x as real), YPos(v, y as real))) == MaxIter
  {
    var cr := XPos(v, x as real);
    var ci := YPos(v, y as real);
    MakeColor(EscapeTime(Complex(cr, ci)))
  }

  /** Pixel (0, 0) shows the top-left corner. For the start-up corner
      (-2, 1.5), at any zoom, that is c = (-2, -1.5), which escapes after
      one step: count 1, shift 0, colour Base | Mask = 0x6E1D7F. */
  lemma DefaultCornerPixel(v: View)
    requires v.topLeftX == DefaultTopLeftX && v.topLeftY == DefaultTopLeftY
    ensures Pixel(v, 0, 0) == Base | Mask
  {
    PixelShowsPoint(v, 0, 0, Complex(-2.0, -1.5));
    CornerEscapesAfterOneStep();
    FirstBlockColor(1);
  }

  lemma PixelShowsPoint(v: View, x: int, y: int, c: Complex)
    requires c == Complex(XPos(v, x as real), YPos(v, y as real))
    ensures Pixel(v, x, y) == MakeColor(EscapeTime(c))
  {
  }

  /** A pixel that shows the origin is black, whatever the view. */
  lemma OriginPixelIsBlack(v: View, x: int, y: int)
    requires XPos(v, x as real) == 0.0 && YPos(v, y as real) == 0.0
    ensures Pixel(v, x, y) == Black
  {
    PixelShowsPoint(v, x, y, Origin);
    OriginIsInside();
  }

  /** Pixel (600, 450) of the start-up view shows the origin: black. */
  lemma DefaultOriginPixelIsBlack(v: View)
    requires v.zoomFactor == DefaultZoom
    requires v.topLeftX == DefaultTopLeftX && v.topLeftY == DefaultTopLeftY
    ensures Pixel(v, 600, 450) == Black
  {
    OriginPixelIsBlack(v, 600, 450);
  }

  /** After a pan up, row `y` repeats row `y - Height/6` of the old view. */
  lemma PanUpShiftsRows(v: View, x: int, y: int)
    ensures Pixel(PanUp(v), x, y) == Pixel(v, x, y - Height / 6)
  {
    assert (y - Height / 6) as real == y as real - PanRows;
  }

  /** After a pan down, row `y` repeats row `y + Height/6` of the old view. */
  lemma PanDownShiftsRows(v: View, x: int, y: int)
    ensures Pixel(PanDown(v), x, y) == Pixel(v, x, y + Height / 6)
  {
    assert (y + Height / 6) as real == y as real + PanRows;
  }

  /** After a pan left, column `x` repeats column `x - Width/6` of the old view. */
  lemma PanLeftShiftsColumns(v: View, x: int, y: int)
    ensures Pixel(PanLeft(v), x, y) == Pixel(v, x - Width / 6, y)
  {
    assert (x - Width / 6) as real == x as real - PanColumns;
  }

  /** After a pan right, column `x` repeats column `x + Width/6` of the old view. */
  lemma PanRightShiftsColumns(v: View, x: int, y: int)
    ensures Pixel(PanRight(v), x, y) == Pixel(v, x + Width / 6, y)
  {
    assert (x + Width / 6) as real == x as real + PanColumns;
  }

  /** The MandelBrot frame: the view fields, updated in place, and the
      WIDTH x HEIGHT image the view is rendered into. */
  class MandelBrot {
    var zoomFactor: PosReal
    var topLeftX: real
    var topLeftY: real
    const fractalImage: array2<bv32>

    /** The view the fields describe. */
    function CurrentView(): View
      reads this
    {
      Viewport.View(zoomFactor, topLeftX, topLeftY)
    }

    ghost predicate Valid()
      reads this
    {
      fractalImage.Length0 == Width && fractalImage.Length1 == Height
    }

    /** Every pixel of the image holds the colour of the current view. */
    ghost predicate Rendered()
      reads this, fractalImage
      requires Valid()
    {
      forall x, y :: 0 <= x < Width && 0 <= y < Height ==> fractalImage[x, y] == Pixel(CurrentView(), x, y)
    }

    /** Start with the default view and a rendered image. */
    constructor ()
      ensures Valid() && fresh(fractalImage)
      ensures CurrentView() == DefaultView
      ensures Rendered()
    {
      zoomFactor := DefaultZoom;
      topLeftX := DefaultTopLeftX;
      topLeftY := DefaultTopLeftY;
      fractalImage := new bv32[Width, Height];
      new;
      UpdateFractal();
    }

    /** updateFractal: render every pixel, column by column. The view is
        not changed. */
    method UpdateFractal()
      requires Valid()
      modifies fractalImage
      ensures Valid()
      ensures Rendered()
      ensures unchanged(this)
    {
      for x := 0 to Width
        invariant forall i, j :: 0 <= i < x && 0 <= j < Height ==> fractalImage[i, j] == Pixel(CurrentView(), i, j)
      {
        for y := 0 to Height
          invariant forall i, j :: 0 <= i < x && 0 <= j < Height ==> fractalImage[i, j] == Pixel(CurrentView(), i, j)
          invariant forall j :: 0 <= j < y ==> fractalImage[x, j] == Pixel(CurrentView(), x, j)
        {
          var cr := XPos(CurrentView(), x as real);
          var ci := YPos(CurrentView(), y as real);
          var iterCount, _ := ComputeIterations(cr, ci);
          var pixelColor := MakeColor(iterCount);
          fractalImage[x, y] := pixelColor;
        }
      }
    }

    /** moveUp: shift the view up by one sixth of its height, then render. */
    method MoveUp()
      requires Valid()
      modifies this`topLeftY, fractalImage
      ensures Valid()
      ensures CurrentView() == PanUp(old(CurrentView()))
      ensures Rendered()
    {
      var curHeight := Height as real / zoomFactor;
      topLeftY := topLeftY + curHeight / 6.0;
      UpdateFractal();
    }

    /** moveDown: shift the view down by one sixth of its height, then render. */
    method MoveDown()
      requires Valid()
      modifies this`topLeftY, fractalImage
      ensures Valid()
      ensures CurrentView() == PanDown(old(CurrentView()))
      ensures Rendered()
    {
      var curHeight := Height as real / zoomFactor;
      topLeftY := topLeftY - curHeight / 6.0;
      UpdateFractal();
    }

    /** moveLeft: shift the view left by one sixth of its width, then render. */
    method MoveLeft()
      requires Valid()
      modifies this`topLeftX, fractalImage
      ensures Valid()
      ensures CurrentView() == PanLeft(old(CurrentView()))
      ensures Rendered()
    {
      var curWidth := Width as real / zoomFactor;
      topLeftX := topLeftX - curWidth / 6.0;
      UpdateFractal();
    }

    /** moveRight: shift the view right by one sixth of its width, then render. */
    method MoveRight()
      requires Valid()
      modifies this`topLeftX, fractalImage
      ensures Valid()
      ensures CurrentView() == PanRight(old(CurrentView()))
      ensures Rendered()
    {
      var curWidth := Width as real / zoomFactor;
      topLeftX := topLeftX + curWidth / 6.0;
      UpdateFractal();
    }

    /** Canvas.adjustZoom: bring the point under (`newX`, `newY`) to the
        centre at scale `newZoomFactor`, then render. */
    method AdjustZoom(newX: real, newY: real, newZoomFactor: PosReal)
      requires Valid()
      modifies this`zoomFactor, this`topLeftX, this`topLeftY, fractalImage
      ensures Valid()
      ensures CurrentView() == ZoomAt(old(CurrentView()), newX, newY, newZoomFactor)
      ensures Rendered()
    {
      topLeftX := topLeftX + newX / zoomFactor;
      topLeftY := topLeftY - newY / zoomFactor;
      zoomFactor := newZoomFactor;
      topLeftX := topLeftX - (Width / 2) as real / zoomFactor;
      topLeftY := topLeftY + (Height / 2) as real / zoomFactor;
      UpdateFractal();
    }

    /** Canvas.mousePressed: the left button zooms in (factor doubled), the
        right button zooms out (factor halved), any other button does
        nothing. */
    method MousePressed(button: int, mouseX: int, mouseY: int)
      requires Valid()
      modifies this`zoomFactor, this`topLeftX, this`topLeftY, fractalImage
      ensures Valid()
      ensures button == Button1 ==> CurrentView() == ZoomAt(old(CurrentView()), mouseX as real, mouseY as real, old(zoomFactor) * 2.0)
      ensures button == Button3 ==> CurrentView() == ZoomAt(old(CurrentView()), mouseX as real, mouseY as real, old(zoomFactor) / 2.0)
      ensures button != Button1 && button != Button3 ==> CurrentView() == old(CurrentView()) && unchanged(fractalImage)
      ensures button == Button1 || button == Button3 ==> Rendered()
    {
      var x := mouseX as real;
      var y := mouseY as real;
      if button == Button1 {
        AdjustZoom(x, y, zoomFactor * 2.0);
      } else if button == Button3 {
        AdjustZoom(x, y, zoomFactor / 2.0);
      }
    }
  }
}
