// The RoundedImageView view: its fields and its two radii arrays, updated in place, each method
// proved against RoundedGeometry.

module RoundedImage {
  import opened Wrappers
  import opened Jvm
  import opened Graphics
  import opened RoundedGeometry

  class RoundedImageView {
    // Fixed at construction: the padding and the `borderOverlay` and `supportRounded` attributes.
    const padding: Padding
    const borderOverlay: bool
    const supportRounded: bool

    var haveFrame: bool
    var bitmap: Option<Bitmap>
    /** The bounds the base class's `setFrame` records. */
    var frame: Rect
    var borderSize: int
    /** The border paint's colour. */
    var borderColor: int
    var isCircle: bool
    /** The base class's scale type. */
    var scaleType: ScaleType
    /** The two Path radii arrays, eight slots each, two per corner. */
    const borderRadii: array<real>
    const drawableRadii: array<real>
    var borderRect: RectF
    var drawableRect: RectF
    var circleBorderRadius: real
    var circleDrawableRadius: real
    /** The bitmap the shader was created for, and the shader's local matrix. */
    var shader: Option<Bitmap>
    var matrix: Option<Transform>

    predicate Valid() {
      borderRadii.Length == 8 && drawableRadii.Length == 8 && borderRadii != drawableRadii
    }

    function Params(): RoundedGeometry.Config {
      RoundedGeometry.Config(padding, borderOverlay, supportRounded)
    }

    function Snapshot(): RoundedGeometry.State
      reads this, borderRadii, drawableRadii
    {
      RoundedGeometry.State(haveFrame, bitmap, frame, borderSize, borderColor, isCircle, scaleType,
                            borderRadii[..], drawableRadii[..], borderRect, drawableRect,
                            circleBorderRadius, circleDrawableRadius, shader, matrix)
    }

    /**
     * The view after construction from its attributes: both radii arrays hold the corner attributes
     * (in the order the constructor passes them), `roundRadius` is the initial circle image radius,
     * and the drawable the base class was given has been taken.
     */
    constructor (padding: Padding, borderOverlay: bool, supportRounded: bool, borderColor: int,
                 borderSize: int, isCircle: bool, roundRadius: real, topLeft: real, topRight: real,
                 bottomLeft: real, bottomRight: real, drawable: Drawable)
      ensures Valid() && fresh(borderRadii) && fresh(drawableRadii)
      ensures Params() == RoundedGeometry.Config(padding, borderOverlay, supportRounded)
      ensures Snapshot() ==
                RoundedGeometry.InitBitmap(Params(),
                           RoundedGeometry.State(false, None, Rect(0, 0, 0, 0), borderSize, borderColor, isCircle,
                                                 CenterCrop,
                                                 ConstructorRadii(topLeft, topRight, bottomLeft, bottomRight),
                                                 ConstructorRadii(topLeft, topRight, bottomLeft, bottomRight),
                                                 RectF(0.0, 0.0, 0.0, 0.0), RectF(0.0, 0.0, 0.0, 0.0),
                                                 0.0, roundRadius, None, None),
                           drawable)
    {
      this.padding, this.borderOverlay, this.supportRounded := padding, borderOverlay, supportRounded;
      haveFrame, bitmap, frame := false, None, Rect(0, 0, 0, 0);
      scaleType := CenterCrop;
      borderRect, drawableRect := RectF(0.0, 0.0, 0.0, 0.0), RectF(0.0, 0.0, 0.0, 0.0);
      shader, matrix := None, None;
      this.borderColor := 0xFF00_0000;
      this.borderSize := borderSize;
      this.isCircle := isCircle;
      circleBorderRadius, circleDrawableRadius := 0.0, roundRadius;
      drawableRadii := new real[8](_ => 0.0);
      borderRadii := new real[8](_ => 0.0);
      new;
      SetCornerRadii(topLeft, topRight, bottomLeft, bottomRight);
      SetBorderColor(borderColor);
      InitBitmap(drawable);
    }

    /** `updateRadii`: writes the four corner radii into `cornerRadii`, both slots each. */
    static method UpdateRadii(cornerRadii: array<real>, topLeft: real, topRight: real, bottomRight: real, bottomLeft: real)
      requires cornerRadii.Length == 8
      modifies cornerRadii
      ensures cornerRadii[..] == CornerRadii(topLeft, topRight, bottomRight, bottomLeft)
    {
      cornerRadii[TOP_LEFT], cornerRadii[TOP_LEFT + 1] := topLeft, topLeft;
      cornerRadii[TOP_RIGHT], cornerRadii[TOP_RIGHT + 1] := topRight, topRight;
      cornerRadii[BOTTOM_RIGHT], cornerRadii[BOTTOM_RIGHT + 1] := bottomRight, bottomRight;
      cornerRadii[BOTTOM_LEFT], cornerRadii[BOTTOM_LEFT + 1] := bottomLeft, bottomLeft;
    }

    /** `updateDrawableMatrix`, for the image rectangle's current size. */
    method UpdateDrawableMatrix(width: real, height: real)
      requires bitmap.Some? && width == drawableRect.Width() && height == drawableRect.Height()
      modifies this
      ensures Snapshot().(matrix := old(matrix)) == old(Snapshot())
      ensures bitmap.Some? && matrix == DrawableMatrix(bitmap.value, drawableRect, old(matrix))
    {
      var bitmapWidth, bitmapHeight := bitmap.value.width, bitmap.value.height;
      if bitmapWidth <= 0 || bitmapHeight <= 0 {
        return;
      }
      var w, h := bitmapWidth as real, bitmapHeight as real;
      var scale: real;
      var dx, dy := 0.0, 0.0;
      ghost var crop := CenterCropScale(bitmapWidth, bitmapHeight, width, height);
      if w * height > width * h {
        scale := height / h;
        dx := (width - w * scale) * 0.5;
        assert crop.scale == scale && crop.dy == 0.0;
        assert 2.0 * crop.dx + w * scale == width;
      } else {
        scale := width / w;
        dy := (height - h * scale) * 0.5;
        assert crop == CropScale(scale, 0.0, (height - h * scale) * 0.5);
      }
      matrix := Some(Transform(scale, TruncToInt(dx + 0.5) as real + drawableRect.left,
                               TruncToInt(dy + 0.5) as real + drawableRect.top));
    }

    /** The rectangle and radii half of `updateDrawable`. */
    method UpdateBounds()
      requires Valid()
      modifies this, drawableRadii
      ensures Snapshot() == old(Snapshot()).(borderRect := BorderRect(Params(), old(Snapshot())),
                                            drawableRect := DrawableRect(Params(), old(Snapshot())),
                                            drawableRadii := DrawableRadii(Params(), old(Snapshot())))
    {
      ghost var c, s := Params(), Snapshot();
      borderRect := CalculateBounds(frame.Width(), frame.bottom - frame.top, padding);
      drawableRect := borderRect;
      assert borderRect == BorderRect(c, s);
      if !borderOverlay && borderSize > 0 {
        if !isCircle {
          var offset := borderSize as real / 2.0;
          drawableRect := drawableRect.Inset(offset, offset);
          UpdateRadii(drawableRadii, borderRadii[TOP_LEFT] - offset, borderRadii[TOP_RIGHT] - offset,
                      borderRadii[BOTTOM_RIGHT] - offset, borderRadii[BOTTOM_LEFT] - offset);
          assert drawableRadii[..] == DrawableRadii(c, s);
        } else {
          drawableRect := drawableRect.Inset(borderSize as real, borderSize as real);
        }
      }
      assert drawableRect == DrawableRect(c, s);
    }

    method UpdateDrawable()
      requires Valid()
      modifies this, drawableRadii
      ensures Snapshot() == RoundedGeometry.UpdateDrawable(Params(), old(Snapshot()))
    {
      if bitmap.None? || !haveFrame {
        return;
      }
      ghost var c, s := Params(), Snapshot();
      if shader.None? {
        shader := bitmap;
      }
      ghost var s1 := Snapshot();
      assert s1 == s.(shader := if s.shader.None? then s.bitmap else s.shader);
      UpdateBounds();
      assert BorderRect(c, s1) == BorderRect(c, s) && DrawableRect(c, s1) == DrawableRect(c, s);
      assert DrawableRadii(c, s1) == DrawableRadii(c, s);
      if isCircle {
        UpdateCircleRadii();
        assert circleBorderRadius == CircleBorderRadius(c, s);
        assert circleDrawableRadius == CircleDrawableRadius(c, s);
      }
      UpdateDrawableMatrix(drawableRect.Width(), drawableRect.Height());
    }

    /** The circle half of `updateDrawable`: both radii from the rectangles just computed. */
    method UpdateCircleRadii()
      requires Valid()
      modifies this
      ensures Snapshot() == old(Snapshot()).(
                circleBorderRadius := MinReal((borderRect.Width() - borderSize as real) / 2.0,
                                              (borderRect.Height() - borderSize as real) / 2.0),
                circleDrawableRadius := MinReal(drawableRect.Width() / 2.0, drawableRect.Height() / 2.0))
    {
      circleBorderRadius := MinReal((borderRect.Width() - borderSize as real) / 2.0,
                                    (borderRect.Height() - borderSize as real) / 2.0);
      circleDrawableRadius := MinReal(drawableRect.Width() / 2.0, drawableRect.Height() / 2.0);
    }

    method SetTopLeftRadii(radius: real)
      requires Valid()
      modifies this, borderRadii, drawableRadii
      ensures Snapshot() == SetCornerRadius(Params(), old(Snapshot()), TOP_LEFT, radius)
    {
      borderRadii[TOP_LEFT], borderRadii[TOP_LEFT + 1] := radius, radius;
      drawableRadii[TOP_LEFT], drawableRadii[TOP_LEFT + 1] := radius, radius;
      UpdateDrawable();
    }

    method SetTopRightRadii(radius: real)
      requires Valid()
      modifies this, borderRadii, drawableRadii
      ensures Snapshot() == SetCornerRadius(Params(), old(Snapshot()), TOP_RIGHT, radius)
    {
      borderRadii[TOP_RIGHT], borderRadii[TOP_RIGHT + 1] := radius, radius;
      drawableRadii[TOP_RIGHT], drawableRadii[TOP_RIGHT + 1] := radius, radius;
      UpdateDrawable();
    }

    method SetBottomLeftRadii(radius: real)
      requires Valid()
      modifies this, borderRadii, drawableRadii
      ensures Snapshot() == SetCornerRadius(Params(), old(Snapshot()), BOTTOM_LEFT, radius)
    {
      borderRadii[BOTTOM_LEFT], borderRadii[BOTTOM_LEFT + 1] := radius, radius;
      drawableRadii[BOTTOM_LEFT], drawableRadii[BOTTOM_LEFT + 1] := radius, radius;
      UpdateDrawable();
    }

    method SetBottomRightRadii(radius: real)
      requires Valid()
      modifies this, borderRadii, drawableRadii
      ensures Snapshot() == SetCornerRadius(Params(), old(Snapshot()), BOTTOM_RIGHT, radius)
    {
      borderRadii[BOTTOM_RIGHT], borderRadii[BOTTOM_RIGHT + 1] := radius, radius;
      drawableRadii[BOTTOM_RIGHT], drawableRadii[BOTTOM_RIGHT + 1] := radius, radius;
      UpdateDrawable();
    }

    method SetCornerRadii(topLeft: real, topRight: real, bottomRight: real, bottomLeft: real)
      requires Valid()
      modifies this, borderRadii, drawableRadii
      ensures Snapshot() == RoundedGeometry.SetCornerRadii(Params(), old(Snapshot()), topLeft, topRight, bottomRight, bottomLeft)
    {
      UpdateRadii(borderRadii, topLeft, topRight, bottomRight, bottomLeft);
      UpdateRadii(drawableRadii, topLeft, topRight, bottomRight, bottomLeft);
      UpdateDrawable();
    }

    method SetBorderColor(color: int)
      modifies this
      ensures Snapshot() == RoundedGeometry.SetBorderColor(old(Snapshot()), color)
    {
      if borderColor != color {
        borderColor := color;
      }
    }

    method SetBorderSize(size: int)
      requires Valid()
      modifies this, drawableRadii
      ensures Snapshot() == RoundedGeometry.SetBorderSize(Params(), old(Snapshot()), size)
    {
      if borderSize != size {
        borderSize := size;
        UpdateDrawable();
      }
    }

    method SetCircle(circle: bool)
      requires Valid()
      modifies this, drawableRadii
      ensures Snapshot() == RoundedGeometry.SetCircle(Params(), old(Snapshot()), circle)
    {
      if isCircle != circle {
        isCircle := circle;
        UpdateDrawable();
      }
    }

    method SetScaleType(scaleType: ScaleType)
      modifies this
      ensures Snapshot() == RoundedGeometry.SetScaleType(Params(), old(Snapshot()), scaleType)
    {
      if !supportRounded {
        this.scaleType := scaleType;
      }
    }

    function GetScaleType(): ScaleType
      reads this, borderRadii, drawableRadii
    {
      RoundedGeometry.GetScaleType(Params(), Snapshot())
    }

    /** `setFrame`: returns whether the bounds changed, as the base class reports it. */
    method SetFrame(l: int, t: int, r: int, b: int) returns (changed: bool)
      requires Valid()
      modifies this, drawableRadii
      ensures changed == (old(frame) != Rect(l, t, r, b))
      ensures Snapshot() == RoundedGeometry.SetFrame(Params(), old(Snapshot()), Rect(l, t, r, b))
    {
      changed := frame != Rect(l, t, r, b);
      frame := Rect(l, t, r, b);
      haveFrame := true;
      UpdateDrawable();
    }

    /** `initBitmap`, run by the constructor and by `setImageBitmap`, `setImageResource` and `setImageDrawable`. */
    method InitBitmap(drawable: Drawable)
      requires Valid()
      modifies this, drawableRadii
      ensures Snapshot() == RoundedGeometry.InitBitmap(Params(), old(Snapshot()), drawable)
    {
      match drawable {
        case NoDrawable =>
          bitmap := None;
          return;
        case BitmapDrawable(b) =>
          bitmap := b;
        case ColorDrawable =>
          bitmap := Some(Bitmap(COLOR_DRAWABLE_SIZE, COLOR_DRAWABLE_SIZE));
          shader := None;
        case OtherDrawable(w, h) =>
          if w <= 0 || h <= 0 {
            return;
          }
          bitmap := Some(Bitmap(w, h));
          shader := None;
      }
      UpdateDrawable();
    }

    /** `setImageBitmap`: the base class wraps the bitmap in a BitmapDrawable. */
    method SetImageBitmap(bm: Option<Bitmap>)
      requires Valid()
      modifies this, drawableRadii
      ensures Snapshot() == RoundedGeometry.InitBitmap(Params(), old(Snapshot()), BitmapDrawable(bm))
    {
      InitBitmap(BitmapDrawable(bm));
    }
  }
}
