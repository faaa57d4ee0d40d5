// The CircleImageView view: its fields, updated in place, each method proved against CircleGeometry.

module CircleImage {
  import opened Wrappers
  import opened Jvm
  import opened Graphics
  import opened CircleGeometry

  class CircleImageView {
    // Fixed at construction: the padding and the `borderOverly` attribute.
    const padding: Padding
    const borderOverlay: bool

    var haveFrame: bool
    var bitmap: Option<Bitmap>
    /** The size the base class's measure pass recorded. */
    var measuredWidth: int
    var measuredHeight: int
    var borderSize: int
    var borderColor: int
    var borderRect: RectF
    var bitmapRect: RectF
    var borderRadius: real
    var bitmapRadius: real
    /** The bitmap the shader was created for, and the shader's local matrix. */
    var shader: Option<Bitmap>
    var matrix: Option<Transform>

    function Params(): CircleGeometry.Config {
      CircleGeometry.Config(padding, borderOverlay)
    }

    function Snapshot(): CircleGeometry.State
      reads this
    {
      CircleGeometry.State(haveFrame, bitmap, measuredWidth, measuredHeight, borderSize, borderColor,
                           borderRect, bitmapRect, borderRadius, bitmapRadius, shader, matrix)
    }

    /** The view after construction: the border attributes are stored and the drawable is taken. */
    constructor (padding: Padding, borderOverlay: bool, borderColor: int, borderSize: int, drawable: Drawable)
      ensures Params() == CircleGeometry.Config(padding, borderOverlay)
      ensures Snapshot() ==
                CircleGeometry.InitBitmap(Params(),
                  CircleGeometry.State(false, None, 0, 0, borderSize, borderColor, RectF(0.0, 0.0, 0.0, 0.0),
                                       RectF(0.0, 0.0, 0.0, 0.0), 0.0, 0.0, None, None),
                  drawable)
      ensures ShaderCurrent(Snapshot())
    {
      this.padding, this.borderOverlay := padding, borderOverlay;
      haveFrame, bitmap := false, None;
      measuredWidth, measuredHeight := 0, 0;
      this.borderColor, this.borderSize := borderColor, borderSize;
      borderRect, bitmapRect := RectF(0.0, 0.0, 0.0, 0.0), RectF(0.0, 0.0, 0.0, 0.0);
      borderRadius, bitmapRadius := 0.0, 0.0;
      shader, matrix := None, None;
      new;
      ghost var initial := Snapshot();
      InitBitmap(drawable);
      InitBitmapTakesBitmap(Params(), initial, drawable);
    }

    /** `getScaleType`: always CENTER_CROP, whatever the base class holds. */
    function GetScaleType(): (t: ScaleType)
      ensures t == CenterCrop
    {
      CenterCrop
    }

    /** The base class's measure pass, which `updateCircleImage` reads through `getMeasuredWidth`/`Height`. */
    method SetMeasuredDimension(width: int, height: int)
      modifies this
      ensures Snapshot() == old(Snapshot()).(measuredWidth := width, measuredHeight := height)
    {
      measuredWidth, measuredHeight := width, height;
    }

    method OnSizeChanged(w: int, h: int, oldw: int, oldh: int)
      modifies this
      ensures Snapshot() == CircleGeometry.OnSizeChanged(Params(), old(Snapshot()))
    {
      haveFrame := true;
      UpdateCircleImage();
    }

    method InitBitmap(drawable: Drawable)
      modifies this
      ensures Snapshot() == CircleGeometry.InitBitmap(Params(), old(Snapshot()), drawable)
    {
      match drawable {
        case NoDrawable =>
          return;
        case BitmapDrawable(b) =>
          bitmap := b;
        case ColorDrawable =>
          bitmap := Some(Bitmap(COLOR_DRAWABLE_SIZE, COLOR_DRAWABLE_SIZE));
        case OtherDrawable(w, h) =>
          if w <= 0 || h <= 0 {
            return;
          }
          bitmap := Some(Bitmap(w, h));
      }
      UpdateCircleImage();
    }

    /** `setImageBitmap`: the base class wraps the bitmap in a BitmapDrawable. */
    method SetImageBitmap(bm: Option<Bitmap>)
      modifies this
      ensures Snapshot() == CircleGeometry.InitBitmap(Params(), old(Snapshot()), BitmapDrawable(bm))
    {
      InitBitmap(BitmapDrawable(bm));
    }

    method UpdateCircleImage()
      modifies this
      ensures Snapshot() == CircleGeometry.UpdateCircleImage(Params(), old(Snapshot()))
    {
      if bitmap.None? || !haveFrame {
        return;
      }
      var availableWidth := measuredWidth - padding.left - padding.right;
      var availableHeight := measuredHeight - padding.top - padding.bottom;
      shader := bitmap;
      borderRect := RectF(padding.left as real, padding.top as real,
                          (padding.left + availableWidth) as real, (padding.top + availableHeight) as real);
      borderRadius := MinReal((borderRect.Width() - borderSize as real) / 2.0,
                              (borderRect.Height() - borderSize as real) / 2.0);
      bitmapRect := borderRect;
      if !borderOverlay && borderSize > 0 {
        bitmapRect := bitmapRect.Inset(borderSize as real, borderSize as real);
      }
      bitmapRadius := MinReal(bitmapRect.Width() / 2.0, bitmapRect.Height() / 2.0);
      UpdateImageMatrix(bitmapRect.Width(), bitmapRect.Height());
    }

    method UpdateImageMatrix(width: real, height: real)
      requires bitmap.Some? && width == bitmapRect.Width() && height == bitmapRect.Height()
      modifies this
      ensures Snapshot().(matrix := old(matrix)) == old(Snapshot())
      ensures bitmap.Some? && matrix == ImageMatrix(bitmap.value, bitmapRect, old(matrix))
    {
      var bitmapWidth, bitmapHeight := bitmap.value.width, bitmap.value.height;
      if bitmapWidth <= 0 || bitmapHeight <= 0 {
        return;
      }
      var w, h := bitmapWidth as real, bitmapHeight as real;
      var scale: real;
      var dx, dy := 0.0, 0.0;
      ghost var crop := CenterCropScale(bitmapWidth, bitmapHeight, width, height);
      if w * height > width * h {
        scale := height / h;
        dx := (width - w * scale) * 0.5;
        assert crop.scale == scale && crop.dy == 0.0;
        assert 2.0 * crop.dx + w * scale == width;
      } else {
        scale := width / w;
        dy := (height - h * scale) * 0.5;
        assert crop == CropScale(scale, 0.0, (height - h * scale) * 0.5);
      }
      matrix := Some(Transform(scale, Round(dx) as real, Round(dy) as real));
    }
  }
}
