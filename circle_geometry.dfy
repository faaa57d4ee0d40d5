// CircleImageView's geometry as pure functions: the border and image rectangles, the two circle
// radii and the shader matrix. The class in circle_image_view.dfy is proved against these.

module CircleGeometry {
  import opened Wrappers
  import opened Jvm
  import opened Graphics

  datatype Config = Config(padding: Padding, borderOverlay: bool)

  /** What `updateCircleImage` reads and writes. */
  datatype State = State(haveFrame: bool, bitmap: Option<Bitmap>, measuredWidth: int, measuredHeight: int,
                         borderSize: int, borderColor: int, borderRect: RectF, bitmapRect: RectF,
                         borderRadius: real, bitmapRadius: real,
                         shader: Option<Bitmap>, matrix: Option<Transform>)

  /** The border is drawn beside the image rather than over it. */
  predicate InsetBorder(c: Config, s: State) {
    !c.borderOverlay && s.borderSize > 0
  }

  /** The border's rectangle: the whole padded area of the measured view (not a square). */
  function BorderRect(c: Config, s: State): (r: RectF)
    ensures r.left == c.padding.left as real && r.top == c.padding.top as real
    ensures r.Width() == (s.measuredWidth - c.padding.left - c.padding.right) as real
    ensures r.Height() == (s.measuredHeight - c.padding.top - c.padding.bottom) as real
  {
    var p := c.padding;
    var availableWidth := s.measuredWidth - p.left - p.right;
    var availableHeight := s.measuredHeight - p.top - p.bottom;
    RectF(p.left as real, p.top as real, (p.left + availableWidth) as real, (p.top + availableHeight) as real)
  }

  /** The image's rectangle: the border's, moved inward by the whole border when it is beside the image. */
  function BitmapRect(c: Config, s: State): RectF {
    var b := s.borderSize as real;
    if InsetBorder(c, s) then BorderRect(c, s).Inset(b, b) else BorderRect(c, s)
  }

  /** The radius of the circle the border's stroke is centred on. */
  function BorderRadius(c: Config, s: State): real {
    var b := s.borderSize as real;
    MinReal((BorderRect(c, s).Width() - b) / 2.0, (BorderRect(c, s).Height() - b) / 2.0)
  }

  function BitmapRadius(c: Config, s: State): real {
    MinReal(BitmapRect(c, s).Width() / 2.0, BitmapRect(c, s).Height() / 2.0)
  }

  /**
   * `updateImageMatrix`: centre-crop the bitmap onto the image rectangle, translating by the
   * centring offsets rounded with `Math.round`, and not by the rectangle's origin. A bitmap without
   * a positive size leaves the previous matrix in place.
   */
  function ImageMatrix(bitmap: Bitmap, rect: RectF, previous: Option<Transform>): (m: Option<Transform>)
    ensures bitmap.width <= 0 || bitmap.height <= 0 ==> m == previous
    ensures bitmap.width > 0 && bitmap.height > 0 ==>
              m.Some? && m.value.scale == CenterCropScale(bitmap.width, bitmap.height, rect.Width(), rect.Height()).scale
  {
    if bitmap.width <= 0 || bitmap.height <= 0 then previous
    else
      var crop := CenterCropScale(bitmap.width, bitmap.height, rect.Width(), rect.Height());
      Some(Transform(crop.scale, Round(crop.dx) as real, Round(crop.dy) as real))
  }

  /**
   * `updateCircleImage`. Nothing happens without a bitmap or before the first size change. Otherwise
   * a new shader is made for the current bitmap and the rectangles, radii and matrix are recomputed.
   */
  function UpdateCircleImage(c: Config, s: State): (t: State)
    ensures s.bitmap.None? || !s.haveFrame ==> t == s
  {
    if s.bitmap.None? || !s.haveFrame then s
    else
      s.(shader := s.bitmap, borderRect := BorderRect(c, s), borderRadius := BorderRadius(c, s),
         bitmapRect := BitmapRect(c, s), bitmapRadius := BitmapRadius(c, s),
         matrix := ImageMatrix(s.bitmap.value, BitmapRect(c, s), s.matrix))
  }

  /**
   * The image fills the whole padded area, less the border on every side when the border is beside
   * it, and the shader always draws the bitmap the view holds.
   */
  lemma UpdateGeometry(c: Config, s: State)
    requires s.bitmap.Some? && s.haveFrame
    ensures var t := UpdateCircleImage(c, s);
            var b := s.borderSize as real;
            && t.shader == t.bitmap == s.bitmap
            && t.borderRect.left == c.padding.left as real && t.borderRect.top == c.padding.top as real
            && t.borderRect.right == (s.measuredWidth - c.padding.right) as real
            && t.borderRect.bottom == (s.measuredHeight - c.padding.bottom) as real
            && (InsetBorder(c, s) ==> t.bitmapRect == t.borderRect.Inset(b, b))
            && (!InsetBorder(c, s) ==> t.bitmapRect == t.borderRect)
  {
  }

  /**
   * The border's stroke (centred on its circle, as wide as the border) meets the image's circle
   * exactly when the border is beside the image, and covers the image's outer band otherwise.
   */
  lemma StrokeMeetsImage(c: Config, s: State)
    requires s.bitmap.Some? && s.haveFrame
    ensures var t := UpdateCircleImage(c, s);
            var b := s.borderSize as real;
            && (InsetBorder(c, s) ==> t.borderRadius - b / 2.0 == t.bitmapRadius)
            && (!InsetBorder(c, s) ==> t.borderRadius + b / 2.0 == t.bitmapRadius)
  {
    var b := s.borderSize as real;
    var border := BorderRect(c, s);
    if InsetBorder(c, s) {
      assert BitmapRect(c, s) == border.Inset(b, b);
    }
  }

  /** Recomputing the matrix for the same bitmap and rectangle gives the same matrix. */
  lemma ImageMatrixStable(bitmap: Bitmap, rect: RectF, previous: Option<Transform>)
    ensures ImageMatrix(bitmap, rect, ImageMatrix(bitmap, rect, previous)) == ImageMatrix(bitmap, rect, previous)
  {
  }

  /** Updating twice is updating once. */
  lemma UpdateIdempotent(c: Config, s: State)
    ensures UpdateCircleImage(c, UpdateCircleImage(c, s)) == UpdateCircleImage(c, s)
  {
    if s.bitmap.Some? && s.haveFrame {
      var t := UpdateCircleImage(c, s);
      assert BorderRect(c, t) == BorderRect(c, s) && BitmapRect(c, t) == BitmapRect(c, s);
      ImageMatrixStable(s.bitmap.value, BitmapRect(c, s), s.matrix);
    }
  }

  /** `onSizeChanged`: the view now has a size, and the geometry is recomputed. */
  function OnSizeChanged(c: Config, s: State): (t: State)
    ensures t.haveFrame
  {
    UpdateCircleImage(c, s.(haveFrame := true))
  }

  /**
   * `initBitmap`, after the base class took the new drawable. A BitmapDrawable hands over its bitmap;
   * a ColorDrawable becomes a 2 by 2 bitmap and any other drawable one of its intrinsic size. A
   * missing drawable is dereferenced and throws, and a bitmap without a positive size cannot be
   * created; both are caught and leave everything as it was.
   */
  function InitBitmap(c: Config, s: State, d: Drawable): State {
    match d
    case NoDrawable => s
    case BitmapDrawable(bitmap) => UpdateCircleImage(c, s.(bitmap := bitmap))
    case ColorDrawable => UpdateCircleImage(c, s.(bitmap := Some(Bitmap(COLOR_DRAWABLE_SIZE, COLOR_DRAWABLE_SIZE))))
    case OtherDrawable(w, h) =>
      if w <= 0 || h <= 0 then s else UpdateCircleImage(c, s.(bitmap := Some(Bitmap(w, h))))
  }

  /** Once the view has a size, its shader draws the bitmap it holds; before that there is no shader. */
  predicate ShaderCurrent(s: State) {
    (s.haveFrame && s.bitmap.Some? ==> s.shader == s.bitmap) && (!s.haveFrame ==> s.shader.None?)
  }

  /**
   * Every drawable but a missing one is taken as the view's bitmap, and neither a new drawable nor a
   * size change leaves the shader drawing an old bitmap.
   */
  lemma InitBitmapTakesBitmap(c: Config, s: State, d: Drawable)
    requires ShaderCurrent(s)
    ensures var t := InitBitmap(c, s, d);
            && (!d.NoDrawable? ==> t.bitmap == TakenBitmap(s.bitmap, d))
            && ShaderCurrent(t) && ShaderCurrent(OnSizeChanged(c, s))
  {
  }

  // ---------------------------------------------------------------------------------------------
  // Finding: the shader is not moved to the image rectangle's origin

  function ExampleState(): State {
    State(true, Some(Bitmap(80, 80)), 100, 100, 0, 0, RectF(0.0, 0.0, 0.0, 0.0), RectF(0.0, 0.0, 0.0, 0.0),
          0.0, 0.0, None, None)
  }

  /** The centre of the scaled bitmap under a transform. */
  function ImageCentreX(bitmap: Bitmap, m: Transform): real {
    m.tx + bitmap.width as real * m.scale / 2.0
  }

  /**
   * As written, in a 100 by 100 view with padding 10 the circle is centred at 50 but an 80 by 80
   * bitmap, drawn unscaled, is centred at 40.
   */
  lemma ImageOffCentreWithPadding()
    ensures var t := UpdateCircleImage(Config(Padding(10, 10, 10, 10), true), ExampleState());
            && t.bitmapRect == RectF(10.0, 10.0, 90.0, 90.0)
            && t.matrix.Some? && ImageCentreX(Bitmap(80, 80), t.matrix.value) == 40.0
  {
    var rect := RectF(10.0, 10.0, 90.0, 90.0);
    assert CenterCropScale(80, 80, rect.Width(), rect.Height()) == CropScale(1.0, 0.0, 0.0);
  }

  /** The evident intent, as RoundedImageView does it: translate by the rectangle's origin too. */
  function ImageMatrixIntended(bitmap: Bitmap, rect: RectF, previous: Option<Transform>): (m: Option<Transform>)
    ensures bitmap.width <= 0 || bitmap.height <= 0 ==> m == previous
    ensures bitmap.width > 0 && bitmap.height > 0 ==>
              && m.Some?
              && -0.5 < ImageCentreX(bitmap, m.value) - (rect.left + rect.right) / 2.0 <= 0.5
              && -0.5 < m.value.ty + bitmap.height as real * m.value.scale / 2.0 - (rect.top + rect.bottom) / 2.0 <= 0.5
  {
    if bitmap.width <= 0 || bitmap.height <= 0 then previous
    else
      var crop := CenterCropScale(bitmap.width, bitmap.height, rect.Width(), rect.Height());
      assert bitmap.width as real * crop.scale / 2.0 == rect.Width() / 2.0 - crop.dx;
      assert bitmap.height as real * crop.scale / 2.0 == rect.Height() / 2.0 - crop.dy;
      Some(Transform(crop.scale, Round(crop.dx) as real + rect.left, Round(crop.dy) as real + rect.top))
  }

  // ---------------------------------------------------------------------------------------------
  // Finding: clearing the drawable keeps drawing the old bitmap

  /** As written, clearing the drawable of a view showing a bitmap leaves that bitmap to be drawn. */
  lemma ClearedDrawableStillDrawn()
    ensures var c := Config(Padding(0, 0, 0, 0), true);
            var shown := InitBitmap(c, ExampleState(), BitmapDrawable(Some(Bitmap(50, 50))));
            InitBitmap(c, shown, NoDrawable).bitmap == Some(Bitmap(50, 50))
  {
  }

  /** The evident intent, as RoundedImageView does it: no drawable, no bitmap. */
  function InitBitmapIntended(c: Config, s: State, d: Drawable): (t: State)
    ensures t.bitmap == TakenBitmap(s.bitmap, d)
  {
    if d.NoDrawable? then s.(bitmap := None) else InitBitmap(c, s, d)
  }
}
