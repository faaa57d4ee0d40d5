// RoundedImageView's geometry as pure functions: corner radii, the centred square bounds, the border
// insets and the shader matrix. The class in rounded_image_view.dfy is proved against these.

module RoundedGeometry {
  import opened Wrappers
  import opened Jvm
  import opened Graphics

  /** Index of each corner's first slot in a Path round-rect radii array, clockwise from the top left. */
  const TOP_LEFT: int := 0
  const TOP_RIGHT: int := 2
  const BOTTOM_RIGHT: int := 4
  const BOTTOM_LEFT: int := 6

  predicate IsCorner(corner: int) {
    corner == TOP_LEFT || corner == TOP_RIGHT || corner == BOTTOM_RIGHT || corner == BOTTOM_LEFT
  }

  /** `updateRadii`: each corner's radius goes into both (x and y) slots of its pair. */
  function CornerRadii(topLeft: real, topRight: real, bottomRight: real, bottomLeft: real): (r: seq<real>)
    ensures |r| == 8
    ensures r[TOP_LEFT] == r[TOP_LEFT + 1] == topLeft
    ensures r[TOP_RIGHT] == r[TOP_RIGHT + 1] == topRight
    ensures r[BOTTOM_RIGHT] == r[BOTTOM_RIGHT + 1] == bottomRight
    ensures r[BOTTOM_LEFT] == r[BOTTOM_LEFT + 1] == bottomLeft
  {
    [topLeft, topLeft, topRight, topRight, bottomRight, bottomRight, bottomLeft, bottomLeft]
  }

  /** Every radii array written by `updateRadii` pairs its slots, and the pairs determine it. */
  predicate Paired(r: seq<real>) {
    |r| == 8 && r[0] == r[1] && r[2] == r[3] && r[4] == r[5] && r[6] == r[7]
  }

  lemma CornerRadiiRoundTrip(r: seq<real>)
    requires Paired(r)
    ensures CornerRadii(r[TOP_LEFT], r[TOP_RIGHT], r[BOTTOM_RIGHT], r[BOTTOM_LEFT]) == r
  {
  }

  /** A single-corner setter's write to one array: both slots of that corner, nothing else. */
  function SetCorner(radii: seq<real>, corner: int, radius: real): (r: seq<real>)
    requires |radii| == 8 && IsCorner(corner)
    ensures |r| == 8 && r[corner] == r[corner + 1] == radius
    ensures forall i :: 0 <= i < 8 && i != corner && i != corner + 1 ==> r[i] == radii[i]
    ensures Paired(radii) ==> Paired(r)
  {
    radii[corner := radius][corner + 1 := radius]
  }

  /**
   * `calculateBounds`: the largest square that fits the padded area of a width-by-height view,
   * centred in it.
   */
  function CalculateBounds(width: int, height: int, p: Padding): (r: RectF)
    ensures var availableWidth, availableHeight := width - p.left - p.right, height - p.top - p.bottom;
            && r.Width() == r.Height() == MinInt(availableWidth, availableHeight) as real
            && r.left - p.left as real == (p.left + availableWidth) as real - r.right
            && r.top - p.top as real == (p.top + availableHeight) as real - r.bottom
            && p.left as real <= r.left && r.right <= (p.left + availableWidth) as real
            && p.top as real <= r.top && r.bottom <= (p.top + availableHeight) as real
  {
    var availableWidth := width - p.left - p.right;
    var availableHeight := height - p.top - p.bottom;
    var sideLength := MinInt(availableWidth, availableHeight);
    var left := p.left as real + (availableWidth - sideLength) as real / 2.0;
    var top := p.top as real + (availableHeight - sideLength) as real / 2.0;
    RectF(left, top, left + sideLength as real, top + sideLength as real)
  }

  /**
   * `updateDrawableMatrix`: centre-crop the bitmap onto the drawable rectangle, translating by the
   * centring offsets rounded with `(int) (d + 0.5f)` plus the rectangle's origin. A bitmap without a
   * positive size leaves the previous matrix in place.
   */
  function DrawableMatrix(bitmap: Bitmap, rect: RectF, previous: Option<Transform>): (m: Option<Transform>)
    ensures bitmap.width <= 0 || bitmap.height <= 0 ==> m == previous
    ensures bitmap.width > 0 && bitmap.height > 0 ==>
              m.Some? && m.value.scale == CenterCropScale(bitmap.width, bitmap.height, rect.Width(), rect.Height()).scale
  {
    if bitmap.width <= 0 || bitmap.height <= 0 then previous
    else
      var crop := CenterCropScale(bitmap.width, bitmap.height, rect.Width(), rect.Height());
      Some(Transform(crop.scale, TruncToInt(crop.dx + 0.5) as real + rect.left,
                     TruncToInt(crop.dy + 0.5) as real + rect.top))
  }

  /**
   * The scaled bitmap is centred on the drawable rectangle to within one and a half pixels: the
   * `(int) (d + 0.5f)` rounding truncates toward zero, and the offsets are never positive.
   */
  lemma DrawableMatrixCentred(bitmap: Bitmap, rect: RectF, previous: Option<Transform>)
    requires bitmap.width > 0 && bitmap.height > 0
    ensures var m := DrawableMatrix(bitmap, rect, previous).value;
            var cx := m.tx + bitmap.width as real * m.scale / 2.0;
            var cy := m.ty + bitmap.height as real * m.scale / 2.0;
            && -0.5 < cx - (rect.left + rect.right) / 2.0 < 1.5
            && -0.5 < cy - (rect.top + rect.bottom) / 2.0 < 1.5
  {
    var crop := CenterCropScale(bitmap.width, bitmap.height, rect.Width(), rect.Height());
    RoundingError(crop.dx);
    RoundingError(crop.dy);
  }

  /** `(int) (d + 0.5f) - d` for a non-positive offset `d`. */
  lemma RoundingError(d: real)
    requires d <= 0.0
    ensures -0.5 < TruncToInt(d + 0.5) as real - d < 1.5
  {
  }

  datatype Config = Config(padding: Padding, borderOverlay: bool, supportRounded: bool)

  /** What `updateDrawable` reads and writes, plus the setters' fields. */
  datatype State = State(haveFrame: bool, bitmap: Option<Bitmap>, frame: Rect,
                         borderSize: int, borderColor: int, isCircle: bool, scaleType: ScaleType,
                         borderRadii: seq<real>, drawableRadii: seq<real>,
                         borderRect: RectF, drawableRect: RectF,
                         circleBorderRadius: real, circleDrawableRadius: real,
                         shader: Option<Bitmap>, matrix: Option<Transform>)

  predicate Valid(s: State) {
    |s.borderRadii| == 8 && |s.drawableRadii| == 8
  }

  /** The border is drawn beside the image rather than over it. */
  predicate InsetBorder(c: Config, s: State) {
    !c.borderOverlay && s.borderSize > 0
  }

  /** The border's rectangle: the centred square of the frame's padded area. */
  function BorderRect(c: Config, s: State): RectF {
    CalculateBounds(s.frame.Width(), s.frame.bottom - s.frame.top, c.padding)
  }

  /**
   * The image's rectangle: the border's, moved inward by half the border (rounded rectangle) or by the
   * whole border (circle) when the border does not overlay the image.
   */
  function DrawableRect(c: Config, s: State): RectF {
    var b := s.borderSize as real;
    if !InsetBorder(c, s) then BorderRect(c, s)
    else if !s.isCircle then BorderRect(c, s).Inset(b / 2.0, b / 2.0)
    else BorderRect(c, s).Inset(b, b)
  }

  /** The image's corner radii: the border's less half the border when it is inset, else unchanged. */
  function DrawableRadii(c: Config, s: State): seq<real>
    requires Valid(s)
  {
    var half := s.borderSize as real / 2.0;
    if InsetBorder(c, s) && !s.isCircle then
      CornerRadii(s.borderRadii[TOP_LEFT] - half, s.borderRadii[TOP_RIGHT] - half,
                  s.borderRadii[BOTTOM_RIGHT] - half, s.borderRadii[BOTTOM_LEFT] - half)
    else s.drawableRadii
  }

  /** The radius of the circle the border's stroke is centred on. */
  function CircleBorderRadius(c: Config, s: State): real {
    var b := s.borderSize as real;
    MinReal((BorderRect(c, s).Width() - b) / 2.0, (BorderRect(c, s).Height() - b) / 2.0)
  }

  function CircleDrawableRadius(c: Config, s: State): real {
    MinReal(DrawableRect(c, s).Width() / 2.0, DrawableRect(c, s).Height() / 2.0)
  }

  /**
   * `updateDrawable`. Nothing happens without a bitmap or before the first frame. Otherwise a shader
   * is created for the current bitmap if there is none yet (an existing one is kept), the
   * border and image rectangles and the image's radii are recomputed, circle mode recomputes both
   * circle radii, and the shader matrix follows the image's rectangle.
   */
  function UpdateDrawable(c: Config, s: State): (t: State)
    requires Valid(s)
    ensures Valid(t)
  {
    if s.bitmap.None? || !s.haveFrame then s
    else
      var t := s.(shader := if s.shader.None? then s.bitmap else s.shader,
                  borderRect := BorderRect(c, s), drawableRect := DrawableRect(c, s),
                  drawableRadii := DrawableRadii(c, s));
      var t' :=
        if s.isCircle then
          t.(circleBorderRadius := CircleBorderRadius(c, s), circleDrawableRadius := CircleDrawableRadius(c, s))
        else t;
      t'.(matrix := DrawableMatrix(s.bitmap.value, DrawableRect(c, s), s.matrix))
  }

  /** Without a bitmap, or before the view has a frame, an update changes nothing. */
  lemma UpdateNeedsBitmapAndFrame(c: Config, s: State)
    requires Valid(s) && (s.bitmap.None? || !s.haveFrame)
    ensures UpdateDrawable(c, s) == s
  {
  }

  /**
   * A rounded-rectangle update with a border beside the image: the image is the border square moved
   * in by half the border, and every radius is the border's radius less half the border, unclamped.
   * The border's radii are never touched.
   */
  lemma RoundedInset(c: Config, s: State)
    requires Valid(s) && s.bitmap.Some? && s.haveFrame && !s.isCircle && InsetBorder(c, s)
    ensures var t := UpdateDrawable(c, s);
            var half := s.borderSize as real / 2.0;
            && t.drawableRect == t.borderRect.Inset(half, half)
            && t.borderRadii == s.borderRadii
            && forall i :: 0 <= i < 8 && i % 2 == 0 ==> t.drawableRadii[i] == s.borderRadii[i] - half
  {
  }

  /**
   * In circle mode the border's stroke (centred on its circle, as wide as the border) meets the
   * image's circle exactly when the border is beside the image, and covers its outer band otherwise.
   */
  lemma CircleStrokeMeetsImage(c: Config, s: State)
    requires Valid(s) && s.bitmap.Some? && s.haveFrame && s.isCircle && s.borderSize > 0
    ensures var t := UpdateDrawable(c, s);
            var b := s.borderSize as real;
            && t.circleBorderRadius == MinReal((t.borderRect.Width() - b) / 2.0, (t.borderRect.Height() - b) / 2.0)
            && t.circleDrawableRadius == MinReal(t.drawableRect.Width() / 2.0, t.drawableRect.Height() / 2.0)
            && (!c.borderOverlay ==> t.circleBorderRadius - b / 2.0 == t.circleDrawableRadius)
            && (c.borderOverlay ==> t.circleBorderRadius + b / 2.0 == t.circleDrawableRadius)
  {
    var t := UpdateDrawable(c, s);
    var b := s.borderSize as real;
    assert t.borderRect.Width() == t.borderRect.Height();
    if !c.borderOverlay {
      assert t.drawableRect == t.borderRect.Inset(b, b);
    }
  }

  /** Recomputing the matrix for the same bitmap and rectangle gives the same matrix. */
  lemma DrawableMatrixStable(bitmap: Bitmap, rect: RectF, previous: Option<Transform>)
    ensures DrawableMatrix(bitmap, rect, DrawableMatrix(bitmap, rect, previous)) == DrawableMatrix(bitmap, rect, previous)
  {
  }

  /** Updating twice is updating once: the image's radii are recomputed from the border's. */
  lemma {:induction false} UpdateIdempotent(c: Config, s: State)
    requires Valid(s)
    ensures UpdateDrawable(c, UpdateDrawable(c, s)) == UpdateDrawable(c, s)
  {
    if s.bitmap.Some? && s.haveFrame {
      var t := UpdateDrawable(c, s);
      assert BorderRect(c, t) == BorderRect(c, s);
      assert DrawableRect(c, t) == DrawableRect(c, s);
      assert DrawableRadii(c, t) == DrawableRadii(c, s);
      assert CircleBorderRadius(c, t) == CircleBorderRadius(c, s);
      assert CircleDrawableRadius(c, t) == CircleDrawableRadius(c, s);
      DrawableMatrixStable(s.bitmap.value, DrawableRect(c, s), s.matrix);
    }
  }

  /**
   * `setFrame`: the view now has a frame (the base class records its bounds and reports whether they
   * changed) and the geometry is recomputed.
   */
  function SetFrame(c: Config, s: State, frame: Rect): (t: State)
    requires Valid(s)
    ensures Valid(t) && t.haveFrame && t.frame == frame
  {
    UpdateDrawable(c, s.(frame := frame, haveFrame := true))
  }

  /**
   * `initBitmap`, after the base class took the new drawable. No drawable clears the bitmap; a
   * BitmapDrawable hands over its bitmap (and the old shader stays); a ColorDrawable becomes a 2 by 2
   * bitmap and any other drawable one of its intrinsic size, both dropping the shader; creating a
   * bitmap without a positive size throws, which is caught and leaves everything as it was.
   */
  function InitBitmap(c: Config, s: State, d: Drawable): (t: State)
    requires Valid(s)
    ensures Valid(t)
    ensures d.NoDrawable? ==> t == s.(bitmap := None)
    ensures d.OtherDrawable? && (d.intrinsicWidth <= 0 || d.intrinsicHeight <= 0) ==> t == s
  {
    match d
    case NoDrawable => s.(bitmap := None)
    case BitmapDrawable(bitmap) => UpdateDrawable(c, s.(bitmap := bitmap))
    case ColorDrawable =>
      UpdateDrawable(c, s.(bitmap := Some(Bitmap(COLOR_DRAWABLE_SIZE, COLOR_DRAWABLE_SIZE)), shader := None))
    case OtherDrawable(w, h) =>
      if w <= 0 || h <= 0 then s
      else UpdateDrawable(c, s.(bitmap := Some(Bitmap(w, h)), shader := None))
  }

  /** Whatever drawable is set, the view then holds its bitmap, and the frame and border are untouched. */
  lemma InitBitmapTakesBitmap(c: Config, s: State, d: Drawable)
    requires Valid(s)
    ensures var t := InitBitmap(c, s, d);
            && t.bitmap == TakenBitmap(s.bitmap, d)
            && t.frame == s.frame && t.haveFrame == s.haveFrame
            && t.borderSize == s.borderSize && t.borderRadii == s.borderRadii
  {
  }

  /** `getScaleType`: CENTER_CROP whenever rounding is supported, the base class's otherwise. */
  function GetScaleType(c: Config, s: State): (t: ScaleType)
    ensures c.supportRounded ==> t == CenterCrop
    ensures !c.supportRounded ==> t == s.scaleType
  {
    if c.supportRounded then CenterCrop else s.scaleType
  }

  /** `setScaleType`: ignored while rounding is supported. */
  function SetScaleType(c: Config, s: State, scaleType: ScaleType): (t: State)
    ensures GetScaleType(c, t) == if c.supportRounded then CenterCrop else scaleType
    ensures t.(scaleType := s.scaleType) == s
  {
    if !c.supportRounded then s.(scaleType := scaleType) else s
  }

  /** `setBorderColor`: only a different colour is stored (and invalidates). */
  function SetBorderColor(s: State, color: int): (t: State)
    ensures t.borderColor == color && t == s.(borderColor := color)
  {
    if s.borderColor != color then s.(borderColor := color) else s
  }

  /** `setBorderSize`: only a different size is stored and recomputes the geometry. */
  function SetBorderSize(c: Config, s: State, size: int): (t: State)
    requires Valid(s)
    ensures Valid(t) && t.borderSize == size
    ensures s.borderSize == size ==> t == s
  {
    if s.borderSize != size then UpdateDrawable(c, s.(borderSize := size)) else s
  }

  /** `setCircle`: only a different mode is stored and recomputes the geometry. */
  function SetCircle(c: Config, s: State, circle: bool): (t: State)
    requires Valid(s)
    ensures Valid(t) && t.isCircle == circle
    ensures s.isCircle == circle ==> t == s
  {
    if s.isCircle != circle then UpdateDrawable(c, s.(isCircle := circle)) else s
  }

  /** A single-corner setter: both arrays get the radius in that corner's two slots, then an update. */
  function SetCornerRadius(c: Config, s: State, corner: int, radius: real): State
    requires Valid(s) && IsCorner(corner)
  {
    UpdateDrawable(c, s.(borderRadii := SetCorner(s.borderRadii, corner, radius),
                         drawableRadii := SetCorner(s.drawableRadii, corner, radius)))
  }

  /** The border's radii after a corner setter differ from before in exactly that corner's two slots. */
  lemma SetCornerRadiusChangesOneCorner(c: Config, s: State, corner: int, radius: real)
    requires Valid(s) && IsCorner(corner)
    ensures var t := SetCornerRadius(c, s, corner, radius);
            && t.borderRadii[corner] == t.borderRadii[corner + 1] == radius
            && (forall i :: 0 <= i < 8 && i != corner && i != corner + 1 ==> t.borderRadii[i] == s.borderRadii[i])
            && (!(InsetBorder(c, s) && s.bitmap.Some? && s.haveFrame && !s.isCircle) ==>
                  && t.drawableRadii[corner] == t.drawableRadii[corner + 1] == radius
                  && forall i :: 0 <= i < 8 && i != corner && i != corner + 1 ==> t.drawableRadii[i] == s.drawableRadii[i])
  {
  }

  /** `setCornerRadii`: the same four radii in both arrays, then an update. */
  function SetCornerRadii(c: Config, s: State, topLeft: real, topRight: real, bottomRight: real, bottomLeft: real): State
    requires Valid(s)
  {
    var radii := CornerRadii(topLeft, topRight, bottomRight, bottomLeft);
    UpdateDrawable(c, s.(borderRadii := radii, drawableRadii := radii))
  }

  // ---------------------------------------------------------------------------------------------
  // Finding: the constructor passes the bottom corners in swapped positions

  /** The radii the constructor sets from the four corner attributes, as written. */
  function ConstructorRadii(topLeft: real, topRight: real, bottomLeft: real, bottomRight: real): seq<real> {
    CornerRadii(topLeft, topRight, bottomLeft, bottomRight)
  }

  /** A bottom-left attribute of 1 and a bottom-right attribute of 2 come out the other way round. */
  lemma ConstructorSwapsBottomCorners()
    ensures ConstructorRadii(0.0, 0.0, 1.0, 2.0)[BOTTOM_LEFT] == 2.0
    ensures ConstructorRadii(0.0, 0.0, 1.0, 2.0)[BOTTOM_RIGHT] == 1.0
  {
  }

  /** The evident intent: every corner attribute ends up in its own corner's slots. */
  function ConstructorRadiiIntended(topLeft: real, topRight: real, bottomLeft: real, bottomRight: real): (r: seq<real>)
    ensures Paired(r)
    ensures r[TOP_LEFT] == topLeft && r[TOP_RIGHT] == topRight
    ensures r[BOTTOM_LEFT] == bottomLeft && r[BOTTOM_RIGHT] == bottomRight
  {
    CornerRadii(topLeft, topRight, bottomRight, bottomLeft)
  }

  // ---------------------------------------------------------------------------------------------
  // Finding: the image's radii stay reduced after the border stops insetting it

  function ExampleState(borderSize: int): State {
    var radii := CornerRadii(10.0, 10.0, 10.0, 10.0);
    State(true, Some(Bitmap(100, 100)), Rect(0, 0, 100, 100), borderSize, 0, false, CenterCrop,
          radii, radii, RectF(0.0, 0.0, 0.0, 0.0), RectF(0.0, 0.0, 0.0, 0.0), 0.0, 0.0, None, None)
  }

  /**
   * As written, with a border of 4 beside the image and corner radii of 10, setting the border size
   * to 0 leaves the image's radii at 8, although the image again fills the border's square exactly.
   */
  lemma RadiiStayReducedAfterBorderRemoved()
    ensures var c := Config(Padding(0, 0, 0, 0), false, true);
            var t := SetBorderSize(c, SetBorderSize(c, ExampleState(0), 4), 0);
            && t.drawableRect == t.borderRect
            && t.borderRadii[TOP_LEFT] == 10.0 && t.drawableRadii[TOP_LEFT] == 8.0
  {
    var c := Config(Padding(0, 0, 0, 0), false, true);
    var s1 := SetBorderSize(c, ExampleState(0), 4);
    assert s1.drawableRadii[TOP_LEFT] == 8.0;
  }

  /** The evident intent: the image's radii are derived from the border's on every update. */
  function UpdateDrawableIntended(c: Config, s: State): (t: State)
    requires Valid(s)
    ensures Valid(t)
    ensures s.bitmap.Some? && s.haveFrame && !(InsetBorder(c, s) && !s.isCircle) ==>
              t.drawableRadii == s.borderRadii
    ensures t == UpdateDrawable(c, s).(drawableRadii := t.drawableRadii)
  {
    var t := UpdateDrawable(c, s);
    if s.bitmap.Some? && s.haveFrame && !(InsetBorder(c, s) && !s.isCircle) then t.(drawableRadii := s.borderRadii)
    else t
  }

  /**
   * With the intended update the image's radii no longer remember earlier border sizes: two states
   * that differ only in the image's radii update to the same state.
   */
  lemma IntendedUpdateForgetsHistory(c: Config, s: State, stale: seq<real>)
    requires Valid(s) && |stale| == 8 && s.bitmap.Some? && s.haveFrame
    ensures UpdateDrawableIntended(c, s.(drawableRadii := stale)) == UpdateDrawableIntended(c, s)
  {
    var s' := s.(drawableRadii := stale);
    assert BorderRect(c, s') == BorderRect(c, s);
    assert DrawableRect(c, s') == DrawableRect(c, s);
    assert CircleBorderRadius(c, s') == CircleBorderRadius(c, s);
    assert CircleDrawableRadius(c, s') == CircleDrawableRadius(c, s);
    if InsetBorder(c, s) && !s.isCircle {
      assert DrawableRadii(c, s') == DrawableRadii(c, s);
    }
  }

  // ---------------------------------------------------------------------------------------------
  // Finding: a new BitmapDrawable is drawn through the shader of the previous bitmap

  /** The shader, when there is one, draws the bitmap the view holds. */
  predicate ShaderCurrent(s: State) {
    s.bitmap.Some? && s.shader.Some? ==> s.shader == s.bitmap
  }

  /**
   * As written, after a 100 by 100 bitmap has been shown in a laid-out view, setting a 50 by 80
   * bitmap keeps the first bitmap's shader while the matrix is fitted to the second.
   */
  lemma StaleShaderAfterNewBitmap()
    ensures var c := Config(Padding(0, 0, 0, 0), true, true);
            var first := InitBitmap(c, ExampleState(0).(bitmap := None), BitmapDrawable(Some(Bitmap(100, 100))));
            var second := InitBitmap(c, first, BitmapDrawable(Some(Bitmap(50, 80))));
            && ShaderCurrent(first)
            && second.bitmap == Some(Bitmap(50, 80)) && second.shader == Some(Bitmap(100, 100))
            && !ShaderCurrent(second)
  {
  }

  /** The evident intent: every new bitmap gets a new shader. */
  function InitBitmapIntended(c: Config, s: State, d: Drawable): (t: State)
    requires Valid(s)
    ensures Valid(t) && t.bitmap == TakenBitmap(s.bitmap, d)
  {
    if d.OtherDrawable? && (d.intrinsicWidth <= 0 || d.intrinsicHeight <= 0) then s
    else InitBitmap(c, s.(shader := None), d)
  }

  /** Geometry updates keep the shader current. */
  lemma UpdateKeepsShaderCurrent(c: Config, s: State)
    requires Valid(s) && ShaderCurrent(s)
    ensures ShaderCurrent(UpdateDrawable(c, s))
  {
  }

  /** With the intended bitmap hand-over, the shader always draws the bitmap the view holds. */
  lemma IntendedInitBitmapKeepsShaderCurrent(c: Config, s: State, d: Drawable)
    requires Valid(s) && ShaderCurrent(s)
    ensures ShaderCurrent(InitBitmapIntended(c, s, d))
  {
    InitBitmapTakesBitmap(c, s.(shader := None), d);
  }
}
