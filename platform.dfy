// Stand-ins for the Java language and the Android framework types the widgets use.

module Wrappers {
  datatype Option<+T> = None | Some(value: T)
}

/** Java numeric semantics that differ from Dafny's unbounded, Euclidean arithmetic. */
module Jvm {

  /** A Java `int`. */
  type Int32 = x: int | -0x8000_0000 <= x < 0x8000_0000

  /** Two's-complement wrap-around of an exact result into a Java `int`. */
  function Wrap32(x: int): (r: Int32)
    ensures (x - r) % 0x1_0000_0000 == 0
    ensures -0x8000_0000 <= x < 0x8000_0000 ==> r == x
  {
    var m := x % 0x1_0000_0000;
    if m < 0x8000_0000 then m else m - 0x1_0000_0000
  }

  /** Java's `a / 2` on ints, which truncates toward zero (Dafny's `/` floors for a negative `a`). */
  function Half(a: int): (q: int)
    ensures a >= 0 ==> 0 <= a - 2 * q <= 1
    ensures a < 0 ==> -1 <= a - 2 * q <= 0
  {
    if a >= 0 then a / 2 else -((-a) / 2)
  }

  /** Java's `(int)` cast of a float: truncation toward zero (saturation and NaN are not modelled). */
  function TruncToInt(x: real): (r: int)
    ensures x >= 0.0 ==> r as real <= x < r as real + 1.0
    ensures x < 0.0 ==> r as real - 1.0 < x <= r as real
  {
    if x >= 0.0 then x.Floor else -((-x).Floor)
  }

  /** `Math.round(float)`: the nearest integer, halves rounded up. */
  function Round(x: real): (r: int)
    ensures x - 0.5 < r as real <= x + 0.5
  {
    (x + 0.5).Floor
  }

  function Abs(x: real): real { if x < 0.0 then -x else x }

  /** `Math.min(int, int)`, as `calculateBounds` uses it. */
  function MinInt(a: int, b: int): (m: int)
    ensures m <= a && m <= b && (m == a || m == b)
  {
    if a <= b then a else b
  }

  /** `Math.max(int, int)`, as `onMeasure` uses it. */
  function MaxInt(a: int, b: int): (m: int)
    ensures m >= a && m >= b && (m == a || m == b)
  {
    if a >= b then a else b
  }

  /**
   * `Math.min(float, float)`, the overload the circle radii use: Java has one per type, and Dafny
   * has no generic minimum over `int` and `real`.
   */
  function MinReal(a: real, b: real): (m: real)
    ensures m <= a && m <= b && (m == a || m == b)
  {
    if a <= b then a else b
  }
}

/** android.graphics: rectangles, paint, bitmaps and the centre-crop scale both image views compute. */
module Graphics {
  import opened Wrappers
  import opened Jvm

  /** android.graphics.Rect (integer pixel bounds). */
  datatype Rect = Rect(left: int, top: int, right: int, bottom: int) {
    function Width(): int { right - left }

    /** `Rect.centerX()` is `(left + right) >> 1`, an arithmetic shift, i.e. a floor division. */
    function CenterX(): (c: int)
      ensures 2 * c <= left + right <= 2 * c + 1
    {
      (left + right) / 2
    }
  }

  /** android.graphics.RectF (float bounds, as reals). */
  datatype RectF = RectF(left: real, top: real, right: real, bottom: real) {
    function Width(): real { right - left }
    function Height(): real { bottom - top }

    /** `RectF.inset(dx, dy)`: each side moves inward by the given amount. */
    function Inset(dx: real, dy: real): (r: RectF)
      ensures r.Width() == Width() - 2.0 * dx && r.Height() == Height() - 2.0 * dy
      ensures r.left - left == dx && right - r.right == dx
      ensures r.top - top == dy && bottom - r.bottom == dy
    {
      RectF(left + dx, top + dy, right - dx, bottom - dy)
    }
  }

  function ToRectF(r: Rect): RectF {
    RectF(r.left as real, r.top as real, r.right as real, r.bottom as real)
  }

  datatype Style = Fill | Stroke | FillAndStroke

  /** android.graphics.Paint, reduced to the two attributes the widgets save and restore. */
  class Paint {
    var color: int
    var style: Style

    constructor (color: int, style: Style)
      ensures this.color == color && this.style == style
    {
      this.color := color;
      this.style := style;
    }
  }

  /** `Color.TRANSPARENT`. */
  const TRANSPARENT: int := 0

  /** The size of the bitmap an image view draws. */
  datatype Bitmap = Bitmap(width: int, height: int)

  /**
   * The drawable an image view was given: none, a BitmapDrawable (whose bitmap may be null), a
   * ColorDrawable, or any other drawable with its intrinsic size.
   */
  datatype Drawable = NoDrawable | BitmapDrawable(bitmap: Option<Bitmap>) | ColorDrawable
                    | OtherDrawable(intrinsicWidth: int, intrinsicHeight: int)

  /** The size of the bitmap both image views render a ColorDrawable into. */
  const COLOR_DRAWABLE_SIZE: int := 2

  /** The bitmap an image view holds after taking a drawable, by the drawable it was given; an empty intrinsic size keeps the previous one. */
  function TakenBitmap(previous: Option<Bitmap>, d: Drawable): Option<Bitmap> {
    match d
    case NoDrawable => None
    case BitmapDrawable(bitmap) => bitmap
    case ColorDrawable => Some(Bitmap(COLOR_DRAWABLE_SIZE, COLOR_DRAWABLE_SIZE))
    case OtherDrawable(w, h) => if w <= 0 || h <= 0 then previous else Some(Bitmap(w, h))
  }

  /** A view's padding. */
  datatype Padding = Padding(left: int, top: int, right: int, bottom: int)

  /** A shader's local matrix: a uniform scale followed by a translation. */
  datatype Transform = Transform(scale: real, tx: real, ty: real)

  /** ImageView.ScaleType. */
  datatype ScaleType = MatrixScale | FitXY | FitStart | FitCenter | FitEnd | Center | CenterCrop | CenterInside

  /** The uniform scale and the centring offsets of a centre-crop. */
  datatype CropScale = CropScale(scale: real, dx: real, dy: real)

  /**
   * The scale choice both image views make before building the shader matrix: if the bitmap is
   * relatively wider than the target (`bw * fh > fw * bh`) scale to the target height and centre
   * horizontally, otherwise scale to the target width and centre vertically. The scaled bitmap then
   * covers the target in both dimensions, fills it exactly in one, and is centred on it.
   */
  function CenterCropScale(bw: int, bh: int, fw: real, fh: real): (m: CropScale)
    requires bw > 0 && bh > 0
    ensures bw as real * m.scale >= fw && bh as real * m.scale >= fh
    ensures bw as real * m.scale == fw || bh as real * m.scale == fh
    ensures 2.0 * m.dx + bw as real * m.scale == fw
    ensures 2.0 * m.dy + bh as real * m.scale == fh
    ensures (bw as real * fh > fw * bh as real) <==> (m.dy == 0.0 && bh as real * m.scale == fh && m.dx < 0.0)
  {
    var w, h := bw as real, bh as real;
    if w * fh > fw * h then
      var scale := fh / h;
      CoverByHeight(w, h, fw, fh);
      CropScale(scale, (fw - w * scale) * 0.5, 0.0)
    else
      var scale := fw / w;
      CoverByWidth(w, h, fw, fh);
      CropScale(scale, 0.0, (fh - h * scale) * 0.5)
  }

  lemma CoverByHeight(w: real, h: real, fw: real, fh: real)
    requires w > 0.0 && h > 0.0 && w * fh > fw * h
    ensures h * (fh / h) == fh && w * (fh / h) > fw
  {
    calc {
      w * (fh / h);
      (w * fh) / h;
    >  { assert w * fh > fw * h; }
      (fw * h) / h;
      fw;
    }
  }

  lemma CoverByWidth(w: real, h: real, fw: real, fh: real)
    requires w > 0.0 && h > 0.0 && w * fh <= fw * h
    ensures w * (fw / w) == fw && h * (fw / w) >= fh
  {
    calc {
      h * (fw / w);
      (fw * h) / w;
    >= { assert fw * h >= w * fh; }
      (w * fh) / w;
      fh;
    }
  }
}
