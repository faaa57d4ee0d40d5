// BulletSpanCompat: a leading-margin span that draws a bullet, and its four-int parcel form.

module BulletSpans {
  import opened Wrappers
  import opened Jvm
  import opened Graphics
  import opened Parcels

  const STANDARD_BULLET_RADIUS: Int32 := 4
  const STANDARD_GAP_WIDTH: Int32 := 2
  const STANDARD_COLOR: Int32 := 0

  /** The framework's type id for its own BulletSpan (`TextUtils.BULLET_SPAN`). */
  const BULLET_SPAN: int := 8

  /** The span's final fields; `wantColor` says whether the bullet has a colour of its own. */
  datatype BulletSpan = BulletSpan(gapWidth: Int32, color: Int32, wantColor: bool, bulletRadius: Int32) {

    /** `getSpanTypeId`: the compat span parcels as the framework's BulletSpan. */
    function SpanTypeId(): (id: int)
      ensures id == BULLET_SPAN
    {
      8
    }

    /** `describeContents`: the parcel form holds no file descriptors. */
    function DescribeContents(): (flags: int)
      ensures flags == 0
    {
      0
    }

    /**
     * `getLeadingMargin`: room for the bullet's diameter and the gap, whichever line is asked about,
     * in Java int arithmetic.
     */
    function LeadingMargin(first: bool): (m: Int32)
      ensures (m - (2 * bulletRadius + gapWidth)) % 0x1_0000_0000 == 0
      ensures 0 <= bulletRadius && 0 <= gapWidth && 2 * bulletRadius + gapWidth < 0x8000_0000 ==>
                m == 2 * bulletRadius + gapWidth && m >= gapWidth
    {
      Wrap32(2 * bulletRadius + gapWidth)
    }
  }

  /** `BulletSpanCompat()`. */
  function Default(): (b: BulletSpan)
    ensures b == BulletSpan(STANDARD_GAP_WIDTH, STANDARD_COLOR, false, STANDARD_BULLET_RADIUS)
  {
    BulletSpan(STANDARD_GAP_WIDTH, STANDARD_COLOR, false, STANDARD_BULLET_RADIUS)
  }

  /** `BulletSpanCompat(gapWidth)`: the standard bullet, no colour of its own. */
  function WithGap(gapWidth: Int32): (b: BulletSpan)
    ensures b.gapWidth == gapWidth && !b.wantColor && b == Default().(gapWidth := gapWidth)
  {
    BulletSpan(gapWidth, STANDARD_COLOR, false, STANDARD_BULLET_RADIUS)
  }

  /** `BulletSpanCompat(gapWidth, color)`: the standard radius, in the given colour. */
  function WithColor(gapWidth: Int32, color: Int32): (b: BulletSpan)
    ensures b.wantColor && b == WithGap(gapWidth).(color := color, wantColor := true)
  {
    BulletSpan(gapWidth, color, true, STANDARD_BULLET_RADIUS)
  }

  /** `BulletSpanCompat(gapWidth, color, bulletRadius)`. */
  function WithRadius(gapWidth: Int32, color: Int32, bulletRadius: Int32): (b: BulletSpan)
    ensures b.wantColor && b == WithColor(gapWidth, color).(bulletRadius := bulletRadius)
  {
    BulletSpan(gapWidth, color, true, bulletRadius)
  }

  /** The four ints `writeToParcel` writes, in order. */
  function Encode(b: BulletSpan): (r: seq<Int32>)
    ensures |r| == 4
  {
    [b.gapWidth, if b.wantColor then 1 else 0, b.color, b.bulletRadius]
  }

  /**
   * The Parcel constructor: four `readInt`s from `pos` (each 0 past the end of the data), `wantColor`
   * being any non-zero int; with the position after them.
   */
  function Decode(data: seq<Int32>, pos: nat): (r: (BulletSpan, nat))
  {
    var (gapWidth, p1) := ReadAt(data, pos);
    var (wantColor, p2) := ReadAt(data, p1);
    var (color, p3) := ReadAt(data, p2);
    var (bulletRadius, p4) := ReadAt(data, p3);
    (BulletSpan(gapWidth, color, wantColor != 0, bulletRadius), p4)
  }

  /** Four ints at `pos` decode to the span they spell, and the position moves past all four. */
  lemma DecodeFour(data: seq<Int32>, pos: nat)
    requires pos + 4 <= |data|
    ensures Decode(data, pos) == (BulletSpan(data[pos], data[pos + 2], data[pos + 1] != 0, data[pos + 3]), pos + 4)
  {
  }

  /**
   * Reading a span back from where it was written gives the same span, whatever the parcel held
   * before and after it.
   */
  lemma {:induction false} RoundTrip(b: BulletSpan, data: seq<Int32>, pos: nat)
    requires pos <= |data|
    ensures Decode(WriteAllAt(data, pos, Encode(b)), pos) == (b, pos + 4)
  {
    var r := WriteAllAt(data, pos, Encode(b));
    WriteAllAtContents(data, pos, Encode(b));
    var cells := r[pos..pos + 4];
    assert cells == Encode(b);
    assert r[pos] == cells[0] == b.gapWidth;
    assert r[pos + 1] == cells[1] == (if b.wantColor then 1 else 0);
    assert r[pos + 2] == cells[2] == b.color;
    assert r[pos + 3] == cells[3] == b.bulletRadius;
    DecodeFour(r, pos);
  }

  /** The other direction: four ints whose second is 0 or 1 are exactly the encoding of what they decode to. */
  lemma EncodeDecode(data: seq<Int32>, pos: nat)
    requires pos + 4 <= |data| && (data[pos + 1] == 0 || data[pos + 1] == 1)
    ensures Encode(Decode(data, pos).0) == data[pos..pos + 4]
  {
    DecodeFour(data, pos);
  }

  /** `writeToParcel` (through `writeToParcelInternal`); `flags` is unused. */
  method WriteToParcel(b: BulletSpan, dest: Parcel, flags: int)
    requires dest.Valid()
    modifies dest
    ensures dest.Valid()
    ensures dest.data == WriteAllAt(old(dest.data), old(dest.position), Encode(b))
    ensures dest.position == old(dest.position) + 4
  {
    ghost var e := Encode(b);
    ghost var all := WriteAllAt(dest.data, dest.position, e);
    assert e[1..] == [if b.wantColor then 1 else 0, b.color, b.bulletRadius];
    assert e[1..][1..] == e[2..] == [b.color, b.bulletRadius];
    assert e[2..][1..] == e[3..] == [b.bulletRadius];
    assert e[3..][1..] == [];
    WriteAllAtStep(dest.data, dest.position, e);
    dest.WriteInt(b.gapWidth);
    assert all == WriteAllAt(dest.data, dest.position, e[1..]);
    WriteAllAtStep(dest.data, dest.position, e[1..]);
    dest.WriteInt(if b.wantColor then 1 else 0);
    assert all == WriteAllAt(dest.data, dest.position, e[2..]);
    WriteAllAtStep(dest.data, dest.position, e[2..]);
    dest.WriteInt(b.color);
    assert all == WriteAllAt(dest.data, dest.position, e[3..]);
    WriteAllAtStep(dest.data, dest.position, e[3..]);
    dest.WriteInt(b.bulletRadius);
    assert all == WriteAllAt(dest.data, dest.position, []);
  }

  /** The Parcel constructor, reading from the parcel's current position. */
  method FromParcel(src: Parcel) returns (b: BulletSpan)
    requires src.Valid()
    modifies src
    ensures src.Valid() && src.data == old(src.data)
    ensures (b, src.position) == Decode(old(src.data), old(src.position))
  {
    var gapWidth := src.ReadInt();
    var wantColor := src.ReadInt();
    var color := src.ReadInt();
    var bulletRadius := src.ReadInt();
    b := BulletSpan(gapWidth, color, wantColor != 0, bulletRadius);
  }

  /** What a Layout tells `drawLeadingMargin`: its line count and its extra line spacing. */
  datatype LayoutInfo = LayoutInfo(lineCount: int, spacingAdd: real)

  /** A bullet as drawn: its centre and radius, and the paint's colour and style while drawing it. */
  datatype Bullet = Bullet(x: real, y: real, radius: Int32, color: int, style: Style)

  /**
   * The line's bottom used for centring: on a layout of several lines the extra spacing is taken
   * off (and the result truncated to an int), since it would otherwise pull the bullet down. The
   * spacing may be negative.
   */
  function BulletBottom(bottom: int, layout: Option<LayoutInfo>): (r: int)
    ensures layout.None? || layout.value.lineCount <= 1 ==> r == bottom
    ensures layout.Some? && layout.value.lineCount > 1 ==>
              bottom as real - layout.value.spacingAdd - 1.0 < r as real < bottom as real - layout.value.spacingAdd + 1.0
  {
    if layout.Some? && layout.value.lineCount > 1 then
      TruncWithinOne(bottom, layout.value.spacingAdd);
      TruncToInt(bottom as real - layout.value.spacingAdd)
    else bottom
  }

  /** Taking any amount off `bottom` and truncating stays within one pixel of the exact value. */
  lemma TruncWithinOne(bottom: int, spacing: real)
    ensures bottom as real - spacing - 1.0 < TruncToInt(bottom as real - spacing) as real < bottom as real - spacing + 1.0
  {
    var x := bottom as real - spacing;
    var r := TruncToInt(x);
    if x >= 0.0 {
      assert r as real <= x < r as real + 1.0;
    } else {
      assert r as real - 1.0 < x <= r as real;
    }
  }

  /**
   * The bullet's centre: midway between the top and that bottom, one radius from `x` in the
   * paragraph's direction (+1 left to right, -1 right to left), in Java int arithmetic.
   */
  function BulletCentre(b: BulletSpan, x: Int32, dir: Int32, top: int, bottom: int, layout: Option<LayoutInfo>): (c: (real, real))
    ensures 2.0 * c.1 == (top + BulletBottom(bottom, layout)) as real
    ensures layout.None? || layout.value.lineCount <= 1 ==> 2.0 * c.1 == (top + bottom) as real
    ensures dir == 1 && -0x8000_0000 <= x + b.bulletRadius < 0x8000_0000 ==> c.0 == (x + b.bulletRadius) as real
    ensures dir == -1 && -0x8000_0000 < b.bulletRadius && -0x8000_0000 <= x - b.bulletRadius < 0x8000_0000 ==>
              c.0 == (x - b.bulletRadius) as real
  {
    var offset: int := dir * b.bulletRadius;
    assert dir == 1 ==> offset == b.bulletRadius;
    assert dir == -1 ==> offset == 0 - b.bulletRadius as int;
    (Wrap32(x + Wrap32(offset)) as real, (top + BulletBottom(bottom, layout)) as real / 2.0)
  }

  /**
   * `drawLeadingMargin`: on the line where the span starts, fill the bullet, in the span's colour
   * when it has one; the paint's style and colour are then what they were on entry. On any other
   * line nothing is drawn and the paint is not touched. `spanStart` is where the text says this
   * span starts.
   */
  method DrawLeadingMargin(b: BulletSpan, paint: Paint, x: Int32, dir: Int32, top: int, baseline: int, bottom: int,
                           spanStart: int, start: int, first: bool, layout: Option<LayoutInfo>)
    returns (drawn: Option<Bullet>)
    modifies paint
    ensures paint.style == old(paint.style) && paint.color == old(paint.color)
    ensures spanStart != start ==> drawn.None?
    ensures spanStart == start ==>
              var (cx, cy) := BulletCentre(b, x, dir, top, bottom, layout);
              drawn == Some(Bullet(cx, cy, b.bulletRadius, if b.wantColor then b.color else old(paint.color), Fill))
  {
    drawn := None;
    if spanStart == start {
      var style := paint.style;
      var oldColor := 0;
      if b.wantColor {
        oldColor := paint.color;
        paint.color := b.color;
      }
      paint.style := Fill;
      var bottom' := bottom;
      if layout.Some? && layout.value.lineCount > 1 {
        bottom' := TruncToInt(bottom as real - layout.value.spacingAdd);
      }
      var yPosition := (top + bottom') as real / 2.0;
      var xPosition := Wrap32(x + Wrap32(dir * b.bulletRadius)) as real;
      drawn := Some(Bullet(xPosition, yPosition, b.bulletRadius, paint.color, paint.style));
      if b.wantColor {
        paint.color := oldColor;
      }
      paint.style := style;
    }
  }
}
