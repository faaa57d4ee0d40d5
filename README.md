# AndroidWidgets in Dafny

A model of the logic in the AndroidWidgets library's custom views and helpers. Drawing is left out.

- **SwitchButton**: a toggle switch whose thumb is pressed, dragged and released across a track. The
  release commits the checked state from the thumb's centre, and the thumb then animates to its rest
  position.
- **RoundedImageView**: an image view that shows its bitmap through a shader. The shape is a rounded
  rectangle (four corner radii) or a circle, with an optional border beside or over the image.
- **CircleImageView**: the circular image view with the same shader and border scheme.
- **BulletSpanCompat**: a bullet leading-margin span. It can be written to and read from a Parcel, and
  it draws a centred dot.
- **DotTextView**: a TextView that puts a coloured bullet before any non-empty text.
- **RippleUtils.convertToRippleDrawableColor**: builds a ripple's state table from a colour list.
- **ViewUtils.parseTintMode**: maps an attribute value to a PorterDuff mode.

Each view that keeps state in fields is a `class` whose methods update those fields in place. Every
method is proved against a pure function over a value snapshot of the fields:

| class | specification module |
|---|---|
| `SwitchButton.SwitchButton` | `SwitchGesture` |
| `RoundedImage.RoundedImageView` | `RoundedGeometry` |
| `CircleImage.CircleImageView` | `CircleGeometry` |
| `DotText.DotTextView` | `DotSpans` |

The specification functions carry the properties: clamping, round trips, idempotence, invariants
kept over whole gestures, and first-match lookups. `platform.dfy` holds the Java arithmetic the code
relies on (`Jvm`) and the graphics values it passes around (`Graphics`). Examples are a 32-bit wrap,
a truncating cast, `Math.round`, and a centre-crop scale.

Behaviour of the code worth knowing:

- The switch has no enabled check. A DOWN event on the thumb starts a press even on a disabled
  control.
- CANCEL is handled exactly like UP. Releasing a drag commits the state whichever of the two arrives.
- On release, the switch hands the original event to the base class's `onTouchEvent`. It does not
  synthesise a CANCEL.
- The switch emits no change notification or feedback tick of its own.
- After a drag is released, the touch mode stays DRAGGING. This is the first finding below.
- Only the start and target of the thumb animation are recorded. Re-triggering restarts it from the
  current thumb position, as `setIntValues(mThumbPosition, target)` does.

## Model

| member | source | states |
|---|---|---|
| Jvm.Wrap32 | widgetlibs/src/main/java/com/edgar/span/BulletSpanCompat.java:122 | Java int arithmetic: the result is the 32-bit value congruent to the argument, and equals it when it is in range |
| Jvm.Half | app/src/main/java/com/edgar/switchbutton/SwitchButton.java:162 | Java's `/ 2` truncates toward zero: twice the quotient is the dividend or one nearer zero |
| Jvm.TruncToInt | app/src/main/java/com/edgar/switchbutton/SwitchButton.java:175 | A float-to-int cast truncates toward zero: at most one below a non-negative value and at most one above a negative one |
| Jvm.Round | widgetlibs/src/main/java/com/edgar/widget/CircleImageView.java:167 | `Math.round` is the nearest int, halves rounded up |
| Graphics.Rect.CenterX | app/src/main/java/com/edgar/switchbutton/SwitchButton.java:160-161 | `Rect.centerX` is the midpoint of left and right, rounded down |
| Graphics.RectF.Inset | widgetlibs/src/main/java/com/edgar/widget/RoundedImageView.java:257-267 | Insetting moves every edge inward by the given amounts and shrinks width and height by twice them |
| Graphics.CenterCropScale | widgetlibs/src/main/java/com/edgar/widget/RoundedImageView.java:286-294 | The centre-crop scale covers the target rectangle and fills one axis exactly. The other axis's offset centres the scaled bitmap and is never positive. The height branch is taken exactly when the bitmap is relatively wider |
| SwitchGesture.RestPosition | app/src/main/java/com/edgar/switchbutton/SwitchButton.java:104-106 | The checked rest position puts the thumb's right edge one padding inside the measured width. The unchecked rest position is the padding |
| SwitchGesture.HitThumb | app/src/main/java/com/edgar/switchbutton/SwitchButton.java:87-98 | A point hits the thumb exactly when there is a thumb and the point lies strictly inside its bounds |
| SwitchGesture.HitIsInterior | app/src/main/java/com/edgar/switchbutton/SwitchButton.java:87-98 | Only a thumb of positive width and height can be hit, and no point on its edges is |
| SwitchGesture.DragPosition | app/src/main/java/com/edgar/switchbutton/SwitchButton.java:173-182 | On a wide enough track the dragged position lies between the padding and `getSwitchLeft()`, and a truncated raw position already in that range is kept. On a narrower track the position is `getSwitchLeft()` |
| SwitchGesture.SetThumbPosition | app/src/main/java/com/edgar/switchbutton/SwitchButton.java:203-207 | The thumb's left edge and `mThumbPosition` become the position and its width becomes the thumb's. Top, bottom and every other field stay |
| SwitchGesture.SetChecked | app/src/main/java/com/edgar/switchbutton/SwitchButton.java:113-120 | The state is set. The animation starts from the current position toward the new state's rest position only when the view is attached and laid out. Nothing else changes |
| SwitchGesture.Toggle | app/src/main/java/com/edgar/switchbutton/SwitchButton.java:108-111 | Toggling negates the checked state through `setChecked` |
| SwitchGesture.OnMeasure | app/src/main/java/com/edgar/switchbutton/SwitchButton.java:65-77 | The measured size is the track width by the larger height. The thumb sits at its rest position, vertically centred with Java's `/ 2`. The mode, state and animation are kept |
| SwitchGesture.RunSnoc | app/src/main/java/com/edgar/switchbutton/SwitchButton.java:123-171 | Running a gesture one event longer is one more `onTouchEvent` |
| SwitchGesture.DownStartsPress | app/src/main/java/com/edgar/switchbutton/SwitchButton.java:125-135 | A DOWN on the thumb records the point, enters DOWN mode and is consumed. Any other DOWN goes to the base class and changes nothing else |
| SwitchGesture.MoveBeyondSlopStartsDrag | app/src/main/java/com/edgar/switchbutton/SwitchButton.java:136-150 | A pressed MOVE starts a drag exactly when it leaves the slop on some axis. A drag asks the parent not to intercept and records the point without moving the thumb. A MOVE within the slop only reaches the base class |
| SwitchGesture.DragStepIsClamped | app/src/main/java/com/edgar/switchbutton/SwitchButton.java:151-185 | A MOVE while dragging is consumed, moves the thumb to the clamped position and records x. On a wide track the thumb stays within the track |
| SwitchGesture.ReleaseCommits | app/src/main/java/com/edgar/switchbutton/SwitchButton.java:157-168 | Releasing a drag (UP or CANCEL) commits `centerX >= measuredWidth / 2`, passes the event to the base class and is consumed. Any other release sets IDLE and keeps the state |
| SwitchGesture.CommitExample | app/src/main/java/com/edgar/switchbutton/SwitchButton.java:159-164 | Concrete thresholds on a 100-pixel track: rest positions 2 and 78. Thumb centres 60 and 50 commit checked; a centre of 40 does not |
| SwitchGesture.MeasureSettles | app/src/main/java/com/edgar/switchbutton/SwitchButton.java:65-77 | After a measure pass on a wide track, the thumb is consistent with its bounds and lies between its rest positions |
| SwitchGesture.TouchStepKeepsSettled | app/src/main/java/com/edgar/switchbutton/SwitchButton.java:123-171 | Every touch event keeps the thumb consistent and inside the track, and any animation between rest positions |
| SwitchGesture.ReleaseKeepsSettled | app/src/main/java/com/edgar/switchbutton/SwitchButton.java:157-165 | A drag release keeps the thumb settled |
| SwitchGesture.RunKeepsSettled | app/src/main/java/com/edgar/switchbutton/SwitchButton.java:123-171 | A whole sequence of touch events never takes the thumb out of the track |
| SwitchGesture.AnimationUpdateKeepsSettled | app/src/main/java/com/edgar/switchbutton/SwitchButton.java:192-196 | Animation updates with values between the animation's endpoints keep the thumb settled |
| SwitchGesture.SetCheckedKeepsSettled | app/src/main/java/com/edgar/switchbutton/SwitchButton.java:113-120 | Setting the state starts only an animation whose endpoints lie in the track |
| SwitchGesture.AnimationEndsAtRest | app/src/main/java/com/edgar/switchbutton/SwitchButton.java:187-201 | The animation's last update leaves the thumb at the rest position of the state that started it |
| SwitchGesture.NoDragWithinSlop | app/src/main/java/com/edgar/switchbutton/SwitchButton.java:136-150 | Any number of MOVEs within the slop of the press point never start a drag, move the thumb or change the state. Each one reaches the base class |
| SwitchGesture.StaleDragAfterRelease | app/src/main/java/com/edgar/switchbutton/SwitchButton.java:157-166 | As written: after a drag is released the mode stays DRAGGING, so a later gesture that starts off the thumb moves it (from 2 to 63) |
| SwitchGesture.TouchStepIntended | app/src/main/java/com/edgar/switchbutton/SwitchButton.java:157-168 | Intended release: every UP or CANCEL ends in IDLE, otherwise as written |
| SwitchGesture.ReleaseEndsGesture | app/src/main/java/com/edgar/switchbutton/SwitchButton.java:125-168 | With the intended release, a new gesture that starts off the thumb cannot move it |
| SwitchButton.SwitchButton.constructor | app/src/main/java/com/edgar/switchbutton/SwitchButton.java:50-62 | A new switch is idle and unmeasured and holds the `checked` attribute, with no animation |
| SwitchButton.SwitchButton.OnAttachedToWindow | app/src/main/java/com/edgar/switchbutton/SwitchButton.java:117 | Attaching the view makes `isAttachedToWindow` hold and changes nothing else |
| SwitchButton.SwitchButton.OnLayout | app/src/main/java/com/edgar/switchbutton/SwitchButton.java:117 | A layout pass makes `isLaidOut` hold and changes nothing else |
| SwitchButton.SwitchButton.OnMeasure | app/src/main/java/com/edgar/switchbutton/SwitchButton.java:65-77 | Updates the fields as `SwitchGesture.OnMeasure` specifies |
| SwitchButton.SwitchButton.SetThumbPosition | app/src/main/java/com/edgar/switchbutton/SwitchButton.java:203-207 | Updates the fields as `SwitchGesture.SetThumbPosition` specifies |
| SwitchButton.SwitchButton.StartDragging | app/src/main/java/com/edgar/switchbutton/SwitchButton.java:173-185 | Moves the thumb to the clamped drag position and records x, as `SwitchGesture.StartDragging` |
| SwitchButton.SwitchButton.AnimationChecked | app/src/main/java/com/edgar/switchbutton/SwitchButton.java:187-201 | Restarts the animation from the current position to the rest position of the state |
| SwitchButton.SwitchButton.SetChecked | app/src/main/java/com/edgar/switchbutton/SwitchButton.java:113-120 | Updates the fields as `SwitchGesture.SetChecked` specifies |
| SwitchButton.SwitchButton.Toggle | app/src/main/java/com/edgar/switchbutton/SwitchButton.java:108-111 | Updates the fields as `SwitchGesture.Toggle` specifies |
| SwitchButton.SwitchButton.OnAnimationUpdate | app/src/main/java/com/edgar/switchbutton/SwitchButton.java:192-196 | The animator's listener moves the thumb to a value between the animation's endpoints |
| SwitchButton.SwitchButton.OnTouchEvent | app/src/main/java/com/edgar/switchbutton/SwitchButton.java:123-171 | The new fields and the returned flag are those of `SwitchGesture.TouchStep`, so every lemma about touch steps and runs holds of the view |
| RoundedGeometry.CornerRadii | widgetlibs/src/main/java/com/edgar/widget/RoundedImageView.java:122-127 | Each corner's radius fills both slots of that corner's pair in an eight-slot array |
| RoundedGeometry.CornerRadiiRoundTrip | widgetlibs/src/main/java/com/edgar/widget/RoundedImageView.java:122-127 | Every paired array is the `updateRadii` array of its four corner values |
| RoundedGeometry.SetCorner | widgetlibs/src/main/java/com/edgar/widget/RoundedImageView.java:92-114 | A corner setter writes both slots of its corner and no other slot, and keeps an array paired |
| RoundedGeometry.CalculateBounds | widgetlibs/src/main/java/com/edgar/widget/RoundedImageView.java:235-245 | The bounds are a square as wide as the smaller padded side, centred in the padded area and inside it |
| RoundedGeometry.DrawableMatrix | widgetlibs/src/main/java/com/edgar/widget/RoundedImageView.java:277-301 | A bitmap without positive size leaves the old matrix. Otherwise the matrix has the centre-crop scale |
| RoundedGeometry.DrawableMatrixCentred | widgetlibs/src/main/java/com/edgar/widget/RoundedImageView.java:286-298 | The scaled bitmap's centre is within -0.5 to +1.5 pixels of the image rectangle's centre on each axis |
| RoundedGeometry.RoundingError | widgetlibs/src/main/java/com/edgar/widget/RoundedImageView.java:298 | `(int) (d + 0.5f)` is off from a non-positive `d` by more than -0.5 and less than 1.5 |
| RoundedGeometry.UpdateDrawable | widgetlibs/src/main/java/com/edgar/widget/RoundedImageView.java:247-275 | Keeps both radii arrays at eight slots. Its behaviour is stated by the lemmas that follow |
| RoundedGeometry.UpdateNeedsBitmapAndFrame | widgetlibs/src/main/java/com/edgar/widget/RoundedImageView.java:247-250 | Without a bitmap, or before the first frame, an update changes nothing |
| RoundedGeometry.RoundedInset | widgetlibs/src/main/java/com/edgar/widget/RoundedImageView.java:257-263 | A border beside a rounded image insets it by half the border. Every image radius is the border's less half the border. The border's radii are untouched |
| RoundedGeometry.CircleStrokeMeetsImage | widgetlibs/src/main/java/com/edgar/widget/RoundedImageView.java:264-271 | In circle mode, a stroke beside the image meets the image circle exactly. An overlaid stroke covers the image's outer band |
| RoundedGeometry.DrawableMatrixStable | widgetlibs/src/main/java/com/edgar/widget/RoundedImageView.java:277-301 | Recomputing the matrix for the same bitmap and rectangle gives the same matrix |
| RoundedGeometry.UpdateIdempotent | widgetlibs/src/main/java/com/edgar/widget/RoundedImageView.java:247-275 | Updating twice is updating once |
| RoundedGeometry.SetFrame | widgetlibs/src/main/java/com/edgar/widget/RoundedImageView.java:185-191 | After `setFrame` the view has that frame and its geometry is recomputed |
| RoundedGeometry.InitBitmap | widgetlibs/src/main/java/com/edgar/widget/RoundedImageView.java:205-233 | No drawable clears the bitmap. A drawable of non-positive size throws and the exception is caught, leaving everything unchanged |
| RoundedGeometry.InitBitmapTakesBitmap | widgetlibs/src/main/java/com/edgar/widget/RoundedImageView.java:205-233 | Whatever drawable is set, the view then holds the bitmap taken from it, and the frame and border are untouched |
| RoundedGeometry.GetScaleType | widgetlibs/src/main/java/com/edgar/widget/RoundedImageView.java:158-165 | The scale type is CENTER_CROP while rounding is supported, the base class's otherwise |
| RoundedGeometry.SetScaleType | widgetlibs/src/main/java/com/edgar/widget/RoundedImageView.java:151-156 | A scale type set while rounding is supported is ignored. Otherwise it is the one read back |
| RoundedGeometry.SetBorderColor | widgetlibs/src/main/java/com/edgar/widget/RoundedImageView.java:129-134 | The border colour becomes the given colour and nothing else changes |
| RoundedGeometry.SetBorderSize | widgetlibs/src/main/java/com/edgar/widget/RoundedImageView.java:136-142 | The border size becomes the given size. The same size is a no-op |
| RoundedGeometry.SetCircle | widgetlibs/src/main/java/com/edgar/widget/RoundedImageView.java:144-149 | The circle flag becomes the given value. The same value is a no-op |
| RoundedGeometry.SetCornerRadiusChangesOneCorner | widgetlibs/src/main/java/com/edgar/widget/RoundedImageView.java:92-114 | A corner setter changes exactly that corner's two border slots, and the image's too unless the image is inset |
| RoundedGeometry.ConstructorSwapsBottomCorners | widgetlibs/src/main/java/com/edgar/widget/RoundedImageView.java:84 | As written: bottom-left 1 and bottom-right 2 come out as 2 and 1 |
| RoundedGeometry.ConstructorRadiiIntended | widgetlibs/src/main/java/com/edgar/widget/RoundedImageView.java:80-84 | Intended: every corner attribute lands in its own corner's slots |
| RoundedGeometry.RadiiStayReducedAfterBorderRemoved | widgetlibs/src/main/java/com/edgar/widget/RoundedImageView.java:257-263 | As written: border 4 then border 0 leaves the image's radii at 8 instead of 10, although the image fills the border square |
| RoundedGeometry.UpdateDrawableIntended | widgetlibs/src/main/java/com/edgar/widget/RoundedImageView.java:247-275 | Intended update: the image's radii are the border's whenever the image is not inset |
| RoundedGeometry.IntendedUpdateForgetsHistory | widgetlibs/src/main/java/com/edgar/widget/RoundedImageView.java:257-263 | With the intended update, stale image radii make no difference to the result |
| RoundedGeometry.StaleShaderAfterNewBitmap | widgetlibs/src/main/java/com/edgar/widget/RoundedImageView.java:212-253 | As written: a second BitmapDrawable keeps the first bitmap's shader while the matrix is fitted to the second |
| RoundedGeometry.InitBitmapIntended | widgetlibs/src/main/java/com/edgar/widget/RoundedImageView.java:205-233 | Intended hand-over: the view holds the taken bitmap, with a fresh shader |
| RoundedGeometry.UpdateKeepsShaderCurrent | widgetlibs/src/main/java/com/edgar/widget/RoundedImageView.java:251-253 | An update never makes the shader draw a bitmap the view does not hold |
| RoundedGeometry.IntendedInitBitmapKeepsShaderCurrent | widgetlibs/src/main/java/com/edgar/widget/RoundedImageView.java:205-233 | With the intended hand-over, the shader always draws the view's bitmap |
| RoundedImage.RoundedImageView.constructor | widgetlibs/src/main/java/com/edgar/widget/RoundedImageView.java:62-90 | A new view holds the attribute radii as the constructor passes them, and has taken its drawable |
| RoundedImage.RoundedImageView.UpdateRadii | widgetlibs/src/main/java/com/edgar/widget/RoundedImageView.java:122-127 | The array then holds `CornerRadii` of the four values |
| RoundedImage.RoundedImageView.UpdateDrawableMatrix | widgetlibs/src/main/java/com/edgar/widget/RoundedImageView.java:277-301 | Only the matrix changes, to `DrawableMatrix` of the bitmap and image rectangle |
| RoundedImage.RoundedImageView.UpdateBounds | widgetlibs/src/main/java/com/edgar/widget/RoundedImageView.java:255-267 | Sets both rectangles and the image radii, and nothing else |
| RoundedImage.RoundedImageView.UpdateCircleRadii | widgetlibs/src/main/java/com/edgar/widget/RoundedImageView.java:268-271 | Sets both circle radii from the rectangles, and nothing else |
| RoundedImage.RoundedImageView.UpdateDrawable | widgetlibs/src/main/java/com/edgar/widget/RoundedImageView.java:247-275 | Updates the fields and arrays as `RoundedGeometry.UpdateDrawable` specifies |
| RoundedImage.RoundedImageView.SetTopLeftRadii | widgetlibs/src/main/java/com/edgar/widget/RoundedImageView.java:92-96 | Updates as `RoundedGeometry.SetCornerRadius` for the top-left corner |
| RoundedImage.RoundedImageView.SetTopRightRadii | widgetlibs/src/main/java/com/edgar/widget/RoundedImageView.java:98-102 | Updates as `RoundedGeometry.SetCornerRadius` for the top-right corner |
| RoundedImage.RoundedImageView.SetBottomLeftRadii | widgetlibs/src/main/java/com/edgar/widget/RoundedImageView.java:104-108 | Updates as `RoundedGeometry.SetCornerRadius` for the bottom-left corner |
| RoundedImage.RoundedImageView.SetBottomRightRadii | widgetlibs/src/main/java/com/edgar/widget/RoundedImageView.java:110-114 | Updates as `RoundedGeometry.SetCornerRadius` for the bottom-right corner |
| RoundedImage.RoundedImageView.SetCornerRadii | widgetlibs/src/main/java/com/edgar/widget/RoundedImageView.java:116-120 | Both arrays get the four radii, then the view updates |
| RoundedImage.RoundedImageView.SetBorderColor | widgetlibs/src/main/java/com/edgar/widget/RoundedImageView.java:129-134 | Updates as `RoundedGeometry.SetBorderColor` specifies |
| RoundedImage.RoundedImageView.SetBorderSize | widgetlibs/src/main/java/com/edgar/widget/RoundedImageView.java:136-142 | Updates as `RoundedGeometry.SetBorderSize` specifies |
| RoundedImage.RoundedImageView.SetCircle | widgetlibs/src/main/java/com/edgar/widget/RoundedImageView.java:144-149 | Updates as `RoundedGeometry.SetCircle` specifies |
| RoundedImage.RoundedImageView.SetScaleType | widgetlibs/src/main/java/com/edgar/widget/RoundedImageView.java:151-156 | Updates as `RoundedGeometry.SetScaleType` specifies |
| RoundedImage.RoundedImageView.SetFrame | widgetlibs/src/main/java/com/edgar/widget/RoundedImageView.java:185-191 | Returns whether the bounds changed, and updates as `RoundedGeometry.SetFrame` |
| RoundedImage.RoundedImageView.InitBitmap | widgetlibs/src/main/java/com/edgar/widget/RoundedImageView.java:205-233 | Updates as `RoundedGeometry.InitBitmap` specifies |
| RoundedImage.RoundedImageView.SetImageBitmap | widgetlibs/src/main/java/com/edgar/widget/RoundedImageView.java:167-171 | Takes the bitmap as a BitmapDrawable |
| CircleGeometry.BorderRect | widgetlibs/src/main/java/com/edgar/widget/CircleImageView.java:128-136 | The border rectangle is the whole padded area of the measured view |
| CircleGeometry.ImageMatrix | widgetlibs/src/main/java/com/edgar/widget/CircleImageView.java:146-170 | A bitmap without positive size leaves the old matrix. Otherwise the matrix has the centre-crop scale |
| CircleGeometry.UpdateCircleImage | widgetlibs/src/main/java/com/edgar/widget/CircleImageView.java:124-127 | Without a bitmap, or before the first size change, an update changes nothing |
| CircleGeometry.UpdateGeometry | widgetlibs/src/main/java/com/edgar/widget/CircleImageView.java:128-141 | An update makes a shader for the held bitmap. The border fills the padded area and the image fills it less the border when the border is beside it |
| CircleGeometry.StrokeMeetsImage | widgetlibs/src/main/java/com/edgar/widget/CircleImageView.java:136-141 | A stroke beside the image meets the image circle exactly. An overlaid stroke covers its outer band |
| CircleGeometry.ImageMatrixStable | widgetlibs/src/main/java/com/edgar/widget/CircleImageView.java:146-170 | Recomputing the matrix for the same bitmap and rectangle gives the same matrix |
| CircleGeometry.UpdateIdempotent | widgetlibs/src/main/java/com/edgar/widget/CircleImageView.java:124-144 | Updating twice is updating once |
| CircleGeometry.OnSizeChanged | widgetlibs/src/main/java/com/edgar/widget/CircleImageView.java:93-98 | After a size change the view has a frame |
| CircleGeometry.InitBitmapTakesBitmap | widgetlibs/src/main/java/com/edgar/widget/CircleImageView.java:100-122 | Every drawable but a missing one becomes the view's bitmap. Neither a new drawable nor a size change leaves the shader on an old bitmap |
| CircleGeometry.ImageOffCentreWithPadding | widgetlibs/src/main/java/com/edgar/widget/CircleImageView.java:167 | As written: with padding 10 in a 100 by 100 view, the circle is centred at 50 but the bitmap at 40 |
| CircleGeometry.ImageMatrixIntended | widgetlibs/src/main/java/com/edgar/widget/CircleImageView.java:146-170 | Intended matrix: the scaled bitmap is centred on the image rectangle to within half a pixel |
| CircleGeometry.ClearedDrawableStillDrawn | widgetlibs/src/main/java/com/edgar/widget/CircleImageView.java:100-119 | As written: clearing the drawable keeps the old bitmap |
| CircleGeometry.InitBitmapIntended | widgetlibs/src/main/java/com/edgar/widget/CircleImageView.java:100-122 | Intended: the view holds exactly the bitmap taken from the drawable, none for no drawable |
| CircleImage.CircleImageView.constructor | widgetlibs/src/main/java/com/edgar/widget/CircleImageView.java:51-68 | A new view has taken its drawable, and its shader is current |
| CircleImage.CircleImageView.GetScaleType | widgetlibs/src/main/java/com/edgar/widget/CircleImageView.java:70-73 | The scale type is always CENTER_CROP |
| CircleImage.CircleImageView.SetMeasuredDimension | widgetlibs/src/main/java/com/edgar/widget/CircleImageView.java:130-131 | The measured size `updateCircleImage` reads is recorded and nothing else changes |
| CircleImage.CircleImageView.OnSizeChanged | widgetlibs/src/main/java/com/edgar/widget/CircleImageView.java:93-98 | Updates as `CircleGeometry.OnSizeChanged` specifies |
| CircleImage.CircleImageView.InitBitmap | widgetlibs/src/main/java/com/edgar/widget/CircleImageView.java:100-122 | Updates as `CircleGeometry.InitBitmap` specifies |
| CircleImage.CircleImageView.SetImageBitmap | widgetlibs/src/main/java/com/edgar/widget/CircleImageView.java:75-79 | Takes the bitmap as a BitmapDrawable |
| CircleImage.CircleImageView.UpdateCircleImage | widgetlibs/src/main/java/com/edgar/widget/CircleImageView.java:124-144 | Updates as `CircleGeometry.UpdateCircleImage` specifies |
| CircleImage.CircleImageView.UpdateImageMatrix | widgetlibs/src/main/java/com/edgar/widget/CircleImageView.java:146-170 | Only the matrix changes, to `ImageMatrix` of the bitmap and image rectangle |
| Parcels.WriteAt | widgetlibs/src/main/java/com/edgar/span/BulletSpanCompat.java:114 | `writeInt` puts the int at the position and keeps everything before it. It overwrites the int there, or appends at the end |
| Parcels.WriteAllAtStep | widgetlibs/src/main/java/com/edgar/span/BulletSpanCompat.java:113-118 | Writing a run of ints is writing its first int, then the rest from the next position |
| Parcels.WriteAllAtContents | widgetlibs/src/main/java/com/edgar/span/BulletSpanCompat.java:113-118 | Consecutive writes leave the ints in order from the position, with everything before and after untouched |
| Parcels.ReadAt | widgetlibs/src/main/java/com/edgar/span/BulletSpanCompat.java:88 | `readInt` returns the int at the position and advances. Past the end it returns 0 and stays |
| Parcels.Parcel.WriteInt | widgetlibs/src/main/java/com/edgar/span/BulletSpanCompat.java:114 | The parcel's data and position change as `WriteAt` |
| Parcels.Parcel.ReadInt | widgetlibs/src/main/java/com/edgar/span/BulletSpanCompat.java:88 | The int and new position are those of `ReadAt`, and the data is unchanged |
| BulletSpans.BulletSpan.SpanTypeId | widgetlibs/src/main/java/com/edgar/span/BulletSpanCompat.java:94-101 | The span parcels as the framework's BulletSpan type |
| BulletSpans.BulletSpan.DescribeContents | widgetlibs/src/main/java/com/edgar/span/BulletSpanCompat.java:103-106 | No file descriptors are parcelled |
| BulletSpans.BulletSpan.LeadingMargin | widgetlibs/src/main/java/com/edgar/span/BulletSpanCompat.java:120-123 | The margin is the diameter plus the gap in 32-bit arithmetic, and exactly that when it fits |
| BulletSpans.Default | widgetlibs/src/main/java/com/edgar/span/BulletSpanCompat.java:40-42 | The default span has the standard gap, radius and colour, and no colour of its own |
| BulletSpans.WithGap | widgetlibs/src/main/java/com/edgar/span/BulletSpanCompat.java:49-51 | The default span with the given gap |
| BulletSpans.WithColor | widgetlibs/src/main/java/com/edgar/span/BulletSpanCompat.java:60-62 | The gap span with its own given colour |
| BulletSpans.WithRadius | widgetlibs/src/main/java/com/edgar/span/BulletSpanCompat.java:72-74 | The colour span with the given radius |
| BulletSpans.Encode | widgetlibs/src/main/java/com/edgar/span/BulletSpanCompat.java:113-118 | A span parcels as four ints |
| BulletSpans.DecodeFour | widgetlibs/src/main/java/com/edgar/span/BulletSpanCompat.java:87-92 | Four ints decode, in the order gap, want-colour, colour, radius, and the position moves past them |
| BulletSpans.RoundTrip | widgetlibs/src/main/java/com/edgar/span/BulletSpanCompat.java:87-118 | Reading a span from where it was written gives the same span back, whatever surrounds it |
| BulletSpans.EncodeDecode | widgetlibs/src/main/java/com/edgar/span/BulletSpanCompat.java:87-92 | Four ints with a 0 or 1 flag are the encoding of what they decode to |
| BulletSpans.WriteToParcel | widgetlibs/src/main/java/com/edgar/span/BulletSpanCompat.java:108-118 | The parcel gets the span's four ints at its position and moves past them |
| BulletSpans.FromParcel | widgetlibs/src/main/java/com/edgar/span/BulletSpanCompat.java:87-92 | The span read and the new position are those of `Decode` |
| BulletSpans.BulletBottom | widgetlibs/src/main/java/com/edgar/span/BulletSpanCompat.java:168-173 | The bottom is unchanged on a single-line layout. Otherwise it is within one pixel of `bottom` less the extra spacing, for any spacing, negative included |
| BulletSpans.TruncWithinOne | widgetlibs/src/main/java/com/edgar/span/BulletSpanCompat.java:172 | Taking any spacing off `bottom` and truncating with `(int)` stays within one pixel of the exact value |
| BulletSpans.BulletCentre | widgetlibs/src/main/java/com/edgar/span/BulletSpanCompat.java:168-176 | The centre is midway between the top and the bottom, and one radius from x in the paragraph's direction |
| BulletSpans.DrawLeadingMargin | widgetlibs/src/main/java/com/edgar/span/BulletSpanCompat.java:152-198 | On the span's first line it draws a filled bullet at the centre, in its own colour when it has one. Otherwise it draws nothing. The paint's colour and style are restored |
| SpannedText.Plain | widgetlibs/src/main/java/com/edgar/widget/DotTextView.java:48 | `toString` keeps the characters and drops every span |
| SpannedText.Shifted | widgetlibs/src/main/java/com/edgar/widget/DotTextView.java:80 | Appended spans keep their objects and flags and move by the length before them |
| SpannedText.BulletCountAppend | widgetlibs/src/main/java/com/edgar/widget/DotTextView.java:80-81 | The bullets of two span lists add up |
| SpannedText.SpannableStringBuilder.constructor | widgetlibs/src/main/java/com/edgar/widget/DotTextView.java:75 | A new builder is empty |
| SpannedText.SpannableStringBuilder.ClearAll | widgetlibs/src/main/java/com/edgar/widget/DotTextView.java:77-78 | Clearing leaves no characters and no spans |
| SpannedText.SpannableStringBuilder.Append | widgetlibs/src/main/java/com/edgar/widget/DotTextView.java:80 | Appending adds the characters and the shifted spans at the end |
| SpannedText.SpannableStringBuilder.SetSpan | widgetlibs/src/main/java/com/edgar/widget/DotTextView.java:81 | The span is added over the range and the characters are kept |
| DotSpans.DotSpan | widgetlibs/src/main/java/com/edgar/widget/DotTextView.java:70-83 | Without a wanted dot the text is returned as it is. Otherwise the result has the same characters and spans plus one bullet over the whole text |
| DotSpans.RawText | widgetlibs/src/main/java/com/edgar/widget/DotTextView.java:46-49 | The raw text is the characters, or empty for a null text |
| DotSpans.Shown | widgetlibs/src/main/java/com/edgar/widget/DotTextView.java:67 | The base class shows a null text as empty |
| DotSpans.SetText | widgetlibs/src/main/java/com/edgar/widget/DotTextView.java:65-68 | Setting text shows its characters and keeps the dot settings |
| DotSpans.SetDotColor | widgetlibs/src/main/java/com/edgar/widget/DotTextView.java:51-56 | The colour becomes the given one. The same colour is a no-op |
| DotSpans.SetDotSize | widgetlibs/src/main/java/com/edgar/widget/DotTextView.java:58-63 | The size becomes the given one. The same size is a no-op |
| DotSpans.RestyleKeepsOneBullet | widgetlibs/src/main/java/com/edgar/widget/DotTextView.java:51-63 | After a dot change the text keeps its characters and carries exactly one bullet (when wanted) or none, so bullets never stack |
| DotSpans.SetDotColorShowsDot | widgetlibs/src/main/java/com/edgar/widget/DotTextView.java:51-56 | After a colour change there is a bullet exactly when the text is non-empty, the colour visible and the size positive |
| DotText.DotTextView.constructor | widgetlibs/src/main/java/com/edgar/widget/DotTextView.java:34-44 | A new view applies the size and then the colour to its initial text |
| DotText.DotTextView.GetRawText | widgetlibs/src/main/java/com/edgar/widget/DotTextView.java:46-49 | The raw text is the shown text's characters |
| DotText.DotTextView.GetDotSpan | widgetlibs/src/main/java/com/edgar/widget/DotTextView.java:70-83 | Returns `DotSpan` of the text, reusing one builder, and changes no view state |
| DotText.DotTextView.SetText | widgetlibs/src/main/java/com/edgar/widget/DotTextView.java:65-68 | Updates as `DotSpans.SetText` specifies |
| DotText.DotTextView.SetDotColor | widgetlibs/src/main/java/com/edgar/widget/DotTextView.java:51-56 | Updates as `DotSpans.SetDotColor` specifies |
| DotText.DotTextView.SetDotSize | widgetlibs/src/main/java/com/edgar/widget/DotTextView.java:58-63 | Updates as `DotSpans.SetDotSize` specifies |
| Ripple.SetAlphaComponent | widgetlibs/src/main/java/com/edgar/utils/RippleUtils.java:179 | The alpha is replaced and the colour bits are kept |
| Ripple.DoubleAlpha | widgetlibs/src/main/java/com/edgar/utils/RippleUtils.java:175-180 | The alpha doubles, capped at 255, and the colour bits are kept |
| Ripple.DoubleAlphaExtremes | widgetlibs/src/main/java/com/edgar/utils/RippleUtils.java:177-180 | Transparent stays transparent, half opacity or more becomes opaque, and alpha never decreases |
| Ripple.MatchesRequired | widgetlibs/src/main/java/com/edgar/utils/RippleUtils.java:164 | A spec of required states matches exactly the state sets holding all of them |
| Ripple.ColorFromIsFirstMatch | widgetlibs/src/main/java/com/edgar/utils/RippleUtils.java:164 | The colour lookup returns the first matching entry's colour, or the default when none matches |
| Ripple.LastWildcardColorIsLastEmpty | widgetlibs/src/main/java/com/edgar/utils/RippleUtils.java:164 | The default colour is that of the last empty-spec entry, or of the first entry |
| Ripple.ColorForStateSpec | widgetlibs/src/main/java/com/edgar/utils/RippleUtils.java:160-169 | No list gives transparent. Otherwise it is the list's colour, with the alpha doubled for framework ripples |
| Ripple.RippleTableDefault | widgetlibs/src/main/java/com/edgar/utils/RippleUtils.java:83-157 | A table's default colour is the pressed colour (framework) or transparent (pre-framework) |
| Ripple.FrameworkRippleColors | widgetlibs/src/main/java/com/edgar/utils/RippleUtils.java:84-106 | The two-entry table gives selected states the selected-pressed colour and all others the pressed colour |
| Ripple.LegacyRippleColors | widgetlibs/src/main/java/com/edgar/utils/RippleUtils.java:107-157 | The ten-entry table gives every state the colour of its most specific case, and transparent when none applies |
| Ripple.Put | widgetlibs/src/main/java/com/edgar/utils/RippleUtils.java:97-99 | One entry is written at the index and the index advances |
| Ripple.FrameworkRippleTable | widgetlibs/src/main/java/com/edgar/utils/RippleUtils.java:84-106 | The filled arrays are exactly the framework table. The index ends at the size, so every entry is set |
| Ripple.LegacyRippleTable | widgetlibs/src/main/java/com/edgar/utils/RippleUtils.java:107-157 | The filled arrays are exactly the ten-entry table. The index ends at the size |
| Ripple.ConvertToRippleDrawableColor | widgetlibs/src/main/java/com/edgar/utils/RippleUtils.java:83-158 | The result is the framework or pre-framework table for the colour list |
| ViewUtils.ParseAttrValue | widgetlibs/src/main/java/com/edgar/utils/ViewUtils.java:12-27 | Every nameable mode parses back from its attribute value, whatever the default |
| ViewUtils.AttrValueOfParse | widgetlibs/src/main/java/com/edgar/utils/ViewUtils.java:12-27 | The five values parse to modes that map back to them. Every other value gives the default |
| ViewUtils.ParseTintModeInjective | widgetlibs/src/main/java/com/edgar/utils/ViewUtils.java:13-23 | The five named values give five different modes |

## Left out

- Drawing: the canvas calls in every `onDraw` are not modelled, and neither are `verifyDrawable`, the shader and paint objects or the matrix application. The shader is the bitmap it was made for; the matrix is its scale and translation.
- Bitmap creation and recycling (`createBitmap`, `onDetachedFromWindow`, `recycleBitmap`): a created bitmap is its size.
- Attribute parsing from TypedArrays, including CircleImageView.java:61, which reads the border size with `getColor`. The constructors take the parsed values as parameters.
- The base classes (CompoundButton, ImageView, TextView) are not modelled. The click and `toggle()` that View's UP handling performs after a DOWN it saw are not modelled; the `SuperTouch` log records which events reach it, and the base class's answer where the switch returns it is the parameter `superResult`.
- ValueAnimator timing: only the start and target values are recorded. The listener is `OnAnimationUpdate` with any value between them.
- `getAvailableWidth` (SwitchButton.java:100-102) is never called and is not modelled.
- `hitThumb`'s null-drawable branch cannot be reached from `onTouchEvent`. `HitThumb` still models it.
- Floating point: float values are `real`. Rounding error, NaN and the saturation of float-to-int casts are not modelled.
- Pixel ints are unbounded except where the code's int arithmetic shows: `LeadingMargin`, the horizontal centre of `BulletCentre`, and the Parcel ints.
- BulletSpans.BulletCentre: the vertical sum `top + bottom` is an unbounded int, where Java adds two ints with wrap-around; the model does not capture the wrap for line positions near 2^31.
- RippleUtils.createRippleDrawable and `USE_FRAMEWORK_RIPPLE`'s SDK check: the constant is the parameter `framework`.
- ColorStateList: `Matches` ignores `stateSetMatches`' 0 terminators. Lists whose state and colour arrays differ in length are excluded by the `ColorList` type.
- CircleImage.CircleImageView.SetMeasuredDimension stands in for the framework's measure pass.
- SpannedText.SpannableStringBuilder.ClearAll: `clear()` and `clearSpans()` are one method, since they are always called together.
- DotTextView: `getText()` never returns null from a TextView, so the shown text is never null. `RawText` still models the null branch.
- RoundedGeometry.UpdateDrawable: its contract states only that the radii arrays keep eight slots. What it computes is stated by the lemmas about it.
- BulletSpans.BulletCentre: the horizontal centre is stated for the directions 1 and -1 only, the two that a Layout passes.
- The sample activities, RoundImageView, TriangleView, SmoothImageView and IndexItem are not part of this model.
- The classes follow the code as written. The intended versions in the findings stand beside the as-written functions and are not used by the classes.

## Findings

| source | as written | input that shows it | evidently intended | confidence | as-written member | corrected member |
|---|---|---|---|---|---|---|
| app/src/main/java/com/edgar/switchbutton/SwitchButton.java:159-166 | releasing a drag returns before `mTouchMode = TOUCH_MODE_IDLE`, so the mode stays DRAGGING | drag the thumb 20 pixels and release, then press off the thumb and move 1 pixel: the thumb jumps from 2 to 63 | every UP or CANCEL ends the gesture in IDLE | not executed | SwitchGesture.StaleDragAfterRelease | SwitchGesture.TouchStepIntended, SwitchGesture.ReleaseEndsGesture |
| widgetlibs/src/main/java/com/edgar/widget/RoundedImageView.java:84 | `updateRadii` is passed bottom-left before bottom-right, where its third parameter is bottom-right | bottom-left 1, bottom-right 2: the bottom-left corner gets 2 | each corner attribute goes to its own corner | not executed | RoundedGeometry.ConstructorSwapsBottomCorners | RoundedGeometry.ConstructorRadiiIntended |
| widgetlibs/src/main/java/com/edgar/widget/RoundedImageView.java:257-263 | the image's radii are only recomputed while a border insets the image | radii 10, border 4 then border 0: the image radii stay 8 | image radii derived from the border radii on every update | not executed | RoundedGeometry.RadiiStayReducedAfterBorderRemoved | RoundedGeometry.UpdateDrawableIntended, RoundedGeometry.IntendedUpdateForgetsHistory |
| widgetlibs/src/main/java/com/edgar/widget/RoundedImageView.java:212-213 | a BitmapDrawable keeps the existing shader, which `updateDrawable` only creates when there is none | show a 100 by 100 bitmap, then set a 50 by 80 one: the first bitmap stays in the shader | a new shader for every new bitmap | not executed | RoundedGeometry.StaleShaderAfterNewBitmap | RoundedGeometry.InitBitmapIntended, RoundedGeometry.IntendedInitBitmapKeepsShaderCurrent |
| widgetlibs/src/main/java/com/edgar/widget/CircleImageView.java:167 | the matrix is translated by the centring offsets only, not by the image rectangle's origin | padding 10 in a 100 by 100 view with an 80 by 80 bitmap: circle centred at 50, bitmap at 40 | translate by the rectangle's origin too, as RoundedImageView does | not executed | CircleGeometry.ImageOffCentreWithPadding | CircleGeometry.ImageMatrixIntended |
| widgetlibs/src/main/java/com/edgar/widget/CircleImageView.java:100-119 | a null drawable throws inside `initBitmap`, and the catch leaves the old bitmap | show a 50 by 50 bitmap, then clear the drawable: the 50 by 50 bitmap is still drawn | no drawable, no bitmap | not executed | CircleGeometry.ClearedDrawableStillDrawn | CircleGeometry.InitBitmapIntended |
