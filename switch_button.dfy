// The SwitchButton view: its fields, updated in place, each method proved against SwitchGesture.

module SwitchButton {
  import opened Wrappers
  import opened Jvm
  import opened Graphics
  import opened SwitchGesture

  class SwitchButton {
    // Fixed at construction: the scaled touch slop, the padding and the drawables' intrinsic sizes.
    const touchSlop: int
    const thumbPadding: int
    const thumbWidth: int
    const thumbHeight: int
    const trackWidth: int
    const trackHeight: int

    var touchMode: TouchMode
    var lastTouchX: real
    var lastTouchY: real
    var thumbPosition: int
    /** The bounds of the thumb and track drawables. */
    var thumbBounds: Rect
    var trackBounds: Rect
    /** CompoundButton's checked flag. */
    var checked: bool
    /** View state the switch reads: measured size, window attachment and whether a layout has happened. */
    var measuredWidth: int
    var measuredHeight: int
    var attached: bool
    var laidOut: bool
    /** The int values the thumb animator was last started with, if it ever was. */
    var thumbAnimation: Option<Animation>
    /** Calls made to the base class's touch handling and to the parent. */
    var effects: seq<Effect>

    function Params(): SwitchGesture.Config {
      SwitchGesture.Config(touchSlop, thumbPadding, thumbWidth, thumbHeight, trackWidth, trackHeight)
    }

    function Snapshot(): SwitchGesture.State
      reads this
    {
      SwitchGesture.State(touchMode, lastTouchX, lastTouchY, thumbPosition, thumbBounds, trackBounds,
            checked, measuredWidth, measuredHeight, attached, laidOut, thumbAnimation, effects)
    }

    /**
     * The view after construction: the base class applied the `checked` attribute (not yet attached,
     * so no animation), the drawables have empty bounds and nothing is measured.
     */
    constructor (touchSlop: int, thumbPadding: int, thumbWidth: int, thumbHeight: int,
                 trackWidth: int, trackHeight: int, checked: bool)
      ensures Params() == SwitchGesture.Config(touchSlop, thumbPadding, thumbWidth, thumbHeight, trackWidth, trackHeight)
      ensures Snapshot() == SwitchGesture.State(Idle, 0.0, 0.0, 0, Rect(0, 0, 0, 0), Rect(0, 0, 0, 0),
                                             checked, 0, 0, false, false, None, [])
    {
      this.touchSlop, this.thumbPadding := touchSlop, thumbPadding;
      this.thumbWidth, this.thumbHeight := thumbWidth, thumbHeight;
      this.trackWidth, this.trackHeight := trackWidth, trackHeight;
      touchMode := Idle;
      lastTouchX, lastTouchY := 0.0, 0.0;
      thumbPosition := 0;
      thumbBounds, trackBounds := Rect(0, 0, 0, 0), Rect(0, 0, 0, 0);
      this.checked := checked;
      measuredWidth, measuredHeight := 0, 0;
      attached, laidOut := false, false;
      thumbAnimation := None;
      effects := [];
    }

    /** The base View's attachment to a window, which `ViewCompat.isAttachedToWindow` reports. */
    method OnAttachedToWindow()
      modifies this
      ensures Snapshot() == old(Snapshot()).(attached := true)
    {
      attached := true;
    }

    /** The base View's layout pass, after which `ViewCompat.isLaidOut` holds. */
    method OnLayout()
      modifies this
      ensures Snapshot() == old(Snapshot()).(laidOut := true)
    {
      laidOut := true;
    }

    /** `isChecked()`. */
    function IsChecked(): bool
      reads this
    {
      checked
    }

    method OnMeasure()
      modifies this
      ensures Snapshot() == SwitchGesture.OnMeasure(Params(), old(Snapshot()))
    {
      var height := MaxInt(thumbHeight, trackHeight);
      measuredWidth, measuredHeight := trackWidth, height;
      var thumbTop := Half(trackHeight - thumbHeight);
      thumbPosition := if checked then measuredWidth - thumbPadding - thumbWidth else thumbPadding;
      thumbBounds := Rect(thumbPosition, thumbTop, thumbPosition + thumbWidth, thumbTop + thumbHeight);
      trackBounds := Rect(0, 0, trackWidth, trackHeight);
    }

    method SetThumbPosition(position: int)
      modifies this
      ensures Snapshot() == SwitchGesture.SetThumbPosition(Params(), old(Snapshot()), position)
    {
      thumbPosition := position;
      var bounds := thumbBounds;
      thumbBounds := Rect(position, bounds.top, position + thumbWidth, bounds.bottom);
    }

    method StartDragging(x: real)
      modifies this
      ensures Snapshot() == SwitchGesture.StartDragging(Params(), old(Snapshot()), x)
    {
      var thumbScrollOffset := x - lastTouchX;
      var newPosition := TruncToInt(thumbScrollOffset + thumbBounds.left as real);
      if newPosition < thumbPadding {
        newPosition := thumbPadding;
      }
      var switchLeft := SwitchLeft(Params(), measuredWidth);
      if newPosition > switchLeft {
        newPosition := switchLeft;
      }
      SetThumbPosition(newPosition);
      lastTouchX := x;
    }

    method AnimationChecked(checked: bool)
      modifies this
      ensures Snapshot() == SwitchGesture.AnimationChecked(Params(), old(Snapshot()), checked)
    {
      var targetPosition := if checked then SwitchLeft(Params(), measuredWidth) else thumbPadding;
      thumbAnimation := Some(Animation(thumbPosition, targetPosition));
    }

    method SetChecked(checked: bool)
      modifies this
      ensures Snapshot() == SwitchGesture.SetChecked(Params(), old(Snapshot()), checked)
    {
      this.checked := checked;
      if attached && laidOut {
        AnimationChecked(this.checked);
      }
    }

    method Toggle()
      modifies this
      ensures Snapshot() == SwitchGesture.Toggle(Params(), old(Snapshot()))
    {
      SetChecked(!IsChecked());
    }

    /** The animator's update listener, handed one animated value between the start and target values. */
    method OnAnimationUpdate(value: int)
      requires thumbAnimation.Some?
      requires thumbAnimation.value.from <= value <= thumbAnimation.value.to
               || thumbAnimation.value.to <= value <= thumbAnimation.value.from
      modifies this
      ensures Snapshot() == SwitchGesture.AnimationUpdate(Params(), old(Snapshot()), value)
    {
      SetThumbPosition(value);
    }

    /** `onTouchEvent`; `superResult` is the answer of the base class's handler where it is returned. */
    method OnTouchEvent(event: MotionEvent, superResult: bool) returns (handled: bool)
      modifies this
      ensures Snapshot() == TouchStep(Params(), old(Snapshot()), event, superResult).state
      ensures handled == TouchStep(Params(), old(Snapshot()), event, superResult).handled
    {
      match event.action {
        case ActionDown =>
          if HitThumb(Some(thumbBounds), event.x, event.y) {
            touchMode := Down;
            lastTouchX, lastTouchY := event.x, event.y;
            return true;
          }
        case ActionMove =>
          if touchMode == Down {
            if Abs(event.x - lastTouchX) > touchSlop as real || Abs(event.y - lastTouchY) > touchSlop as real {
              touchMode := Dragging;
              effects := effects + [DisallowIntercept];
              lastTouchX, lastTouchY := event.x, event.y;
              return true;
            }
          } else if touchMode == Dragging {
            StartDragging(event.x);
            return true;
          }
        case ActionUp | ActionCancel =>
          if touchMode == Dragging {
            var centerX := thumbBounds.CenterX();
            SetChecked(centerX >= Half(measuredWidth));
            effects := effects + [SuperTouch(event)];
            return true;
          }
          touchMode := Idle;
        case ActionOther =>
      }
      effects := effects + [SuperTouch(event)];
      handled := superResult;
    }
  }
}
