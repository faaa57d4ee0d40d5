// The SwitchButton toggle as pure state transitions: the specification its class is proved against.

module SwitchGesture {
  import opened Wrappers
  import opened Jvm
  import opened Graphics

  /** TOUCH_MODE_IDLE (0), TOUCH_MODE_DOWN (1), TOUCH_MODE_DRAGGING (2). */
  datatype TouchMode = Idle | Down | Dragging

  /** `MotionEvent.getActionMasked()`; Other is every action the switch does not handle itself. */
  datatype Action = ActionDown | ActionMove | ActionUp | ActionCancel | ActionOther

  datatype MotionEvent = MotionEvent(action: Action, x: real, y: real)

  /**
   * Calls into collaborators: the event handed to `CompoundButton.onTouchEvent`, and the parent's
   * `requestDisallowInterceptTouchEvent(true)`.
   */
  datatype Effect = SuperTouch(event: MotionEvent) | DisallowIntercept

  /** The int values the thumb ValueAnimator was last started with. */
  datatype Animation = Animation(from: int, to: int)

  /** What does not change after construction: the touch slop, the padding and the drawables' intrinsic sizes. */
  datatype Config = Config(touchSlop: int, thumbPadding: int,
                           thumbWidth: int, thumbHeight: int,
                           trackWidth: int, trackHeight: int)

  /** Every field the switch (and its CompoundButton/View bases, where it reads them) keeps. */
  datatype State = State(mode: TouchMode, lastX: real, lastY: real,
                         position: int, thumb: Rect, track: Rect,
                         checked: bool, measuredWidth: int, measuredHeight: int,
                         attached: bool, laidOut: bool,
                         animation: Option<Animation>, effects: seq<Effect>)

  datatype Outcome = Outcome(state: State, handled: bool)

  /** `getSwitchLeft()`: the thumb's left edge when checked. */
  function SwitchLeft(c: Config, measuredWidth: int): int {
    measuredWidth - c.thumbPadding - c.thumbWidth
  }

  /** The left edge the thumb rests at for a state: `getSwitchLeft()` when checked, `mThumbPadding` otherwise. */
  function RestPosition(c: Config, measuredWidth: int, checked: bool): (p: int)
    ensures checked ==> p + c.thumbWidth + c.thumbPadding == measuredWidth
    ensures !checked ==> p == c.thumbPadding
  {
    if checked then SwitchLeft(c, measuredWidth) else c.thumbPadding
  }

  /** `hitThumb`: a null thumb is never hit; otherwise only points strictly inside its bounds are. */
  function HitThumb(thumb: Option<Rect>, x: real, y: real): (hit: bool)
    ensures hit <==> thumb.Some?
                     && thumb.value.left as real < x < thumb.value.right as real
                     && thumb.value.top as real < y < thumb.value.bottom as real
  {
    match thumb
    case None => false
    case Some(b) => x > b.left as real && x < b.right as real && y > b.top as real && y < b.bottom as real
  }

  /** A hit is only possible on a thumb with positive width and height, and no point of its edges is hit. */
  lemma HitIsInterior(b: Rect, x: real, y: real)
    ensures HitThumb(Some(b), x, y) ==> b.left < b.right && b.top < b.bottom
    ensures !HitThumb(Some(b), b.left as real, y) && !HitThumb(Some(b), b.right as real, y)
    ensures !HitThumb(Some(b), x, b.top as real) && !HitThumb(Some(b), x, b.bottom as real)
  {
  }

  /**
   * The left edge `startDragging` computes: the float `x - lastX` added to the current left edge,
   * cast to int, raised to `mThumbPadding`, then lowered to `getSwitchLeft()`.
   */
  function DragPosition(c: Config, measuredWidth: int, left: int, lastX: real, x: real): (p: int)
    ensures c.thumbPadding <= SwitchLeft(c, measuredWidth) ==>
              c.thumbPadding <= p <= SwitchLeft(c, measuredWidth)
    ensures c.thumbPadding > SwitchLeft(c, measuredWidth) ==> p == SwitchLeft(c, measuredWidth)
    ensures c.thumbPadding <= TruncToInt(x - lastX + left as real) <= SwitchLeft(c, measuredWidth) ==>
              p == TruncToInt(x - lastX + left as real)
  {
    var raw := TruncToInt(x - lastX + left as real);
    var low := if raw < c.thumbPadding then c.thumbPadding else raw;
    var switchLeft := SwitchLeft(c, measuredWidth);
    if low > switchLeft then switchLeft else low
  }

  /** `setThumbPosition`: the left edge moves, the width becomes the thumb's, top and bottom stay. */
  function SetThumbPosition(c: Config, s: State, p: int): (t: State)
    ensures t.position == p == t.thumb.left && t.thumb.Width() == c.thumbWidth
    ensures t.thumb.top == s.thumb.top && t.thumb.bottom == s.thumb.bottom
    ensures t == s.(position := t.position, thumb := t.thumb)
  {
    s.(position := p, thumb := Rect(p, s.thumb.top, p + c.thumbWidth, s.thumb.bottom))
  }

  /** `startDragging(x)`. */
  function StartDragging(c: Config, s: State, x: real): State {
    var p := DragPosition(c, s.measuredWidth, s.thumb.left, s.lastX, x);
    SetThumbPosition(c, s, p).(lastX := x)
  }

  /** `animationChecked`: (re)start the animator from the current position to the rest position of `checked`. */
  function AnimationChecked(c: Config, s: State, checked: bool): State {
    s.(animation := Some(Animation(s.position, RestPosition(c, s.measuredWidth, checked))))
  }

  /** `setChecked`: the state is set; the animation only starts when attached to a window and laid out. */
  function SetChecked(c: Config, s: State, checked: bool): (t: State)
    ensures t.checked == checked
    ensures s.attached && s.laidOut ==>
              t.animation == Some(Animation(s.position, RestPosition(c, s.measuredWidth, checked)))
    ensures !(s.attached && s.laidOut) ==> t.animation == s.animation
    ensures t == s.(checked := checked, animation := t.animation)
  {
    var t := s.(checked := checked);
    if t.attached && t.laidOut then AnimationChecked(c, t, t.checked) else t
  }

  /** `toggle()` is `setChecked(!isChecked())`. */
  function Toggle(c: Config, s: State): (t: State)
    ensures t.checked == !s.checked
    ensures t == SetChecked(c, s, !s.checked)
  {
    SetChecked(c, s, !s.checked)
  }

  /** One listener update of the running animator: the thumb moves to the animated value. */
  function AnimationUpdate(c: Config, s: State, value: int): State {
    SetThumbPosition(c, s, value)
  }

  /**
   * `onMeasure`: the measured size is the track's width by the larger height; the thumb sits at the rest
   * position of the current state, vertically centred on the track (Java's truncating `/ 2`).
   */
  function OnMeasure(c: Config, s: State): (t: State)
    ensures t.measuredWidth == c.trackWidth && t.measuredHeight == MaxInt(c.thumbHeight, c.trackHeight)
    ensures t.position == t.thumb.left == RestPosition(c, c.trackWidth, s.checked)
    ensures t.thumb.Width() == c.thumbWidth && t.thumb.bottom - t.thumb.top == c.thumbHeight
    ensures t.thumb.top == Half(c.trackHeight - c.thumbHeight)
    ensures t.track == Rect(0, 0, c.trackWidth, c.trackHeight)
    ensures t.mode == s.mode && t.checked == s.checked && t.animation == s.animation
  {
    var thumbTop := Half(c.trackHeight - c.thumbHeight);
    var p := RestPosition(c, c.trackWidth, s.checked);
    s.(measuredWidth := c.trackWidth, measuredHeight := MaxInt(c.thumbHeight, c.trackHeight),
       position := p, thumb := Rect(p, thumbTop, p + c.thumbWidth, thumbTop + c.thumbHeight),
       track := Rect(0, 0, c.trackWidth, c.trackHeight))
  }

  /** Falling through to `return super.onTouchEvent(event)`: the base class sees the event and answers. */
  function ToSuper(s: State, e: MotionEvent, superResult: bool): Outcome {
    Outcome(s.(effects := s.effects + [SuperTouch(e)]), superResult)
  }

  /** The slop test of a MOVE in DOWN mode (strict, on either axis). */
  predicate BeyondSlop(c: Config, s: State, e: MotionEvent) {
    Abs(e.x - s.lastX) > c.touchSlop as real || Abs(e.y - s.lastY) > c.touchSlop as real
  }

  /**
   * `onTouchEvent`, as written. `superResult` is what `CompoundButton.onTouchEvent` answers where the
   * switch returns it. Releasing a drag commits the state from the thumb's centre and returns before
   * the mode is reset; CANCEL is handled exactly like UP.
   */
  function TouchStep(c: Config, s: State, e: MotionEvent, superResult: bool): Outcome {
    match e.action
    case ActionDown =>
      if HitThumb(Some(s.thumb), e.x, e.y) then
        Outcome(s.(mode := Down, lastX := e.x, lastY := e.y), true)
      else
        ToSuper(s, e, superResult)
    case ActionMove =>
      if s.mode == Down && BeyondSlop(c, s, e) then
        Outcome(s.(mode := Dragging, effects := s.effects + [DisallowIntercept], lastX := e.x, lastY := e.y), true)
      else if s.mode == Dragging then
        Outcome(StartDragging(c, s, e.x), true)
      else
        ToSuper(s, e, superResult)
    case ActionUp | ActionCancel =>
      if s.mode == Dragging then
        var t := SetChecked(c, s, s.thumb.CenterX() >= Half(s.measuredWidth));
        Outcome(t.(effects := t.effects + [SuperTouch(e)]), true)
      else
        ToSuper(s.(mode := Idle), e, superResult)
    case ActionOther =>
      ToSuper(s, e, superResult)
  }

  /** A gesture: events with the base class's answer to each. */
  datatype Input = Input(event: MotionEvent, superResult: bool)

  function Run(c: Config, s: State, inputs: seq<Input>): State
    decreases |inputs|
  {
    if inputs == [] then s
    else Run(c, TouchStep(c, s, inputs[0].event, inputs[0].superResult).state, inputs[1..])
  }

  /** Running one more event is one more step. */
  lemma {:induction false} RunSnoc(c: Config, s: State, inputs: seq<Input>, last: Input)
    ensures Run(c, s, inputs + [last]) == TouchStep(c, Run(c, s, inputs), last.event, last.superResult).state
    decreases |inputs|
  {
    if inputs != [] {
      assert (inputs + [last])[1..] == inputs[1..] + [last];
      RunSnoc(c, TouchStep(c, s, inputs[0].event, inputs[0].superResult).state, inputs[1..], last);
    }
  }

  // ---------------------------------------------------------------------------------------------
  // One event

  /** DOWN on the thumb starts a press and is consumed; DOWN elsewhere changes nothing but the log. */
  lemma DownStartsPress(c: Config, s: State, e: MotionEvent, superResult: bool)
    requires e.action == ActionDown
    ensures var o := TouchStep(c, s, e, superResult);
            if HitThumb(Some(s.thumb), e.x, e.y) then
              o.handled && o.state == s.(mode := Down, lastX := e.x, lastY := e.y)
            else
              o.handled == superResult && o.state == s.(effects := s.effects + [SuperTouch(e)])
  {
  }

  /**
   * A MOVE while pressed becomes a drag exactly when it leaves the slop on some axis; then the parent
   * is asked not to intercept and the event is consumed, otherwise only the base class sees it.
   */
  lemma MoveBeyondSlopStartsDrag(c: Config, s: State, e: MotionEvent, superResult: bool)
    requires s.mode == Down && e.action == ActionMove
    ensures var o := TouchStep(c, s, e, superResult);
            (o.state.mode == Dragging <==> BeyondSlop(c, s, e))
            && (BeyondSlop(c, s, e) ==>
                  o.handled && o.state.effects == s.effects + [DisallowIntercept]
                  && o.state.lastX == e.x && o.state.lastY == e.y && o.state.position == s.position)
            && (!BeyondSlop(c, s, e) ==> o.state == s.(effects := s.effects + [SuperTouch(e)]))
  {
  }

  /**
   * A MOVE while dragging moves the thumb to the clamped position, keeps its width, and records x;
   * if the track is wide enough the thumb stays between the padding and `getSwitchLeft()`.
   */
  lemma DragStepIsClamped(c: Config, s: State, e: MotionEvent, superResult: bool)
    requires s.mode == Dragging && e.action == ActionMove
    ensures var o := TouchStep(c, s, e, superResult);
            o.handled && o.state.mode == Dragging && o.state.lastX == e.x
            && o.state.position == o.state.thumb.left == DragPosition(c, s.measuredWidth, s.thumb.left, s.lastX, e.x)
            && o.state.thumb.Width() == c.thumbWidth
            && (c.thumbPadding <= SwitchLeft(c, s.measuredWidth) ==>
                  c.thumbPadding <= o.state.position <= SwitchLeft(c, s.measuredWidth))
  {
  }

  /**
   * Releasing (UP or CANCEL) a drag commits `centerX >= measuredWidth / 2`, consumes the event and
   * leaves the mode at DRAGGING; releasing in any other mode sets IDLE and keeps the state.
   */
  lemma ReleaseCommits(c: Config, s: State, e: MotionEvent, superResult: bool)
    requires e.action == ActionUp || e.action == ActionCancel
    ensures var o := TouchStep(c, s, e, superResult);
            if s.mode == Dragging then
              o.handled && o.state.mode == Dragging
              && o.state.checked == (s.thumb.CenterX() >= Half(s.measuredWidth))
              && o.state.position == s.position && o.state.effects == s.effects + [SuperTouch(e)]
            else
              o.handled == superResult && o.state.mode == Idle && o.state.checked == s.checked
              && o.state.position == s.position
  {
  }

  /**
   * The commit threshold on a 100-pixel track with a 20-pixel thumb and 2 pixels of padding: the rest
   * positions are 2 and 78, and a thumb centred at 60 or 50 commits checked, one centred at 40 does not.
   */
  lemma CommitExample(s: State, e: MotionEvent)
    requires s.mode == Dragging && s.measuredWidth == 100
    requires e.action == ActionUp
    ensures var c := Config(8, 2, 20, 20, 100, 30);
            RestPosition(c, 100, false) == 2 && RestPosition(c, 100, true) == 78
            && TouchStep(c, s.(thumb := Rect(50, 0, 70, 20)), e, false).state.checked
            && TouchStep(c, s.(thumb := Rect(40, 0, 60, 20)), e, false).state.checked
            && !TouchStep(c, s.(thumb := Rect(30, 0, 50, 20)), e, false).state.checked
  {
  }

  // ---------------------------------------------------------------------------------------------
  // Invariants over whole gestures

  /** The thumb's bounds agree with `mThumbPosition` and have the thumb's width. */
  predicate ThumbConsistent(c: Config, s: State) {
    s.position == s.thumb.left && s.thumb.Width() == c.thumbWidth
  }

  /** The thumb lies between its two rest positions. */
  predicate InTrack(c: Config, s: State) {
    c.thumbPadding <= s.position <= SwitchLeft(c, s.measuredWidth)
  }

  /** Every value a running animation can produce lies between the rest positions. */
  predicate AnimationInTrack(c: Config, s: State) {
    s.animation.Some? ==>
      && c.thumbPadding <= s.animation.value.from <= SwitchLeft(c, s.measuredWidth)
      && c.thumbPadding <= s.animation.value.to <= SwitchLeft(c, s.measuredWidth)
  }

  predicate Settled(c: Config, s: State) {
    ThumbConsistent(c, s) && InTrack(c, s) && AnimationInTrack(c, s)
  }

  /** A track at least as wide as the thumb and both paddings. */
  predicate WideTrack(c: Config) {
    c.thumbPadding <= SwitchLeft(c, c.trackWidth)
  }

  /** After a measure pass on a wide track, the thumb rests consistently inside the track. */
  lemma MeasureSettles(c: Config, s: State)
    requires WideTrack(c) && AnimationInTrack(c, s.(measuredWidth := c.trackWidth))
    ensures Settled(c, OnMeasure(c, s))
  {
  }

  /** Every touch event keeps a settled thumb settled. */
  lemma TouchStepKeepsSettled(c: Config, s: State, e: MotionEvent, superResult: bool)
    requires Settled(c, s)
    ensures Settled(c, TouchStep(c, s, e, superResult).state)
    ensures TouchStep(c, s, e, superResult).state.measuredWidth == s.measuredWidth
  {
    var t := TouchStep(c, s, e, superResult).state;
    if e.action == ActionMove && s.mode == Dragging {
      DragStepIsClamped(c, s, e, superResult);
    } else if (e.action == ActionUp || e.action == ActionCancel) && s.mode == Dragging {
      ReleaseKeepsSettled(c, s, e, superResult);
    } else {
      assert t.position == s.position && t.thumb == s.thumb && t.measuredWidth == s.measuredWidth;
      assert t.animation == s.animation;
    }
  }

  /** A release from a drag sets the state, which keeps a settled thumb settled. */
  lemma ReleaseKeepsSettled(c: Config, s: State, e: MotionEvent, superResult: bool)
    requires Settled(c, s) && s.mode == Dragging && (e.action == ActionUp || e.action == ActionCancel)
    ensures Settled(c, TouchStep(c, s, e, superResult).state)
    ensures TouchStep(c, s, e, superResult).state.measuredWidth == s.measuredWidth
  {
    SetCheckedKeepsSettled(c, s, s.thumb.CenterX() >= Half(s.measuredWidth));
  }

  /** A whole sequence of touch events keeps the thumb settled: a drag never leaves the track. */
  lemma {:induction false} RunKeepsSettled(c: Config, s: State, inputs: seq<Input>)
    requires Settled(c, s)
    ensures Settled(c, Run(c, s, inputs)) && Run(c, s, inputs).measuredWidth == s.measuredWidth
    decreases |inputs|
  {
    if inputs != [] {
      TouchStepKeepsSettled(c, s, inputs[0].event, inputs[0].superResult);
      RunKeepsSettled(c, TouchStep(c, s, inputs[0].event, inputs[0].superResult).state, inputs[1..]);
    }
  }

  /** Animation updates keep the thumb settled too: the animated values stay between the endpoints. */
  lemma AnimationUpdateKeepsSettled(c: Config, s: State, value: int)
    requires Settled(c, s) && s.animation.Some?
    requires s.animation.value.from <= value <= s.animation.value.to
             || s.animation.value.to <= value <= s.animation.value.from
    ensures Settled(c, AnimationUpdate(c, s, value))
  {
  }

  /** Setting the state on a settled thumb starts, at most, an animation inside the track. */
  lemma SetCheckedKeepsSettled(c: Config, s: State, checked: bool)
    requires Settled(c, s)
    ensures Settled(c, SetChecked(c, s, checked))
  {
  }

  /** The last update of an animation started by `setChecked(b)` leaves the thumb at b's rest position. */
  lemma AnimationEndsAtRest(c: Config, s: State, checked: bool)
    requires s.attached && s.laidOut
    ensures var t := SetChecked(c, s, checked);
            AnimationUpdate(c, t, t.animation.value.to).position == RestPosition(c, s.measuredWidth, checked)
  {
  }

  /** The events of a press that has not yet left the slop: MOVEs within the slop of (x0, y0). */
  predicate WithinSlop(c: Config, x0: real, y0: real, inputs: seq<Input>) {
    forall i :: 0 <= i < |inputs| ==>
      inputs[i].event.action == ActionMove
      && Abs(inputs[i].event.x - x0) <= c.touchSlop as real
      && Abs(inputs[i].event.y - y0) <= c.touchSlop as real
  }

  /**
   * No drag without slop: MOVEs that stay within the slop of the press point never start a drag, never
   * move the thumb and never change the state; the base class sees each of them.
   */
  lemma {:induction false} NoDragWithinSlop(c: Config, s: State, inputs: seq<Input>)
    requires s.mode == Down && WithinSlop(c, s.lastX, s.lastY, inputs)
    ensures var t := Run(c, s, inputs);
            t.mode == Down && t.position == s.position && t.thumb == s.thumb && t.checked == s.checked
            && t.lastX == s.lastX && t.lastY == s.lastY && |t.effects| == |s.effects| + |inputs|
    decreases |inputs|
  {
    if inputs != [] {
      var s1 := TouchStep(c, s, inputs[0].event, inputs[0].superResult).state;
      assert s1 == s.(effects := s.effects + [SuperTouch(inputs[0].event)]);
      assert WithinSlop(c, s1.lastX, s1.lastY, inputs[1..]) by {
        forall i | 0 <= i < |inputs[1..]|
          ensures inputs[1..][i].event.action == ActionMove
                  && Abs(inputs[1..][i].event.x - s1.lastX) <= c.touchSlop as real
                  && Abs(inputs[1..][i].event.y - s1.lastY) <= c.touchSlop as real
        {
          assert inputs[1..][i] == inputs[i + 1];
        }
      }
      NoDragWithinSlop(c, s1, inputs[1..]);
    }
  }

  // ---------------------------------------------------------------------------------------------
  // Finding: the mode is not reset when a drag is released

  /** A measured, unchecked switch on a 100-pixel track with the thumb at rest at x = 2. */
  function ExampleConfig(): Config { Config(8, 2, 20, 20, 100, 20) }

  function ExampleState(): State {
    State(Idle, 0.0, 0.0, 2, Rect(2, 0, 22, 20), Rect(0, 0, 100, 20), false, 100, 20,
          true, true, None, [])
  }

  /**
   * Press the thumb, drag it 20 pixels, release, then start a new gesture on the far end of the
   * track (off the thumb) and move one pixel.
   */
  function StaleDragGesture(): seq<Input> {
    [ Input(MotionEvent(ActionDown, 10.0, 10.0), false),
      Input(MotionEvent(ActionMove, 30.0, 10.0), false),
      Input(MotionEvent(ActionUp, 30.0, 10.0), false),
      Input(MotionEvent(ActionDown, 90.0, 10.0), true),
      Input(MotionEvent(ActionMove, 91.0, 10.0), true) ]
  }

  /**
   * As written, the second gesture drags the thumb although it never touched it: the mode is still
   * DRAGGING from the first gesture, and the one-pixel move is measured from the first gesture's last x,
   * so the thumb jumps from 2 to 63.
   */
  lemma StaleDragAfterRelease()
    ensures Run(ExampleConfig(), ExampleState(), StaleDragGesture()[..3]).mode == Dragging
    ensures Run(ExampleConfig(), ExampleState(), StaleDragGesture()[..4]).position == 2
    ensures Run(ExampleConfig(), ExampleState(), StaleDragGesture()).position == 63
  {
    var c, s0, g := ExampleConfig(), ExampleState(), StaleDragGesture();
    var s1 := TouchStep(c, s0, g[0].event, g[0].superResult).state;
    var s2 := TouchStep(c, s1, g[1].event, g[1].superResult).state;
    assert s2.mode == Dragging && s2.lastX == 30.0;
    var s3 := TouchStep(c, s2, g[2].event, g[2].superResult).state;
    var s4 := TouchStep(c, s3, g[3].event, g[3].superResult).state;
    assert s4.mode == Dragging && s4.position == 2;
    var s5 := TouchStep(c, s4, g[4].event, g[4].superResult).state;
    assert s5.position == 63;
    assert g[..1] == [] + [g[0]];
    RunSnoc(c, s0, [], g[0]);
    assert g[..2] == g[..1] + [g[1]];
    RunSnoc(c, s0, g[..1], g[1]);
    assert g[..3] == g[..2] + [g[2]];
    RunSnoc(c, s0, g[..2], g[2]);
    assert g[..4] == g[..3] + [g[3]];
    RunSnoc(c, s0, g[..3], g[3]);
    assert g == g[..4] + [g[4]];
    RunSnoc(c, s0, g[..4], g[4]);
  }

  /** What the release evidently intends: every UP or CANCEL ends the gesture in IDLE. */
  function TouchStepIntended(c: Config, s: State, e: MotionEvent, superResult: bool): (o: Outcome)
    ensures e.action == ActionUp || e.action == ActionCancel ==> o.state.mode == Idle
    ensures o.state == TouchStep(c, s, e, superResult).state.(mode := o.state.mode)
  {
    var o := TouchStep(c, s, e, superResult);
    if e.action == ActionUp || e.action == ActionCancel then o.(state := o.state.(mode := Idle)) else o
  }

  /**
   * With the intended release, a gesture that starts off the thumb after any release cannot move
   * the thumb, whatever it does next.
   */
  lemma ReleaseEndsGesture(c: Config, s: State, up: Input, down: Input, move: Input)
    requires up.event.action == ActionUp || up.event.action == ActionCancel
    requires down.event.action == ActionDown && move.event.action == ActionMove
    ensures var s1 := TouchStepIntended(c, s, up.event, up.superResult).state;
            var s2 := TouchStepIntended(c, s1, down.event, down.superResult).state;
            var s3 := TouchStepIntended(c, s2, move.event, move.superResult).state;
            !HitThumb(Some(s1.thumb), down.event.x, down.event.y) ==>
              s2.mode == Idle && s3.position == s1.position && s3.thumb == s1.thumb
  {
  }
}
