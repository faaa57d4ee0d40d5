// RippleUtils: the colour state list handed to a ripple, and the alpha doubling for framework ripples.

module Ripple {
  import opened Wrappers
  import opened Jvm

  /** A colour int, split into its alpha byte (the top eight bits) and its red, green and blue bits. */
  datatype Argb = Argb(alpha: int, rgb: int)
  type Color = c: Argb | 0 <= c.alpha < 0x100 && 0 <= c.rgb < 0x100_0000 witness Argb(0, 0)

  /** `Color.TRANSPARENT`. */
  const TRANSPARENT: Color := Argb(0, 0)

  /**
   * `ColorUtils.setAlphaComponent`: the colour with its top byte replaced. It throws for an alpha
   * outside [0, 255], which every caller here rules out.
   */
  function SetAlphaComponent(c: Color, alpha: int): (r: Color)
    requires 0 <= alpha <= 255
    ensures r.alpha == alpha && r.rgb == c.rgb
  {
    c.(alpha := alpha)
  }

  /**
   * `doubleAlpha`: twice the opacity, capped at opaque, same red, green and blue; this cancels the
   * framework compositing ripples at about half opacity.
   */
  function DoubleAlpha(c: Color): (r: Color)
    ensures r.alpha == MinInt(2 * c.alpha, 255) && r.rgb == c.rgb
  {
    SetAlphaComponent(c, MinInt(2 * c.alpha, 255))
  }

  /** Doubling keeps transparent transparent and makes any colour of at least half opacity opaque. */
  lemma DoubleAlphaExtremes(c: Color)
    ensures DoubleAlpha(TRANSPARENT) == TRANSPARENT
    ensures c.alpha >= 128 ==> DoubleAlpha(c).alpha == 255
    ensures c.alpha < 128 ==> DoubleAlpha(c).alpha == 2 * c.alpha
    ensures DoubleAlpha(c).alpha >= c.alpha
  {
  }

  // The view state attributes (`android.R.attr.state_*`).
  const STATE_PRESSED: int := 0x0101_00a7
  const STATE_FOCUSED: int := 0x0101_009c
  const STATE_SELECTED: int := 0x0101_00a1
  const STATE_HOVERED: int := 0x0101_0367

  // The state sets RippleUtils uses, as the attribute arrays it declares.
  const PRESSED_STATE_SET: seq<int> := [STATE_PRESSED]
  const HOVERED_FOCUSED_STATE_SET: seq<int> := [STATE_HOVERED, STATE_FOCUSED]
  const FOCUSED_STATE_SET: seq<int> := [STATE_FOCUSED]
  const HOVERED_STATE_SET: seq<int> := [STATE_HOVERED]
  const SELECTED_PRESSED_STATE_SET: seq<int> := [STATE_SELECTED, STATE_PRESSED]
  const SELECTED_HOVERED_FOCUSED_STATE_SET: seq<int> := [STATE_SELECTED, STATE_HOVERED, STATE_FOCUSED]
  const SELECTED_FOCUSED_STATE_SET: seq<int> := [STATE_SELECTED, STATE_FOCUSED]
  const SELECTED_HOVERED_STATE_SET: seq<int> := [STATE_SELECTED, STATE_HOVERED]
  const SELECTED_STATE_SET: seq<int> := [STATE_SELECTED]
  /** `StateSet.NOTHING`: the empty spec, which every state matches. */
  const NOTHING: seq<int> := []

  /** `ColorStateList.DEFAULT_COLOR`, the default of a list without entries (opaque red). */
  const DEFAULT_COLOR: Color := Argb(0xFF, 0xFF_0000)

  /**
   * `StateSet.stateSetMatches` for specs without 0 terminators: every positive attribute of the spec
   * is among the states, and no negated one is.
   */
  predicate Matches(spec: seq<int>, states: seq<int>) {
    forall k :: 0 <= k < |spec| ==> (spec[k] > 0 ==> spec[k] in states) && (spec[k] < 0 ==> -spec[k] !in states)
  }

  /** A spec of required attributes only matches exactly the states that hold all of them. */
  lemma MatchesRequired(spec: seq<int>, states: seq<int>)
    requires forall k :: 0 <= k < |spec| ==> spec[k] > 0
    ensures Matches(spec, states) <==> forall a :: a in spec ==> a in states
  {
  }

  /** android.content.res.ColorStateList: state specs and their colours, first match wins. */
  datatype ColorStateList = ColorStateList(specs: seq<seq<int>>, colors: seq<Color>) {
    predicate Valid() {
      |specs| == |colors|
    }

    /** `getColorForState`: the colour of the first spec the states match, from entry `from` on. */
    function ColorFrom(states: seq<int>, defaultColor: Color, from: nat): Color
      requires Valid()
      decreases |specs| - from
    {
      if from >= |specs| then defaultColor
      else if Matches(specs[from], states) then colors[from]
      else ColorFrom(states, defaultColor, from + 1)
    }

    function GetColorForState(states: seq<int>, defaultColor: Color): Color
      requires Valid()
    {
      ColorFrom(states, defaultColor, 0)
    }

    /** `getDefaultColor`: the last empty spec's colour after the first entry, else the first entry's colour. */
    function DefaultColor(): Color
      requires Valid()
    {
      if |specs| == 0 then DEFAULT_COLOR else LastWildcardColor(|specs| - 1)
    }

    function LastWildcardColor(i: nat): Color
      requires Valid() && 0 < |specs| && i < |specs|
    {
      if i == 0 then colors[0] else if specs[i] == [] then colors[i] else LastWildcardColor(i - 1)
    }
  }

  /**
   * The lookup returns the colour of an entry whose spec the states match, with no earlier entry
   * matching; it falls back to the default only when no entry matches.
   */
  lemma {:induction false} ColorFromIsFirstMatch(l: ColorStateList, states: seq<int>, defaultColor: Color, from: nat)
    requires l.Valid()
    ensures var c := l.ColorFrom(states, defaultColor, from);
            || (exists i :: from <= i < |l.specs| && Matches(l.specs[i], states) && c == l.colors[i]
                  && forall j :: from <= j < i ==> !Matches(l.specs[j], states))
            || (c == defaultColor && forall j :: from <= j < |l.specs| ==> !Matches(l.specs[j], states))
    decreases |l.specs| - from
  {
    if from < |l.specs| && !Matches(l.specs[from], states) {
      ColorFromIsFirstMatch(l, states, defaultColor, from + 1);
    }
  }

  /**
   * The default colour is that of the last entry after the first with an empty spec, or of the first
   * entry when there is no such entry.
   */
  lemma {:induction false} LastWildcardColorIsLastEmpty(l: ColorStateList, i: nat)
    requires l.Valid() && 0 < |l.specs| && i < |l.specs|
    ensures exists j :: 0 <= j <= i && l.LastWildcardColor(i) == l.colors[j] && (j == 0 || l.specs[j] == [])
                        && forall k :: j < k <= i ==> l.specs[k] != []
  {
    if i == 0 {
      assert l.LastWildcardColor(i) == l.colors[0];
    } else if l.specs[i] == [] {
      assert l.LastWildcardColor(i) == l.colors[i];
    } else {
      LastWildcardColorIsLastEmpty(l, i - 1);
      var j :| 0 <= j <= i - 1 && l.LastWildcardColor(i - 1) == l.colors[j] && (j == 0 || l.specs[j] == [])
                && forall k :: j < k <= i - 1 ==> l.specs[k] != [];
      assert forall k :: j < k <= i ==> l.specs[k] != [];
    }
  }

  /** A list whose state specs and colours pair up. */
  type ColorList = l: ColorStateList | l.Valid() witness ColorStateList([], [])

  /** `getColorForState` of RippleUtils: no list gives transparent; framework ripples double the alpha. */
  function ColorForState(framework: bool, rippleColor: Option<ColorList>, states: seq<int>): Color {
    var color := if rippleColor.Some? then rippleColor.value.GetColorForState(states, rippleColor.value.DefaultColor())
                 else TRANSPARENT;
    if framework then DoubleAlpha(color) else color
  }

  /**
   * Without a list every state is transparent, in both modes; with one, a framework ripple shows the
   * list's colour for the state with the same red, green and blue and twice its alpha (capped at
   * opaque), and an older one shows that colour unchanged.
   */
  lemma ColorForStateSpec(rippleColor: Option<ColorList>, states: seq<int>)
    ensures rippleColor.None? ==>
              ColorForState(true, rippleColor, states) == TRANSPARENT == ColorForState(false, rippleColor, states)
    ensures rippleColor.Some? ==>
              var base := rippleColor.value.GetColorForState(states, rippleColor.value.DefaultColor());
              && ColorForState(false, rippleColor, states) == base
              && ColorForState(true, rippleColor, states).rgb == base.rgb
              && ColorForState(true, rippleColor, states).alpha == MinInt(2 * base.alpha, 255)
  {
    DoubleAlphaExtremes(TRANSPARENT);
  }

  /**
   * The table `convertToRippleDrawableColor` builds, given the colour it takes for each state set:
   * two entries for framework ripples, ten otherwise.
   */
  function RippleTable(framework: bool, colorOf: seq<int> -> Color): (r: ColorList) {
    if framework then
      ColorStateList([SELECTED_STATE_SET, NOTHING], [colorOf(SELECTED_PRESSED_STATE_SET), colorOf(PRESSED_STATE_SET)])
    else
      ColorStateList([SELECTED_PRESSED_STATE_SET, SELECTED_HOVERED_FOCUSED_STATE_SET, SELECTED_FOCUSED_STATE_SET,
                      SELECTED_HOVERED_STATE_SET, SELECTED_STATE_SET, PRESSED_STATE_SET,
                      HOVERED_FOCUSED_STATE_SET, FOCUSED_STATE_SET, HOVERED_STATE_SET, NOTHING],
                     [colorOf(SELECTED_PRESSED_STATE_SET), colorOf(SELECTED_HOVERED_FOCUSED_STATE_SET),
                      colorOf(SELECTED_FOCUSED_STATE_SET), colorOf(SELECTED_HOVERED_STATE_SET), TRANSPARENT,
                      colorOf(PRESSED_STATE_SET), colorOf(HOVERED_FOCUSED_STATE_SET), colorOf(FOCUSED_STATE_SET),
                      colorOf(HOVERED_STATE_SET), TRANSPARENT])
  }

  /** `getColorForState` for a fixed list and mode, as a function of the state set. */
  function ColorOf(framework: bool, rippleColor: Option<ColorList>): seq<int> -> Color {
    s => ColorForState(framework, rippleColor, s)
  }

  /** The table for a ripple colour list, each entry's colour taken from the list by `getColorForState`. */
  function RippleColors(framework: bool, rippleColor: Option<ColorList>): ColorList {
    RippleTable(framework, ColorOf(framework, rippleColor))
  }

  /** Both tables end with the empty spec, so a table's default colour is the colour of that last entry. */
  lemma RippleTableDefault(framework: bool, colorOf: seq<int> -> Color)
    ensures RippleTable(framework, colorOf).DefaultColor() == if framework then colorOf(PRESSED_STATE_SET) else TRANSPARENT
  {
    var r := RippleTable(framework, colorOf);
    assert r.specs[|r.specs| - 1] == [];
  }

  /**
   * A framework ripple has two base states: any selected state shows the selected-and-pressed colour,
   * any other state the pressed colour.
   */
  lemma FrameworkRippleColors(colorOf: seq<int> -> Color, states: seq<int>, defaultColor: Color)
    ensures var r := RippleTable(true, colorOf);
            && |r.specs| == 2
            && r.GetColorForState(states, defaultColor)
               == if STATE_SELECTED in states then colorOf(SELECTED_PRESSED_STATE_SET) else colorOf(PRESSED_STATE_SET)
  {
    var r := RippleTable(true, colorOf);
    MatchesRequired(r.specs[0], states);
    assert Matches(r.specs[0], states) <==> STATE_SELECTED in states;
    assert r.ColorFrom(states, defaultColor, 1) == r.colors[1];
  }

  /** The colour a pre-framework ripple shows for `states`: the first of the table's cases that applies. */
  function LegacyColor(colorOf: seq<int> -> Color, states: seq<int>): Color {
    var pressed, hovered, focused := STATE_PRESSED in states, STATE_HOVERED in states, STATE_FOCUSED in states;
    if STATE_SELECTED in states then
      if pressed then colorOf(SELECTED_PRESSED_STATE_SET)
      else if hovered && focused then colorOf(SELECTED_HOVERED_FOCUSED_STATE_SET)
      else if focused then colorOf(SELECTED_FOCUSED_STATE_SET)
      else if hovered then colorOf(SELECTED_HOVERED_STATE_SET)
      else TRANSPARENT
    else
      if pressed then colorOf(PRESSED_STATE_SET)
      else if hovered && focused then colorOf(HOVERED_FOCUSED_STATE_SET)
      else if focused then colorOf(FOCUSED_STATE_SET)
      else if hovered then colorOf(HOVERED_STATE_SET)
      else TRANSPARENT
  }

  /**
   * The ten-entry table gives, for every state, the colour of the most specific case that applies,
   * pressed before hovered-and-focused before focused before hovered, selected or not; a state with
   * none of these is transparent, and no state falls through to the default.
   */
  lemma LegacyRippleColors(colorOf: seq<int> -> Color, states: seq<int>, defaultColor: Color)
    ensures var r := RippleTable(false, colorOf);
            && |r.specs| == 10 && r.colors[4] == TRANSPARENT && r.colors[9] == TRANSPARENT
            && r.GetColorForState(states, defaultColor) == LegacyColor(colorOf, states)
  {
    var r := RippleTable(false, colorOf);
    var sel, p, h, f := STATE_SELECTED in states, STATE_PRESSED in states, STATE_HOVERED in states, STATE_FOCUSED in states;
    var d := defaultColor;
    assert r.ColorFrom(states, d, 9) == TRANSPARENT;
    MatchesRequired(r.specs[8], states);
    assert r.ColorFrom(states, d, 8) == if h then r.colors[8] else TRANSPARENT;
    MatchesRequired(r.specs[7], states);
    assert r.ColorFrom(states, d, 7) == if f then r.colors[7] else r.ColorFrom(states, d, 8);
    MatchesRequired(r.specs[6], states);
    assert r.ColorFrom(states, d, 6) == if h && f then r.colors[6] else r.ColorFrom(states, d, 7);
    MatchesRequired(r.specs[5], states);
    assert r.ColorFrom(states, d, 5) == if p then r.colors[5] else r.ColorFrom(states, d, 6);
    MatchesRequired(r.specs[4], states);
    assert r.ColorFrom(states, d, 4) == if sel then TRANSPARENT else r.ColorFrom(states, d, 5);
    MatchesRequired(r.specs[3], states);
    assert r.ColorFrom(states, d, 3) == if sel && h then r.colors[3] else r.ColorFrom(states, d, 4);
    MatchesRequired(r.specs[2], states);
    assert r.ColorFrom(states, d, 2) == if sel && f then r.colors[2] else r.ColorFrom(states, d, 3);
    MatchesRequired(r.specs[1], states);
    assert r.ColorFrom(states, d, 1) == if sel && h && f then r.colors[1] else r.ColorFrom(states, d, 2);
    MatchesRequired(r.specs[0], states);
    assert r.ColorFrom(states, d, 0) == if sel && p then r.colors[0] else r.ColorFrom(states, d, 1);
  }

  /** `states[i] = spec; colors[i] = color; i++`: one entry of the table under construction. */
  method Put(states: array<seq<int>>, colors: array<Color>, i: nat, spec: seq<int>, color: Color) returns (next: nat)
    requires i < states.Length && i < colors.Length
    modifies states, colors
    ensures states[..] == old(states[..])[i := spec] && colors[..] == old(colors[..])[i := color]
    ensures next == i + 1
  {
    states[i] := spec;
    colors[i] := color;
    next := i + 1;
  }

  /**
   * `convertToRippleDrawableColor`: the framework table or the pre-framework one, each built by
   * filling a state array and a colour array of its size entry by entry with a running index.
   */
  method ConvertToRippleDrawableColor(framework: bool, rippleColor: Option<ColorList>) returns (r: ColorStateList)
    ensures r == RippleColors(framework, rippleColor)
  {
    if framework {
      r := FrameworkRippleTable(rippleColor);
    } else {
      r := LegacyRippleTable(rippleColor);
    }
  }

  /** The framework branch of `convertToRippleDrawableColor`: two entries. */
  method FrameworkRippleTable(rippleColor: Option<ColorList>) returns (r: ColorStateList)
    ensures r == RippleColors(true, rippleColor)
  {
    var size := 2;
    var states := new seq<int>[size];
    var colors := new Color[size];
    var i := 0;
    ghost var t := RippleColors(true, rippleColor);
    i := Put(states, colors, i, SELECTED_STATE_SET, ColorForState(true, rippleColor, SELECTED_PRESSED_STATE_SET));
    i := Put(states, colors, i, NOTHING, ColorForState(true, rippleColor, PRESSED_STATE_SET));
    assert i == size;
    assert states[..] == t.specs;
    assert colors[..] == t.colors;
    r := ColorStateList(states[..], colors[..]);
  }

  /** The pre-framework branch of `convertToRippleDrawableColor`: ten entries. */
  method LegacyRippleTable(rippleColor: Option<ColorList>) returns (r: ColorStateList)
    ensures r == RippleColors(false, rippleColor)
  {
    var size := 10;
    var states := new seq<int>[size];
    var colors := new Color[size];
    var i := 0;
    ghost var t, s0, c0 := RippleColors(false, rippleColor), states[..], colors[..];
    i := Put(states, colors, i, SELECTED_PRESSED_STATE_SET, ColorForState(false, rippleColor, SELECTED_PRESSED_STATE_SET));
    i := Put(states, colors, i, SELECTED_HOVERED_FOCUSED_STATE_SET, ColorForState(false, rippleColor, SELECTED_HOVERED_FOCUSED_STATE_SET));
    i := Put(states, colors, i, SELECTED_FOCUSED_STATE_SET, ColorForState(false, rippleColor, SELECTED_FOCUSED_STATE_SET));
    i := Put(states, colors, i, SELECTED_HOVERED_STATE_SET, ColorForState(false, rippleColor, SELECTED_HOVERED_STATE_SET));
    i := Put(states, colors, i, SELECTED_STATE_SET, TRANSPARENT);
    i := Put(states, colors, i, PRESSED_STATE_SET, ColorForState(false, rippleColor, PRESSED_STATE_SET));
    i := Put(states, colors, i, HOVERED_FOCUSED_STATE_SET, ColorForState(false, rippleColor, HOVERED_FOCUSED_STATE_SET));
    i := Put(states, colors, i, FOCUSED_STATE_SET, ColorForState(false, rippleColor, FOCUSED_STATE_SET));
    i := Put(states, colors, i, HOVERED_STATE_SET, ColorForState(false, rippleColor, HOVERED_STATE_SET));
    i := Put(states, colors, i, NOTHING, TRANSPARENT);
    assert i == size;
    FillTen(s0, t.specs[0], t.specs[1], t.specs[2], t.specs[3], t.specs[4],
            t.specs[5], t.specs[6], t.specs[7], t.specs[8], t.specs[9]);
    FillTen(c0, t.colors[0], t.colors[1], t.colors[2], t.colors[3], t.colors[4],
            t.colors[5], t.colors[6], t.colors[7], t.colors[8], t.colors[9]);
    r := ColorStateList(states[..], colors[..]);
  }

  /** Ten updates of a ten-element sequence, one per index in order, leave exactly the values written. */
  lemma FillTen<T>(s: seq<T>, x0: T, x1: T, x2: T, x3: T, x4: T, x5: T, x6: T, x7: T, x8: T, x9: T)
    requires |s| == 10
    ensures s[0 := x0][1 := x1][2 := x2][3 := x3][4 := x4][5 := x5][6 := x6][7 := x7][8 := x8][9 := x9]
            == [x0, x1, x2, x3, x4, x5, x6, x7, x8, x9]
  {
  }
}
