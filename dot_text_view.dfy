// DotTextView: a TextView that prefixes its text with a coloured bullet; each method proved against
// DotSpans.

module DotText {
  import opened Wrappers
  import opened Jvm
  import opened Graphics
  import opened BulletSpans
  import opened SpannedText
  import opened DotSpans

  class DotTextView {
    const dotGapWidth: Int32
    var dotColor: Int32
    var dotSize: Int32
    /** The builder `getDotSpan` reuses, created on first use. */
    var dotSpannable: SpannableStringBuilder?
    /** The text the base class shows (it keeps its own copy of what it is given). */
    var text: Styled

    function Snapshot(): State
      reads this
    {
      State(dotColor, dotSize, text)
    }

    /**
     * The view after construction: the base class set the initial text while no dot was configured,
     * then the size and the colour attributes were applied, in that order.
     */
    constructor (text: Option<Styled>, dotColor: Int32, dotSize: Int32, dotGapWidth: Int32)
      ensures this.dotGapWidth == dotGapWidth
      ensures Snapshot() == DotSpans.SetDotColor(dotGapWidth,
                              DotSpans.SetDotSize(dotGapWidth,
                                DotSpans.SetText(dotGapWidth, State(0, 0, Plain([])), text), dotSize), dotColor)
    {
      this.dotGapWidth := dotGapWidth;
      this.dotColor, this.dotSize := 0, 0;
      dotSpannable := null;
      this.text := Plain([]);
      new;
      SetText(text);
      SetDotSize(dotSize);
      SetDotColor(dotColor);
    }

    function GetRawText(): (r: seq<char>)
      reads this
      ensures r == RawText(Some(text))
    {
      text.chars
    }

    method GetDotSpan(t: Option<Styled>) returns (r: Option<Styled>)
      modifies this, dotSpannable
      ensures old(dotSpannable) != null ==> dotSpannable == old(dotSpannable)
      ensures dotSpannable != old(dotSpannable) ==> fresh(dotSpannable)
      ensures Snapshot() == old(Snapshot())
      ensures r == DotSpan(t, dotColor, dotSize, dotGapWidth)
      ensures WantsDot(t, dotColor, dotSize) ==> dotSpannable != null && dotSpannable.Contents() == r.value
    {
      if !WantsDot(t, dotColor, dotSize) {
        return t;
      }
      if dotSpannable == null {
        dotSpannable := new SpannableStringBuilder();
      } else {
        dotSpannable.ClearAll();
      }
      dotSpannable.Append(t.value);
      assert Shifted(t.value.spans, 0) == t.value.spans;
      assert dotSpannable.Contents() == t.value;
      dotSpannable.SetSpan(BulletMark(WithRadius(dotGapWidth, dotColor, dotSize)), 0, |t.value.chars|, SPAN_EXCLUSIVE_EXCLUSIVE);
      r := Some(dotSpannable.Contents());
      assert r.value == Styled(t.value.chars, t.value.spans + [DotMark(|t.value.chars|, dotGapWidth, dotColor, dotSize)]);
    }

    method SetText(t: Option<Styled>)
      modifies this, dotSpannable
      ensures old(dotSpannable) != null ==> dotSpannable == old(dotSpannable)
      ensures dotSpannable != old(dotSpannable) ==> fresh(dotSpannable)
      ensures Snapshot() == DotSpans.SetText(dotGapWidth, old(Snapshot()), t)
    {
      var shown := GetDotSpan(t);
      text := Shown(shown);
    }

    method SetDotColor(color: Int32)
      modifies this, dotSpannable
      ensures old(dotSpannable) != null ==> dotSpannable == old(dotSpannable)
      ensures dotSpannable != old(dotSpannable) ==> fresh(dotSpannable)
      ensures Snapshot() == DotSpans.SetDotColor(dotGapWidth, old(Snapshot()), color)
    {
      if dotColor != color {
        dotColor := color;
        SetText(Some(Plain(GetRawText())));
      }
    }

    method SetDotSize(size: Int32)
      modifies this, dotSpannable
      ensures old(dotSpannable) != null ==> dotSpannable == old(dotSpannable)
      ensures dotSpannable != old(dotSpannable) ==> fresh(dotSpannable)
      ensures Snapshot() == DotSpans.SetDotSize(dotGapWidth, old(Snapshot()), size)
    {
      if dotSize != size {
        dotSize := size;
        SetText(Some(Plain(GetRawText())));
      }
    }
  }
}
