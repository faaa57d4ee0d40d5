// DotTextView's text handling as pure functions: when a bullet is added and what the shown text
// becomes. The class in dot_text_view.dfy is proved against these.

module DotSpans {
  import opened Wrappers
  import opened Jvm
  import opened Graphics
  import opened BulletSpans
  import opened SpannedText

  /** The guard of `getDotSpan`: non-empty text, a visible colour and a positive size. */
  predicate WantsDot(text: Option<Styled>, dotColor: Int32, dotSize: Int32) {
    text.Some? && |text.value.chars| > 0 && dotColor != TRANSPARENT && dotSize > 0
  }

  /** The bullet span `getDotSpan` attaches over the whole of a text of `length` characters. */
  function DotMark(length: int, gapWidth: Int32, dotColor: Int32, dotSize: Int32): SpanMark {
    SpanMark(BulletMark(WithRadius(gapWidth, dotColor, dotSize)), 0, length, SPAN_EXCLUSIVE_EXCLUSIVE)
  }

  /**
   * `getDotSpan`: the text itself when no dot is wanted; otherwise the same characters with the
   * text's own spans and one bullet span more, covering all of it.
   */
  function DotSpan(text: Option<Styled>, dotColor: Int32, dotSize: Int32, gapWidth: Int32): (r: Option<Styled>)
    ensures !WantsDot(text, dotColor, dotSize) ==> r == text
    ensures WantsDot(text, dotColor, dotSize) ==>
              && r.Some? && r.value.chars == text.value.chars
              && |r.value.spans| == |text.value.spans| + 1
              && r.value.spans[..|text.value.spans|] == text.value.spans
              && r.value.spans[|text.value.spans|..] == [DotMark(|text.value.chars|, gapWidth, dotColor, dotSize)]
              && BulletCount(r.value.spans) == BulletCount(text.value.spans) + 1
  {
    if !WantsDot(text, dotColor, dotSize) then text
    else
      var t := text.value;
      var r := Styled(t.chars, t.spans + [DotMark(|t.chars|, gapWidth, dotColor, dotSize)]);
      BulletCountAppend(t.spans, [DotMark(|t.chars|, gapWidth, dotColor, dotSize)]);
      assert r.spans[..|t.spans|] == t.spans;
      Some(r)
  }

  /** `getRawText`: the characters of the text, or none for a null text. */
  function RawText(text: Option<Styled>): (r: seq<char>)
    ensures text.None? ==> r == []
    ensures text.Some? ==> r == text.value.chars
  {
    if text.Some? then text.value.chars else []
  }

  /** What TextView shows for a CharSequence: a null text shows as empty. */
  function Shown(text: Option<Styled>): (t: Styled)
    ensures text.Some? ==> t == text.value
    ensures text.None? ==> t == Plain([])
  {
    if text.Some? then text.value else Plain([])
  }

  datatype State = State(dotColor: Int32, dotSize: Int32, text: Styled)

  /** `setText`: every text goes through `getDotSpan` before the base class shows it. */
  function SetText(gapWidth: Int32, s: State, text: Option<Styled>): (t: State)
    ensures t.dotColor == s.dotColor && t.dotSize == s.dotSize
    ensures t.text.chars == RawText(text)
  {
    s.(text := Shown(DotSpan(text, s.dotColor, s.dotSize, gapWidth)))
  }

  /** Re-setting the shown text from its own characters, as both setters do on a change. */
  function Restyle(gapWidth: Int32, s: State): State {
    SetText(gapWidth, s, Some(Plain(RawText(Some(s.text)))))
  }

  /** `setDotColor`: only a new colour is stored, and then the text is rebuilt from its characters. */
  function SetDotColor(gapWidth: Int32, s: State, dotColor: Int32): (t: State)
    ensures t.dotColor == dotColor && t.dotSize == s.dotSize
    ensures s.dotColor == dotColor ==> t == s
  {
    if s.dotColor != dotColor then Restyle(gapWidth, s.(dotColor := dotColor)) else s
  }

  /** `setDotSize`: only a new size is stored, and then the text is rebuilt from its characters. */
  function SetDotSize(gapWidth: Int32, s: State, dotSize: Int32): (t: State)
    ensures t.dotSize == dotSize && t.dotColor == s.dotColor
    ensures s.dotSize == dotSize ==> t == s
  {
    if s.dotSize != dotSize then Restyle(gapWidth, s.(dotSize := dotSize)) else s
  }

  /**
   * The shown text after a setter changed the colour or size: its characters are kept, its earlier
   * spans (and an earlier bullet) are dropped, and it carries exactly one bullet in the current
   * colour and size when a dot is wanted, none otherwise. Changing the dot any number of times
   * therefore never stacks bullets.
   */
  lemma RestyleKeepsOneBullet(gapWidth: Int32, s: State)
    ensures var t := Restyle(gapWidth, s);
            && t.text.chars == s.text.chars
            && (WantsDot(Some(s.text), s.dotColor, s.dotSize) ==>
                  t.text.spans == [DotMark(|s.text.chars|, gapWidth, s.dotColor, s.dotSize)])
            && (!WantsDot(Some(s.text), s.dotColor, s.dotSize) ==> t.text.spans == [])
            && BulletCount(t.text.spans) <= 1
  {
    var t := Restyle(gapWidth, s);
    if WantsDot(Some(s.text), s.dotColor, s.dotSize) {
      assert t.text.spans == [] + [DotMark(|s.text.chars|, gapWidth, s.dotColor, s.dotSize)];
    }
  }

  /** A dot appears exactly when the text is non-empty, the colour visible and the size positive. */
  lemma SetDotColorShowsDot(gapWidth: Int32, s: State, dotColor: Int32)
    requires s.dotColor != dotColor
    ensures var t := SetDotColor(gapWidth, s, dotColor);
            BulletCount(t.text.spans) == 1 <==> (|s.text.chars| > 0 && dotColor != TRANSPARENT && s.dotSize > 0)
  {
    RestyleKeepsOneBullet(gapWidth, s.(dotColor := dotColor));
  }
}
