// Styled text as TextView and SpannableStringBuilder hold it: characters plus attached spans.

module SpannedText {
  import opened BulletSpans

  /** `Spanned.SPAN_EXCLUSIVE_EXCLUSIVE`: the span does not grow with text inserted at either end. */
  const SPAN_EXCLUSIVE_EXCLUSIVE: int := 0x21

  /** The object a span attaches: a bullet, or some other markup identified by a number. */
  datatype SpanObject = BulletMark(bullet: BulletSpan) | OtherSpan(id: int)

  datatype SpanMark = SpanMark(what: SpanObject, start: int, end: int, flags: int)

  /** A CharSequence: plain characters (a String carries no spans) or spanned text. */
  datatype Styled = Styled(chars: seq<char>, spans: seq<SpanMark>)

  /** `toString()`: the characters without their spans. */
  function Plain(chars: seq<char>): (t: Styled)
    ensures t.chars == chars && t.spans == []
  {
    Styled(chars, [])
  }

  /** The spans of `t`, moved `offset` characters on, as they land when `t` is appended after `offset` characters. */
  function Shifted(spans: seq<SpanMark>, offset: int): (r: seq<SpanMark>)
    ensures |r| == |spans|
    ensures forall i :: 0 <= i < |spans| ==>
              r[i] == spans[i].(start := spans[i].start + offset, end := spans[i].end + offset)
  {
    seq(|spans|, i requires 0 <= i < |spans| => spans[i].(start := spans[i].start + offset, end := spans[i].end + offset))
  }

  /** The number of bullet spans among `spans`. */
  function BulletCount(spans: seq<SpanMark>): nat {
    if spans == [] then 0 else (if spans[0].what.BulletMark? then 1 else 0) + BulletCount(spans[1..])
  }

  lemma {:induction false} BulletCountAppend(a: seq<SpanMark>, b: seq<SpanMark>)
    ensures BulletCount(a + b) == BulletCount(a) + BulletCount(b)
  {
    if a != [] {
      assert (a + b)[0] == a[0] && (a + b)[1..] == a[1..] + b;
      BulletCountAppend(a[1..], b);
    } else {
      assert a + b == b;
    }
  }

  /** android.text.SpannableStringBuilder, reduced to the calls DotTextView makes on it. */
  class SpannableStringBuilder {
    var chars: seq<char>
    var spans: seq<SpanMark>

    function Contents(): Styled
      reads this
    {
      Styled(chars, spans)
    }

    constructor ()
      ensures Contents() == Styled([], [])
    {
      chars, spans := [], [];
    }

    /** `clear()` followed by `clearSpans()`: no characters and no spans. */
    method ClearAll()
      modifies this
      ensures Contents() == Styled([], [])
    {
      chars := [];
      spans := [];
    }

    /** `append(text)`: the characters go at the end and the text's spans come with them. */
    method Append(text: Styled)
      modifies this
      ensures Contents() == Styled(old(chars) + text.chars, old(spans) + Shifted(text.spans, |old(chars)|))
    {
      spans := spans + Shifted(text.spans, |chars|);
      chars := chars + text.chars;
    }

    /** `setSpan` with a span object not attached yet. */
    method SetSpan(what: SpanObject, start: int, end: int, flags: int)
      requires 0 <= start <= end <= |chars|
      modifies this
      ensures Contents() == Styled(old(chars), old(spans) + [SpanMark(what, start, end, flags)])
    {
      spans := spans + [SpanMark(what, start, end, flags)];
    }
  }
}
