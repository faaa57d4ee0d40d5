// ViewUtils: reading a tint mode from its integer attribute value.

module ViewUtils {
  import opened Wrappers

  /** android.graphics.PorterDuff.Mode. */
  datatype TintMode =
    | Clear | Src | Dst | SrcOver | DstOver | SrcIn | DstIn | SrcOut | DstOut
    | SrcAtop | DstAtop | Xor | Darken | Lighten | Multiply | Screen | Add | Overlay

  /**
   * `parseTintMode`: the five modes a `tintMode` attribute can name, by their attribute values
   * (3, 5, 9, 14, 15); any other value gives `defaultMode`.
   */
  function ParseTintMode(value: int, defaultMode: TintMode): TintMode {
    match value
    case 3 => SrcOver
    case 5 => SrcIn
    case 9 => SrcAtop
    case 14 => Multiply
    case 15 => Screen
    case _ => defaultMode
  }

  /** The attribute value that names `mode` in a `tintMode` attribute, for the five modes it can name. */
  function AttrValue(mode: TintMode): Option<int> {
    match mode
    case SrcOver => Some(3)
    case SrcIn => Some(5)
    case SrcAtop => Some(9)
    case Multiply => Some(14)
    case Screen => Some(15)
    case _ => None
  }

  /** Every mode an attribute value can name is read back from that value, whatever the default. */
  lemma ParseAttrValue(mode: TintMode, defaultMode: TintMode)
    ensures AttrValue(mode).Some? ==> ParseTintMode(AttrValue(mode).value, defaultMode) == mode
  {
  }

  /**
   * The other direction: a value either names a mode, which is what it parses to and which maps back
   * to the value, or it names none and parses to the default.
   */
  lemma AttrValueOfParse(value: int, defaultMode: TintMode)
    ensures value in {3, 5, 9, 14, 15} ==> AttrValue(ParseTintMode(value, defaultMode)) == Some(value)
    ensures value !in {3, 5, 9, 14, 15} ==> ParseTintMode(value, defaultMode) == defaultMode
  {
  }

  /** The five named values give five different modes. */
  lemma ParseTintModeInjective(a: int, b: int, defaultMode: TintMode)
    requires a in {3, 5, 9, 14, 15} && b in {3, 5, 9, 14, 15} && a != b
    ensures ParseTintMode(a, defaultMode) != ParseTintMode(b, defaultMode)
  {
    AttrValueOfParse(a, defaultMode);
    AttrValueOfParse(b, defaultMode);
  }
}
