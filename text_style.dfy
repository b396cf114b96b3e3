/**
 * The values a style table is made of: units, three-valued booleans,
 * alignments, lengths, and the two kinds of style decoration.
 */
module TextStyle {

  datatype Option<+T> = None | Some(value: T)

  /** `ZLTextStyleEntry::SizeUnit`; only `Pixel` is named by the loader itself. */
  datatype SizeUnit = Pixel | Point | EmPercent | ExPercent | Percent

  /** `ZLBoolean3`: undefined means "not given here, inherit it". */
  datatype Boolean3 = B3False | B3True | B3Undefined

  /** `ZLTextAlignmentType`. */
  datatype Alignment = AlignUndefined | AlignLeft | AlignRight | AlignCenter | AlignJustify | AlignLinestart

  /** A magnitude with its unit. */
  datatype Length = Length(size: int, unit: SizeUnit)

  /** `short`, the type `ZLTextStyleEntry::parseLength` writes a magnitude into. */
  type Short = x: int | -0x8000 <= x < 0x8000

  /**
   * The fields every decoration has: its name, the font size delta, bold,
   * italic, the vertical shift, whether hyphenation is allowed, the
   * hyperlink colour style and the font family (both absent unless given).
   */
  datatype Common = Common(
    name: string,
    fontSizeDelta: int,
    bold: Boolean3,
    italic: Boolean3,
    verticalShift: int,
    allowHyphenations: Boolean3,
    colorStyle: Option<string>,
    fontFamily: Option<string>)

  /**
   * `ZLTextStyleDecoration` (a partial decoration, which may carry a first
   * line indent delta) and `ZLTextFullStyleDecoration` (a full one, with
   * five lengths, an alignment and a line spacing factor where 0 means
   * "not given").
   */
  datatype StyleDecoration =
    | Partial(common: Common, indentDelta: Option<Length>)
    | Full(
        common: Common,
        spaceBefore: Length,
        spaceAfter: Length,
        lineStartIndent: Length,
        lineEndIndent: Length,
        firstLineIndentDelta: Length,
        alignment: Alignment,
        lineSpace: real)
}
