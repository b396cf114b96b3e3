/**
 * The attribute helpers of `ZLTextStyleReader` and what one `<style>`
 * element turns into.  The element handler itself, which changes the
 * style table, is in module TextStyleCollection; the functions here are
 * its specification.
 */
module StyleAttributes {
  import opened CLib
  import opened TextStyle

  /** The attributes of one start tag, by name (XML allows each name once). */
  type Attributes = map<string, string>

  /**
   * `ZLTextStyleEntry::parseLength`, the grammar of unit-suffixed lengths,
   * which is defined outside the loader: it accepts a string with the
   * magnitude and unit it denotes, or rejects it.
   */
  type LengthParser = string -> Option<(Short, SizeUnit)>

  const TRUE_STRING: string := "true"

  /** `ZLXMLReader::attributeValue`: the value of a named attribute, if given. */
  function AttributeValue(attributes: Attributes, name: string): (v: Option<string>)
    ensures v.Some? <==> name in attributes
    ensures v.Some? ==> v.value == attributes[name]
  {
    if name in attributes then Some(attributes[name]) else None
  }

  /** `intValue`: the attribute read by `atoi`, or the default when it is absent. */
  function IntValue(attributes: Attributes, name: string, default: int): (r: int)
    ensures name !in attributes ==> r == default
    ensures name in attributes ==> InIntRange(r)
  {
    match AttributeValue(attributes, name)
    case None => default
    case Some(v) => Atoi(v)
  }

  /** A present attribute that starts with a numeral reads as that numeral. */
  lemma IntValueOfNumeral(attributes: Attributes, name: string, default: int, a: nat, k: nat, e: nat)
    requires name in attributes
    requires NumeralPrefix(attributes[name], a, k, e)
    requires InIntRange(NumeralValue(attributes[name], a, k, e))
    ensures IntValue(attributes, name, default) == NumeralValue(attributes[name], a, k, e)
  {
    AtoiReadsNumeral(attributes[name], a, k, e);
  }

  /** A present attribute without a leading numeral reads as 0, not as the default. */
  lemma IntValueWithoutNumeral(attributes: Attributes, name: string, default: int)
    requires name in attributes
    requires forall a: nat, k: nat, e: nat :: !NumeralPrefix(attributes[name], a, k, e)
    ensures IntValue(attributes, name, default) == 0
  {
    AtoiWithoutNumeral(attributes[name]);
  }

  /** `b3Value`: undefined when absent, true for exactly "true", false otherwise. */
  function B3Value(attributes: Attributes, name: string): (r: Boolean3)
    ensures r == B3Undefined <==> name !in attributes
    ensures r == B3True <==> name in attributes && attributes[name] == TRUE_STRING
    ensures r == B3False <==> name in attributes && attributes[name] != TRUE_STRING
  {
    match AttributeValue(attributes, name)
    case None => B3Undefined
    case Some(v) => if v == TRUE_STRING then B3True else B3False
  }

  /** `booleanValue`: true exactly where `b3Value` is true; absent reads as false. */
  function BooleanValue(attributes: Attributes, name: string): (b: bool)
    ensures b <==> B3Value(attributes, name) == B3True
    ensures name !in attributes ==> !b
  {
    AttributeValue(attributes, name) == Some(TRUE_STRING)
  }

  /**
   * The integer the fallback of `lengthValue` accepts: the string must be a
   * numeral in the range of `long` with nothing but spaces around it.
   */
  function BareInteger(v: string): Option<int>
  {
    var c := Strtol(v, 0);
    if c.end > 0 && !c.rangeError && SkipSpaces(v, c.end) == |v| then Some(c.number) else None
  }

  /** A numeral in range with spaces around it is accepted, with its value. */
  lemma BareIntegerAccepts(v: string, a: nat, k: nat, e: nat)
    requires Numeral(v, a, k, e) && InLongRange(NumeralValue(v, a, k, e))
    ensures BareInteger(v) == Some(NumeralValue(v, a, k, e))
  {
    StrtolReadsNumeral(v, a, k, e);
    assert SkipSpaces(v, e) == |v|;
  }

  /** Anything else (no digits, other characters, out of range) is rejected. */
  lemma BareIntegerRejects(v: string)
    requires forall a: nat, k: nat, e: nat :: Numeral(v, a, k, e) ==> !InLongRange(NumeralValue(v, a, k, e))
    ensures BareInteger(v) == None
  {
    var c := Strtol(v, 0);
    if c.end > 0 && !c.rangeError && SkipSpaces(v, c.end) == |v| {
      var a, k := StrtolFindsNumeral(v);
      assert Numeral(v, a, k, c.end);
      assert false;
    }
  }

  /**
   * What `lengthValue` returns and leaves in `unit`: the default and the
   * unit untouched when the attribute is absent; the magnitude and unit
   * of a unit-suffixed length; a bare integer as pixels (the `long`
   * narrowed to the `int` the function returns); the default and the unit
   * untouched for anything else.
   */
  function LengthOf(parseLength: LengthParser, attributes: Attributes, name: string, unit: SizeUnit, default: int): (int, SizeUnit)
  {
    match AttributeValue(attributes, name)
    case None => (default, unit)
    case Some(v) =>
      match parseLength(v)
      case Some(parsed) => (parsed.0 as int, parsed.1)
      case None =>
        match BareInteger(v)
        case Some(n) => (Int32(n), Pixel)
        case None => (default, unit)
  }

  /** `lengthValue` for an attribute `parseLength` rejects but which is a bare integer. */
  lemma LengthOfBareInteger(parseLength: LengthParser, attributes: Attributes, name: string, unit: SizeUnit, default: int, a: nat, k: nat, e: nat)
    requires name in attributes && parseLength(attributes[name]).None?
    requires Numeral(attributes[name], a, k, e) && InLongRange(NumeralValue(attributes[name], a, k, e))
    ensures LengthOf(parseLength, attributes, name, unit, default) == (Int32(NumeralValue(attributes[name], a, k, e)), Pixel)
    ensures InIntRange(NumeralValue(attributes[name], a, k, e)) ==>
              LengthOf(parseLength, attributes, name, unit, default) == (NumeralValue(attributes[name], a, k, e), Pixel)
  {
    BareIntegerAccepts(attributes[name], a, k, e);
  }

  /** `lengthValue` for an attribute that is neither a length nor a bare integer in range. */
  lemma LengthOfMalformed(parseLength: LengthParser, attributes: Attributes, name: string, unit: SizeUnit, default: int)
    requires name in attributes && parseLength(attributes[name]).None?
    requires forall a: nat, k: nat, e: nat :: Numeral(attributes[name], a, k, e) ==> !InLongRange(NumeralValue(attributes[name], a, k, e))
    ensures LengthOf(parseLength, attributes, name, unit, default) == (default, unit)
  {
    BareIntegerRejects(attributes[name]);
  }

  /** Starting from a point the leading spaces have been skipped to, `strtol` reads the same numeral. */
  lemma StrtolAfterSpaces(v: string, i: nat)
    requires i <= |v| && SkipSpaces(v, i) == SkipSpaces(v, 0)
    ensures Strtol(v, i).number == Strtol(v, 0).number
    ensures Strtol(v, i).rangeError == Strtol(v, 0).rangeError
    ensures Strtol(v, i).end == i <==> Strtol(v, 0).end == 0
    ensures Strtol(v, i).end != i ==> Strtol(v, i).end == Strtol(v, 0).end
  {
  }

  /**
   * `ZLTextStyleReader::lengthValue`: returns the length and the unit the
   * caller's `unit` variable holds afterwards.
   */
  method LengthValue(parseLength: LengthParser, attributes: Attributes, name: string, unit: SizeUnit, default: int)
    returns (value: int, unit': SizeUnit)
    ensures (value, unit') == LengthOf(parseLength, attributes, name, unit, default)
  {
    unit' := unit;
    var stringValue := AttributeValue(attributes, name);
    if stringValue.Some? {
      var v := stringValue.value;
      var parsed := parseLength(v);
      if parsed.Some? {
        return parsed.value.0 as int, parsed.value.1;
      }
      var s := 0;
      while s < |v| && IsSpace(v[s])
        invariant s <= |v|
        invariant SkipSpaces(v, s) == SkipSpaces(v, 0)
      {
        s := s + 1;
      }
      var number := Strtol(v, s);
      StrtolAfterSpaces(v, s);
      if number.end != s {
        if (number.number != LONG_MAX && number.number != LONG_MIN) || !number.rangeError {
          var endptr := number.end;
          while endptr < |v| && IsSpace(v[endptr])
            invariant number.end <= endptr <= |v|
            invariant SkipSpaces(v, endptr) == SkipSpaces(v, number.end)
          {
            endptr := endptr + 1;
          }
          if endptr == |v| {
            unit' := Pixel;
            return Int32(number.number), unit';
          }
        }
      }
    }
    return default, unit';
  }

  /**
   * The `alignment` attribute: "left", "rigth" (so spelt), "center",
   * "justify" and "linestart" name an alignment; any other value, and an
   * absent attribute, leave it undefined.
   */
  function AlignmentOf(value: Option<string>): (r: Alignment)
    ensures r == AlignLeft <==> value == Some("left")
    ensures r == AlignRight <==> value == Some("rigth")
    ensures r == AlignCenter <==> value == Some("center")
    ensures r == AlignJustify <==> value == Some("justify")
    ensures r == AlignLinestart <==> value == Some("linestart")
  {
    match value
    case None => AlignUndefined
    case Some(s) =>
      if s == "left" then AlignLeft
      else if s == "rigth" then AlignRight
      else if s == "center" then AlignCenter
      else if s == "justify" then AlignJustify
      else if s == "linestart" then AlignLinestart
      else AlignUndefined
  }

  /** The line spacing factor: 0 for the sentinel -1, otherwise the percentage over 100. */
  function LineSpace(percent: int): (r: real)
    ensures percent == -1 ==> r == 0.0
    ensures percent != -1 ==> r * 100.0 == percent as real
    ensures r == 0.0 <==> percent == -1 || percent == 0
  {
    if percent == -1 then 0.0 else percent as real / 100.0
  }

  /** The fields both kinds of decoration take from an element's attributes. */
  function CommonOf(attributes: Attributes, name: string): Common
  {
    Common(
      name,
      IntValue(attributes, "fontSizeDelta", 0),
      B3Value(attributes, "bold"),
      B3Value(attributes, "italic"),
      IntValue(attributes, "vShift", 0),
      B3Value(attributes, "allowHyphenations"),
      AttributeValue(attributes, "hyperlink"),
      AttributeValue(attributes, "family"))
  }

  /** A length of a full decoration: `lengthValue` with default 0 and a unit that starts as pixels. */
  function LengthAttribute(parseLength: LengthParser, attributes: Attributes, name: string): Length
  {
    var r := LengthOf(parseLength, attributes, name, Pixel, 0);
    Length(r.0, r.1)
  }

  /** The first line indent delta of a partial decoration: set only by a unit-suffixed length. */
  function PartialIndent(parseLength: LengthParser, attributes: Attributes): Option<Length>
  {
    match AttributeValue(attributes, "firstLineIndentDelta")
    case None => None
    case Some(v) =>
      match parseLength(v)
      case Some(parsed) => Some(Length(parsed.0 as int, parsed.1))
      case None => None
  }

  /** The full decoration an element without `partial="true"` describes. */
  function FullOf(parseLength: LengthParser, attributes: Attributes, common: Common): StyleDecoration
  {
    Full(
      common,
      LengthAttribute(parseLength, attributes, "spaceBefore"),
      LengthAttribute(parseLength, attributes, "spaceAfter"),
      LengthAttribute(parseLength, attributes, "leftIndent"),
      LengthAttribute(parseLength, attributes, "rightIndent"),
      LengthAttribute(parseLength, attributes, "firstLineIndentDelta"),
      AlignmentOf(AttributeValue(attributes, "alignment")),
      LineSpace(IntValue(attributes, "lineSpacingPercent", -1)))
  }

  /**
   * The text kind and decoration that a start tag adds to the style table:
   * only a "style" element with both `id` and `name` adds one; `id` is read
   * by `atoi`, and `partial="true"` chooses a partial decoration.
   */
  function ElementDecoration(parseLength: LengthParser, tag: string, attributes: Attributes): (r: Option<(int, StyleDecoration)>)
    ensures r.Some? <==> tag == "style" && "id" in attributes && "name" in attributes
    ensures r.Some? ==> r.value.0 == Atoi(attributes["id"]) && r.value.1.common.name == attributes["name"]
    ensures r.Some? ==> (r.value.1.Partial? <==> "partial" in attributes && attributes["partial"] == TRUE_STRING)
  {
    if tag != "style" then None
    else
      match (AttributeValue(attributes, "id"), AttributeValue(attributes, "name"))
      case (Some(idString), Some(name)) =>
        var common := CommonOf(attributes, name);
        var decoration :=
          if BooleanValue(attributes, "partial") then Partial(common, PartialIndent(parseLength, attributes))
          else FullOf(parseLength, attributes, common);
        Some((Atoi(idString), decoration))
      case _ => None
  }

  /**
   * In a partial decoration the first line indent delta is set exactly when
   * `parseLength` accepts the attribute; the other fields are the common ones.
   */
  lemma PartialDecorationFields(parseLength: LengthParser, tag: string, attributes: Attributes)
    requires ElementDecoration(parseLength, tag, attributes).Some?
    requires ElementDecoration(parseLength, tag, attributes).value.1.Partial?
    ensures var d := ElementDecoration(parseLength, tag, attributes).value.1;
      && d.common == CommonOf(attributes, attributes["name"])
      && (d.indentDelta.Some? <==>
            "firstLineIndentDelta" in attributes && parseLength(attributes["firstLineIndentDelta"]).Some?)
      && (d.indentDelta.Some? ==>
            var parsed := parseLength(attributes["firstLineIndentDelta"]).value;
            d.indentDelta.value == Length(parsed.0 as int, parsed.1))
  {
  }

  /**
   * A bare integer that a full decoration reads as pixels leaves the
   * indent of a partial decoration unset: the partial branch has no fallback.
   */
  lemma PartialIndentHasNoFallback(parseLength: LengthParser, attributes: Attributes, a: nat, k: nat, e: nat)
    requires "firstLineIndentDelta" in attributes
    requires parseLength(attributes["firstLineIndentDelta"]).None?
    requires Numeral(attributes["firstLineIndentDelta"], a, k, e)
    requires InIntRange(NumeralValue(attributes["firstLineIndentDelta"], a, k, e))
    ensures PartialIndent(parseLength, attributes) == None
    ensures LengthAttribute(parseLength, attributes, "firstLineIndentDelta")
              == Length(NumeralValue(attributes["firstLineIndentDelta"], a, k, e), Pixel)
  {
    LengthOfBareInteger(parseLength, attributes, "firstLineIndentDelta", Pixel, 0, a, k, e);
  }

  /**
   * In a full decoration every field is read on its own: the common fields,
   * each of the five lengths by `lengthValue` with its own unit starting as
   * pixels (so an absent one is 0 pixels whatever the others are), the
   * alignment, and the line spacing (0 when it is absent).
   */
  lemma FullDecorationFields(parseLength: LengthParser, tag: string, attributes: Attributes)
    requires ElementDecoration(parseLength, tag, attributes).Some?
    requires ElementDecoration(parseLength, tag, attributes).value.1.Full?
    ensures var d := ElementDecoration(parseLength, tag, attributes).value.1;
      && d.common == CommonOf(attributes, attributes["name"])
      && d.spaceBefore == LengthAttribute(parseLength, attributes, "spaceBefore")
      && d.spaceAfter == LengthAttribute(parseLength, attributes, "spaceAfter")
      && d.lineStartIndent == LengthAttribute(parseLength, attributes, "leftIndent")
      && d.lineEndIndent == LengthAttribute(parseLength, attributes, "rightIndent")
      && d.firstLineIndentDelta == LengthAttribute(parseLength, attributes, "firstLineIndentDelta")
      && d.alignment == AlignmentOf(AttributeValue(attributes, "alignment"))
      && d.lineSpace == LineSpace(IntValue(attributes, "lineSpacingPercent", -1))
    ensures var d := ElementDecoration(parseLength, tag, attributes).value.1;
      && ("spaceBefore" !in attributes ==> d.spaceBefore == Length(0, Pixel))
      && ("spaceAfter" !in attributes ==> d.spaceAfter == Length(0, Pixel))
      && ("leftIndent" !in attributes ==> d.lineStartIndent == Length(0, Pixel))
      && ("rightIndent" !in attributes ==> d.lineEndIndent == Length(0, Pixel))
      && ("firstLineIndentDelta" !in attributes ==> d.firstLineIndentDelta == Length(0, Pixel))
      && ("alignment" !in attributes ==> d.alignment == AlignUndefined)
      && ("lineSpacingPercent" !in attributes ==> d.lineSpace == 0.0)
  {
  }

  /** `atoi` of a string of digits without sign or spaces whose value fits an `int`. */
  lemma AtoiOfDigits(s: string)
    requires 0 < |s| && forall i :: 0 <= i < |s| ==> IsDigit(s[i])
    requires DecimalValue(s) <= INT_MAX
    ensures Atoi(s) == DecimalValue(s)
  {
    assert NumeralPrefix(s, 0, 0, |s|);
    assert s[0..|s|] == s;
    AtoiReadsNumeral(s, 0, 0, |s|);
  }

  /**
   * A partial style: `<style id="7" name="x" partial="true"
   * fontSizeDelta="2" bold="true"/>` gives kind 7 a partial decoration with
   * font size delta 2, bold true, italic undefined and no indent.
   */
  lemma PartialStyleExample(parseLength: LengthParser)
    ensures ElementDecoration(parseLength, "style",
              map["id" := "7", "name" := "x", "partial" := "true", "fontSizeDelta" := "2", "bold" := "true"])
            == Some((7, Partial(Common("x", 2, B3True, B3Undefined, 0, B3Undefined, None, None), None)))
  {
    var attributes := map["id" := "7", "name" := "x", "partial" := "true", "fontSizeDelta" := "2", "bold" := "true"];
    var common := Common("x", 2, B3True, B3Undefined, 0, B3Undefined, None, None);
    assert Atoi("7") == 7 && Atoi("2") == 2 by {
      AtoiOfDigits("7");
      AtoiOfDigits("2");
    }
    assert ElementDecoration(parseLength, "style", attributes) == Some((Atoi("7"), Partial(common, None))) by {
      assert attributes["id"] == "7" && attributes["name"] == "x" && attributes["partial"] == "true";
      assert attributes["fontSizeDelta"] == "2" && attributes["bold"] == "true";
      assert "vShift" !in attributes && "italic" !in attributes && "allowHyphenations" !in attributes;
      assert "hyperlink" !in attributes && "family" !in attributes && "firstLineIndentDelta" !in attributes;
    }
  }

  /**
   * A full style: `<style id="3" name="y" spaceBefore="10%"
   * alignment="center" lineSpacingPercent="150"/>`, where the length
   * grammar reads "10%" as 10 percent, gives kind 3 a full decoration with
   * space before 10 percent, centred, with line spacing 1.5.
   */
  lemma FullStyleExample(parseLength: LengthParser)
    requires parseLength("10%") == Some((10, Percent))
    ensures ElementDecoration(parseLength, "style",
              map["id" := "3", "name" := "y", "spaceBefore" := "10%", "alignment" := "center", "lineSpacingPercent" := "150"])
            == Some((3, Full(Common("y", 0, B3Undefined, B3Undefined, 0, B3Undefined, None, None),
                             Length(10, Percent), Length(0, Pixel), Length(0, Pixel), Length(0, Pixel), Length(0, Pixel),
                             AlignCenter, 1.5)))
  {
    var attributes := map["id" := "3", "name" := "y", "spaceBefore" := "10%", "alignment" := "center", "lineSpacingPercent" := "150"];
    var common := Common("y", 0, B3Undefined, B3Undefined, 0, B3Undefined, None, None);
    assert Atoi("3") == 3 by {
      AtoiOfDigits("3");
    }
    assert ElementDecoration(parseLength, "style", attributes) == Some((Atoi("3"), FullOf(parseLength, attributes, common))) by {
      assert attributes["id"] == "3" && attributes["name"] == "y" && "partial" !in attributes;
      assert "fontSizeDelta" !in attributes && "vShift" !in attributes;
      assert "bold" !in attributes && "italic" !in attributes && "allowHyphenations" !in attributes;
      assert "hyperlink" !in attributes && "family" !in attributes;
    }
    FullStyleExampleFields(parseLength, attributes, common);
  }

  lemma FullStyleExampleFields(parseLength: LengthParser, attributes: Attributes, common: Common)
    requires parseLength("10%") == Some((10, Percent))
    requires attributes == map["id" := "3", "name" := "y", "spaceBefore" := "10%", "alignment" := "center", "lineSpacingPercent" := "150"]
    ensures FullOf(parseLength, attributes, common)
      == Full(common, Length(10, Percent), Length(0, Pixel), Length(0, Pixel), Length(0, Pixel), Length(0, Pixel),
              AlignCenter, 1.5)
  {
    assert attributes.Keys == {"id", "name", "spaceBefore", "alignment", "lineSpacingPercent"};
    AtoiOf150();
  }

  lemma AtoiOf150()
    ensures Atoi("150") == 150
  {
    assert DecimalValue("1") == 1;
    assert "15"[..1] == "1";
    assert DecimalValue("15") == 15;
    assert "150"[..2] == "15";
    AtoiOfDigits("150");
  }
}
