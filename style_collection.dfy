/**
 * `ZLTextStyleCollection`: the style table that maps a text kind to its
 * decoration, the reader whose element handler fills it, and the lazily
 * created process-wide instance.
 *
 * The table is a `std::map`, whose `insert` leaves an existing key alone,
 * so the first decoration inserted for a kind is the one that stays.
 */
module TextStyleCollection {
  import opened CLib
  import opened TextStyle
  import opened StyleAttributes

  /** A start tag as the XML reader reports it to the element handler. */
  datatype Element = Element(tag: string, attributes: Attributes)

  /** `std::map::insert` of one pair. */
  function InsertNew(m: map<int, StyleDecoration>, kind: int, d: StyleDecoration): map<int, StyleDecoration>
  {
    if kind in m then m else m[kind := d]
  }

  /** The table that inserting the pairs of `entries` one after another builds. */
  function Table(entries: seq<(int, StyleDecoration)>): map<int, StyleDecoration>
  {
    if entries == [] then map[]
    else
      var last := entries[|entries| - 1];
      InsertNew(Table(entries[..|entries| - 1]), last.0, last.1)
  }

  /** The decoration of the first pair for `kind` in `entries`, if there is one. */
  function FirstFor(entries: seq<(int, StyleDecoration)>, kind: int): Option<StyleDecoration>
  {
    if entries == [] then None
    else if entries[0].0 == kind then Some(entries[0].1)
    else FirstFor(entries[1..], kind)
  }

  /** The first pair for a kind in a concatenation lies in its first part if it can. */
  lemma {:induction false} FirstForConcat(xs: seq<(int, StyleDecoration)>, ys: seq<(int, StyleDecoration)>, kind: int)
    ensures FirstFor(xs + ys, kind) == if FirstFor(xs, kind).Some? then FirstFor(xs, kind) else FirstFor(ys, kind)
  {
    if xs == [] {
      assert xs + ys == ys;
    } else {
      assert (xs + ys)[1..] == xs[1..] + ys;
      FirstForConcat(xs[1..], ys, kind);
    }
  }

  /**
   * Looking a kind up in the table gives the first decoration inserted for
   * it, and the kind is missing exactly when no pair named it.
   */
  lemma {:induction false} TableKeepsFirst(entries: seq<(int, StyleDecoration)>, kind: int)
    ensures kind in Table(entries) <==> FirstFor(entries, kind).Some?
    ensures kind in Table(entries) ==> Table(entries)[kind] == FirstFor(entries, kind).value
  {
    if entries != [] {
      var init, last := entries[..|entries| - 1], entries[|entries| - 1];
      TableKeepsFirst(init, kind);
      assert entries == init + [last];
      FirstForConcat(init, [last], kind);
      assert [last][1..] == [];
    }
  }

  /** The pair a start tag hands to `insert`: none or one. */
  function EntryOf(parseLength: LengthParser, element: Element): seq<(int, StyleDecoration)>
  {
    match ElementDecoration(parseLength, element.tag, element.attributes)
    case None => []
    case Some(entry) => [entry]
  }

  /** The pairs the start tags of a document hand to `insert`, in document order. */
  function Entries(parseLength: LengthParser, document: seq<Element>): seq<(int, StyleDecoration)>
  {
    if document == [] then []
    else Entries(parseLength, document[..|document| - 1]) + EntryOf(parseLength, document[|document| - 1])
  }

  /** The style table that reading a document builds. */
  function Load(parseLength: LengthParser, document: seq<Element>): map<int, StyleDecoration>
  {
    Table(Entries(parseLength, document))
  }

  lemma {:induction false} EntriesConcat(parseLength: LengthParser, xs: seq<Element>, ys: seq<Element>)
    ensures Entries(parseLength, xs + ys) == Entries(parseLength, xs) + Entries(parseLength, ys)
    decreases |ys|
  {
    if ys == [] {
      assert xs + ys == xs;
    } else {
      var init := ys[..|ys| - 1];
      assert (xs + ys)[..|xs + ys| - 1] == xs + init;
      EntriesConcat(parseLength, xs, init);
    }
  }

  /** No element of the document describes a style for `kind`. */
  predicate NoStyleFor(parseLength: LengthParser, document: seq<Element>, kind: int)
  {
    forall j :: 0 <= j < |document| ==>
      ElementDecoration(parseLength, document[j].tag, document[j].attributes).None? ||
      ElementDecoration(parseLength, document[j].tag, document[j].attributes).value.0 != kind
  }

  lemma {:induction false} NoEntryFor(parseLength: LengthParser, document: seq<Element>, kind: int)
    requires NoStyleFor(parseLength, document, kind)
    ensures FirstFor(Entries(parseLength, document), kind) == None
  {
    if document != [] {
      var init := document[..|document| - 1];
      NoEntryFor(parseLength, init, kind);
      FirstForConcat(Entries(parseLength, init), EntryOf(parseLength, document[|document| - 1]), kind);
    }
  }

  /**
   * The decoration loaded for a kind is that of the first style element
   * for it: later elements with the same id do not replace it.
   */
  lemma FirstStyleWins(parseLength: LengthParser, document: seq<Element>, i: nat, kind: int, d: StyleDecoration)
    requires i < |document|
    requires ElementDecoration(parseLength, document[i].tag, document[i].attributes) == Some((kind, d))
    requires NoStyleFor(parseLength, document[..i], kind)
    ensures kind in Load(parseLength, document) && Load(parseLength, document)[kind] == d
  {
    assert document == document[..i] + [document[i]] + document[i + 1..];
    EntriesConcat(parseLength, document[..i] + [document[i]], document[i + 1..]);
    EntriesConcat(parseLength, document[..i], [document[i]]);
    assert Entries(parseLength, [document[i]]) == [(kind, d)] by {
      assert [document[i]][..0] == [];
    }
    NoEntryFor(parseLength, document[..i], kind);
    var before := Entries(parseLength, document[..i]);
    FirstForConcat(before, [(kind, d)], kind);
    FirstForConcat(before + [(kind, d)], Entries(parseLength, document[i + 1..]), kind);
    TableKeepsFirst(Entries(parseLength, document), kind);
  }

  /** A kind no element describes a style for has no decoration. */
  lemma UnstyledKindAbsent(parseLength: LengthParser, document: seq<Element>, kind: int)
    requires NoStyleFor(parseLength, document, kind)
    ensures kind !in Load(parseLength, document)
  {
    NoEntryFor(parseLength, document, kind);
    TableKeepsFirst(Entries(parseLength, document), kind);
  }

  /**
   * Reading one more element adds at most its own kind: every kind already
   * in the table keeps its decoration, and a style whose kind is already
   * there changes nothing.
   */
  lemma LoadOneMore(parseLength: LengthParser, document: seq<Element>, element: Element)
    ensures var before, after := Load(parseLength, document), Load(parseLength, document + [element]);
      && (forall kind :: kind in before ==> kind in after && after[kind] == before[kind])
      && (forall kind :: kind in after && kind !in before ==>
            ElementDecoration(parseLength, element.tag, element.attributes) == Some((kind, after[kind])))
      && (match ElementDecoration(parseLength, element.tag, element.attributes)
          case None => after == before
          case Some(entry) => entry.0 in before ==> after == before)
  {
    var doc' := document + [element];
    assert doc'[..|doc'| - 1] == document;
    var entries := Entries(parseLength, document);
    var entry := EntryOf(parseLength, element);
    assert Entries(parseLength, doc') == entries + entry;
    if entry != [] {
      assert (entries + entry)[..|entries + entry| - 1] == entries;
    } else {
      assert entries + entry == entries;
    }
  }

  /**
   * The style table of one `ZLTextStyleCollection`: `myDecorationMap`,
   * with the pairs handed to its `insert` kept as a ghost history.
   */
  class StyleCollection {
    /** `myDecorationMap`. */
    var decorations: map<int, StyleDecoration>
    /** Every pair handed to `myDecorationMap.insert`, in order. */
    ghost var inserted: seq<(int, StyleDecoration)>

    ghost predicate Valid()
      reads this
    {
      decorations == Table(inserted)
    }

    /**
     * `ZLTextStyleCollection()`: reads the style document, handing each of
     * its start tags to the element handler in order.
     */
    constructor (parseLength: LengthParser, document: seq<Element>)
      ensures Valid()
      ensures inserted == Entries(parseLength, document)
      ensures decorations == Load(parseLength, document)
    {
      decorations := map[];
      inserted := [];
      new;
      var reader := new StyleReader(this, parseLength);
      var i := 0;
      while i < |document|
        invariant 0 <= i <= |document|
        invariant Valid()
        invariant inserted == Entries(parseLength, document[..i])
      {
        assert document[..i + 1][..i] == document[..i];
        reader.StartElementHandler(document[i].tag, document[i].attributes);
        i := i + 1;
      }
      assert document[..|document|] == document;
    }

    /**
     * `decoration(kind)`: the first decoration inserted for `kind`, or
     * none (the null pointer) if none was.
     */
    function Decoration(kind: int): (r: Option<StyleDecoration>)
      requires Valid()
      reads this
      ensures r == FirstFor(inserted, kind)
    {
      TableKeepsFirst(inserted, kind);
      if kind in decorations then Some(decorations[kind]) else None
    }

    /**
     * `myDecorationMap.insert(std::make_pair(kind, d))`: adds the pair when
     * `kind` has no decoration yet and otherwise leaves the map as it was.
     */
    method Insert(kind: int, d: StyleDecoration)
      requires Valid()
      modifies this
      ensures Valid()
      ensures inserted == old(inserted) + [(kind, d)]
      ensures kind in old(decorations) ==> decorations == old(decorations)
      ensures kind !in old(decorations) ==> decorations == old(decorations)[kind := d]
    {
      if kind !in decorations {
        decorations := decorations[kind := d];
      }
      inserted := inserted + [(kind, d)];
      assert inserted[..|inserted| - 1] == old(inserted);
    }
  }

  /** `ZLTextStyleReader`: the XML handler that fills a style collection. */
  class StyleReader {
    const collection: StyleCollection
    const parseLength: LengthParser

    constructor (collection: StyleCollection, parseLength: LengthParser)
      ensures this.collection == collection && this.parseLength == parseLength
    {
      this.collection := collection;
      this.parseLength := parseLength;
    }

    /**
     * `startElementHandler`: a "style" element with `id` and `name` adds
     * its decoration under `atoi(id)` unless that kind already has one;
     * any other start tag leaves the table as it was.
     */
    method StartElementHandler(tag: string, attributes: Attributes)
      requires collection.Valid()
      modifies collection
      ensures collection.Valid()
      ensures collection.inserted == old(collection.inserted) + EntryOf(parseLength, Element(tag, attributes))
      ensures match ElementDecoration(parseLength, tag, attributes)
        case None => collection.decorations == old(collection.decorations)
        case Some(entry) => collection.decorations == InsertNew(old(collection.decorations), entry.0, entry.1)
    {
      if tag == "style" {
        var idString := AttributeValue(attributes, "id");
        var name := AttributeValue(attributes, "name");
        if idString.Some? && name.Some? {
          var id := Atoi(idString.value);
          var decoration: StyleDecoration;

          var fontSizeDelta := IntValue(attributes, "fontSizeDelta", 0);
          var bold := B3Value(attributes, "bold");
          var italic := B3Value(attributes, "italic");
          var verticalShift := IntValue(attributes, "vShift", 0);
          var allowHyphenations := B3Value(attributes, "allowHyphenations");
          var common := Common(name.value, fontSizeDelta, bold, italic, verticalShift, allowHyphenations, None, None);

          if BooleanValue(attributes, "partial") {
            decoration := Partial(common, None);
            var indentValue := AttributeValue(attributes, "firstLineIndentDelta");
            if indentValue.Some? {
              var parsed := parseLength(indentValue.value);
              if parsed.Some? {
                decoration := decoration.(indentDelta := Some(Length(parsed.value.0 as int, parsed.value.1)));
              }
            }
          } else {
            var spaceBefore, spaceBeforeUnit := LengthValue(parseLength, attributes, "spaceBefore", Pixel, 0);
            var spaceAfter, spaceAfterUnit := LengthValue(parseLength, attributes, "spaceAfter", Pixel, 0);
            var leftIndent, leftIndentUnit := LengthValue(parseLength, attributes, "leftIndent", Pixel, 0);
            var rightIndent, rightIndentUnit := LengthValue(parseLength, attributes, "rightIndent", Pixel, 0);
            var firstLineIndentDelta, firstLineIndentDeltaUnit :=
              LengthValue(parseLength, attributes, "firstLineIndentDelta", Pixel, 0);

            var alignment := AlignmentOf(AttributeValue(attributes, "alignment"));
            var lineSpacingPercent := IntValue(attributes, "lineSpacingPercent", -1);
            var lineSpace := LineSpace(lineSpacingPercent);

            decoration := Full(
              common,
              Length(spaceBefore, spaceBeforeUnit),
              Length(spaceAfter, spaceAfterUnit),
              Length(leftIndent, leftIndentUnit),
              Length(rightIndent, rightIndentUnit),
              Length(firstLineIndentDelta, firstLineIndentDeltaUnit),
              alignment,
              lineSpace);
          }

          var hyperlink := AttributeValue(attributes, "hyperlink");
          if hyperlink.Some? {
            decoration := decoration.(common := decoration.common.(colorStyle := hyperlink));
          }
          var fontFamily := AttributeValue(attributes, "family");
          if fontFamily.Some? {
            decoration := decoration.(common := decoration.common.(fontFamily := fontFamily));
          }

          assert ElementDecoration(parseLength, tag, attributes) == Some((id, decoration));
          collection.Insert(id, decoration);
        }
      }
    }
  }

  /**
   * The static `ourInstance` behind `ZLTextStyleCollection::Instance` and
   * `deleteInstance`, with the length grammar and the contents of the
   * style document a new instance is loaded from.
   */
  class StyleRegistry {
    var instance: StyleCollection?
    const parseLength: LengthParser
    const document: seq<Element>

    ghost predicate Valid()
      reads this, instance
    {
      instance != null ==> instance.Valid() && instance.inserted == Entries(parseLength, document)
    }

    constructor (parseLength: LengthParser, document: seq<Element>)
      ensures Valid() && instance == null
      ensures this.parseLength == parseLength && this.document == document
    {
      this.parseLength := parseLength;
      this.document := document;
      instance := null;
    }

    /**
     * `Instance()`: the existing instance, or a new one loaded from the
     * style document when there is none.
     */
    method Instance() returns (c: StyleCollection)
      requires Valid()
      modifies this
      ensures Valid() && instance == c
      ensures old(instance) != null ==> c == old(instance)
      ensures old(instance) == null ==> fresh(c)
      ensures c.decorations == Load(parseLength, document)
    {
      if instance == null {
        instance := new StyleCollection(parseLength, document);
      }
      c := instance;
    }

    /** `deleteInstance()`: drops the instance, so that the next `Instance()` loads afresh. */
    method DeleteInstance()
      requires Valid()
      modifies this
      ensures Valid() && instance == null
    {
      if instance != null {
        instance := null;
      }
    }
  }

  /**
   * Tearing the instance down and asking for it again gives a table with
   * the same decoration for every kind.
   */
  method ReloadAfterTeardown(registry: StyleRegistry) returns (before: map<int, StyleDecoration>, after: map<int, StyleDecoration>)
    requires registry.Valid()
    modifies registry
    ensures before == after == Load(registry.parseLength, registry.document)
    ensures registry.Valid() && registry.instance != null
  {
    var first := registry.Instance();
    before := first.decorations;
    registry.DeleteInstance();
    var second := registry.Instance();
    after := second.decorations;
  }
}
