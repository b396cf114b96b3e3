# Text style table loader

A model of the style-table loader in FBReader's text library
(`ZLTextStyleCollection.cpp`). The loader reads the `<style .../>` elements of
`styles.xml` and builds a table that maps a text kind (heading, emphasis,
footnote, ...) to a style decoration. A decoration is either full, with five
lengths, an alignment and a line spacing, or partial, with an optional
first-line indent delta.

The model has four files:

- `clib.dfy` (module `CLib`) holds the C library routines the reader depends on.
  These are `isspace` in the "C" locale, `strtol` in base 10, `atoi` as the GNU
  C library defines it, and the narrowing of a `long` to an `int`. The platform
  is LP64 (64-bit `long`, 32-bit `int`), and narrowing wraps modulo 2^32, as GCC
  defines it.
- `text_style.dfy` (module `TextStyle`) holds the values. These are size units,
  `ZLBoolean3`, alignments, lengths, and the two decoration variants as one
  datatype.
- `style_attributes.dfy` (module `StyleAttributes`) holds the reader's attribute
  helpers. `intValue`, `booleanValue` and `b3Value` are functions, and
  `lengthValue` is a method with the source's two whitespace loops. The method
  is proved against the specification function `LengthOf`. `ElementDecoration`
  states what one start tag adds to the table.
- `style_collection.dfy` (module `TextStyleCollection`) holds the state:
  - the collection is a class whose `decorations` field is `myDecorationMap`;
  - the reader is a class whose `StartElementHandler` inserts into that map;
  - the static `ourInstance` is a registry class with `Instance` and
    `DeleteInstance`.

  The collection also keeps a ghost history of every pair given to `insert`.
  `Valid()` says the map is what inserting that history builds.

The length grammar `ZLTextStyleEntry::parseLength` is defined outside this file.
The model takes it as a function-valued parameter (`LengthParser`). The
contents of the style document are a sequence of start tags given to the
collection's constructor.

Behaviour worth knowing:

- `myDecorationMap` is a `std::map`, and `insert` leaves an existing key alone.
  So the FIRST style element for an id wins. Later ones are neither stored nor
  allowed to replace it (`FirstStyleWins`, `LoadOneMore`).
- `atoi` also skips leading whitespace and accepts a `+` sign. So does the
  bare-integer fallback of `lengthValue`, which goes through `strtol`.
- The fallback of `lengthValue` checks the range of `long`. It then returns the
  number as an `int`. On LP64, a numeral in `long` range but outside `int`
  range therefore comes back wrapped modulo 2^32 (`LengthOfBareInteger`).
- The alignment value "rigth" (so spelt) means right alignment. "right" is
  undefined.
- A `lineSpacingPercent` of 0, like an absent one or -1, gives a line spacing
  of 0 ("not given").

## Model

| member | source | states |
|---|---|---|
| `CLib.SkipSpaces` | fbreader/fbreader/zlibrary/text/src/style/ZLTextStyleCollection.cpp:76 | the index reached is the first non-space at or after the start: everything skipped is a space and the character there is not |
| `CLib.Strtol` | fbreader/fbreader/zlibrary/text/src/style/ZLTextStyleCollection.cpp:78 | the number is in the range of `long`; when nothing is converted, the number is 0, `endptr` is the start and ERANGE is not set; ERANGE comes only with a clamped LONG_MIN or LONG_MAX |
| `CLib.StrtolReadsNumeral` | fbreader/fbreader/zlibrary/text/src/style/ZLTextStyleCollection.cpp:78-79 | for a string that starts with spaces, an optional sign and digits, `strtol` stops right after the digits; it returns the numeral's value clamped to `long`, and sets ERANGE exactly when the value is out of range |
| `CLib.StrtolWithoutNumeral` | fbreader/fbreader/zlibrary/text/src/style/ZLTextStyleCollection.cpp:78-79 | for a string that does not start with a numeral, `strtol` converts nothing: it returns 0, `endptr` is the start and ERANGE is not set |
| `CLib.StrtolFindsNumeral` | fbreader/fbreader/zlibrary/text/src/style/ZLTextStyleCollection.cpp:79 | if `endptr` moved, the string starts with a numeral ending at `endptr`, and without ERANGE the number is its value |
| `CLib.Int32` | fbreader/fbreader/zlibrary/text/src/style/ZLTextStyleCollection.cpp:84 | a `long` returned as `int` is in `int` range and congruent to it modulo 2^32; a value already in `int` range is unchanged |
| `CLib.Atoi` | fbreader/fbreader/zlibrary/text/src/style/ZLTextStyleCollection.cpp:95 | `atoi` always gives a value in `int` range |
| `CLib.AtoiReadsNumeral` | fbreader/fbreader/zlibrary/text/src/style/ZLTextStyleCollection.cpp:95 | `atoi` of a string that starts with spaces, an optional sign and digits (anything may follow) is the numeral's value when it fits an `int` |
| `CLib.AtoiWithoutNumeral` | fbreader/fbreader/zlibrary/text/src/style/ZLTextStyleCollection.cpp:95 | `atoi` of a string without a leading numeral is 0 |
| `StyleAttributes.IntValue` | fbreader/fbreader/zlibrary/text/src/style/ZLTextStyleCollection.cpp:93-96 | an absent attribute gives the default; a present one gives an `int`-range value |
| `StyleAttributes.IntValueOfNumeral` | fbreader/fbreader/zlibrary/text/src/style/ZLTextStyleCollection.cpp:93-96 | a present attribute that starts with a numeral fitting an `int` reads as that numeral |
| `StyleAttributes.IntValueWithoutNumeral` | fbreader/fbreader/zlibrary/text/src/style/ZLTextStyleCollection.cpp:93-96 | a present attribute without a leading numeral reads as 0, not as the default |
| `StyleAttributes.B3Value` | fbreader/fbreader/zlibrary/text/src/style/ZLTextStyleCollection.cpp:103-106 | undefined exactly when the attribute is absent; true exactly for the value "true"; false exactly for any other present value |
| `StyleAttributes.BooleanValue` | fbreader/fbreader/zlibrary/text/src/style/ZLTextStyleCollection.cpp:98-101 | true exactly when `b3Value` would be true, that is when the attribute is present and is "true"; an absent attribute is false |
| `StyleAttributes.BareIntegerAccepts` | fbreader/fbreader/zlibrary/text/src/style/ZLTextStyleCollection.cpp:75-85 | a string made of spaces, an optional sign, digits and spaces, whose value is in `long` range, passes the fallback with that value |
| `StyleAttributes.BareIntegerRejects` | fbreader/fbreader/zlibrary/text/src/style/ZLTextStyleCollection.cpp:75-90 | a string that is not such a numeral in `long` range fails the fallback (no digits, other characters, or out of range) |
| `StyleAttributes.LengthOfBareInteger` | fbreader/fbreader/zlibrary/text/src/style/ZLTextStyleCollection.cpp:72-85 | when `parseLength` rejects a bare integer, `lengthValue` returns it narrowed to `int`, with the unit set to pixels; an `int`-range numeral comes back unchanged |
| `StyleAttributes.LengthOfMalformed` | fbreader/fbreader/zlibrary/text/src/style/ZLTextStyleCollection.cpp:72-90 | when `parseLength` rejects a value that is not a bare integer in range, `lengthValue` returns the default and leaves the unit as it was |
| `StyleAttributes.LengthValue` | fbreader/fbreader/zlibrary/text/src/style/ZLTextStyleCollection.cpp:68-91 | the loops and the `errno` test compute `LengthOf`: an absent attribute gives the default with the unit untouched; a value `parseLength` accepts gives its size and unit; a bare integer gives pixels; anything else gives the default |
| `StyleAttributes.AlignmentOf` | fbreader/fbreader/zlibrary/text/src/style/ZLTextStyleCollection.cpp:146-160 | left, right, center, justify and line start hold exactly for "left", "rigth", "center", "justify" and "linestart"; any other value, or none, is undefined |
| `StyleAttributes.LineSpace` | fbreader/fbreader/zlibrary/text/src/style/ZLTextStyleCollection.cpp:161-162 | -1 gives 0; any other percentage p gives a factor f with f * 100 = p; the factor is 0 exactly for -1 and 0 |
| `StyleAttributes.ElementDecoration` | fbreader/fbreader/zlibrary/text/src/style/ZLTextStyleCollection.cpp:111-124 | a start tag yields a decoration exactly when it is "style" and has both `id` and `name`; its kind is `atoi(id)`, its name is `name`, and it is partial exactly when `partial` is "true" |
| `StyleAttributes.PartialDecorationFields` | fbreader/fbreader/zlibrary/text/src/style/ZLTextStyleCollection.cpp:124-133 | a partial decoration carries the common fields; its first-line indent delta is set exactly when the attribute is present and `parseLength` accepts it, and then it is the parsed size and unit |
| `StyleAttributes.PartialIndentHasNoFallback` | fbreader/fbreader/zlibrary/text/src/style/ZLTextStyleCollection.cpp:126-133 | a bare integer that `parseLength` rejects leaves a partial decoration's indent unset, while the full branch reads the same value as pixels |
| `StyleAttributes.FullDecorationFields` | fbreader/fbreader/zlibrary/text/src/style/ZLTextStyleCollection.cpp:134-180 | a full decoration carries the common fields (name, font size delta, bold, italic, vertical shift, hyphenation, hyperlink style and family); each of the five lengths is `lengthValue` of its own attribute with its own unit starting as pixels, so an absent one is 0 pixels whatever the others are; the alignment is read from `alignment` (undefined when absent) and the line spacing from `lineSpacingPercent` (0 when absent) |
| `StyleAttributes.PartialStyleExample` | fbreader/fbreader/zlibrary/text/src/style/ZLTextStyleCollection.cpp:118-133 | `<style id="7" name="x" partial="true" fontSizeDelta="2" bold="true"/>` gives kind 7 a partial decoration: font size delta 2, bold true, italic and hyphenation undefined, no indent |
| `StyleAttributes.FullStyleExample` | fbreader/fbreader/zlibrary/text/src/style/ZLTextStyleCollection.cpp:134-170 | `<style id="3" name="y" spaceBefore="10%" alignment="center" lineSpacingPercent="150"/>`, with "10%" read as 10 percent, gives kind 3 a full decoration: space before 10 percent, other lengths 0 pixels, centred, line spacing 1.5 |
| `TextStyleCollection.TableKeepsFirst` | fbreader/fbreader/zlibrary/text/src/style/ZLTextStyleCollection.cpp:182 | after a series of `insert`s, a kind is in the map exactly when some pair named it, and its decoration is that of the first such pair |
| `TextStyleCollection.FirstStyleWins` | fbreader/fbreader/zlibrary/text/src/style/ZLTextStyleCollection.cpp:182 | the decoration loaded for a kind is that of the first style element with that id; later elements with the same id do not replace it |
| `TextStyleCollection.UnstyledKindAbsent` | fbreader/fbreader/zlibrary/text/src/style/ZLTextStyleCollection.cpp:201-204 | a kind that no style element names has no entry, so `decoration` finds nothing for it |
| `TextStyleCollection.LoadOneMore` | fbreader/fbreader/zlibrary/text/src/style/ZLTextStyleCollection.cpp:182 | reading one more element keeps every existing kind's decoration and adds at most that element's kind; an element whose kind is already present, or that yields nothing, leaves the table unchanged |
| `TextStyleCollection.StyleCollection.constructor` | fbreader/fbreader/zlibrary/text/src/style/ZLTextStyleCollection.cpp:187-193 | handing the document's start tags to the element handler in order leaves the map equal to `Load` of the document |
| `TextStyleCollection.StyleCollection.Decoration` | fbreader/fbreader/zlibrary/text/src/style/ZLTextStyleCollection.cpp:201-204 | `decoration(kind)` is the first decoration ever inserted for the kind, or none (null) if none was |
| `TextStyleCollection.StyleCollection.Insert` | fbreader/fbreader/zlibrary/text/src/style/ZLTextStyleCollection.cpp:182 | `insert` adds the pair when the kind has no decoration yet; otherwise the map stays as it was; no other key changes |
| `TextStyleCollection.StyleReader.constructor` | fbreader/fbreader/zlibrary/text/src/style/ZLTextStyleCollection.cpp:52 | the reader fills the collection it is given |
| `TextStyleCollection.StyleReader.StartElementHandler` | fbreader/fbreader/zlibrary/text/src/style/ZLTextStyleCollection.cpp:108-185 | the handler inserts exactly the pair `ElementDecoration` describes, so a tag other than "style", or one missing `id` or `name`, leaves the map unchanged; the map stays what the insert history builds |
| `TextStyleCollection.StyleRegistry.constructor` | fbreader/fbreader/zlibrary/text/src/style/ZLTextStyleCollection.cpp:33 | the process starts without an instance |
| `TextStyleCollection.StyleRegistry.Instance` | fbreader/fbreader/zlibrary/text/src/style/ZLTextStyleCollection.cpp:35-40 | an existing instance is returned as it is; without one, a fresh instance is created; either way the table is `Load` of the style document |
| `TextStyleCollection.StyleRegistry.DeleteInstance` | fbreader/fbreader/zlibrary/text/src/style/ZLTextStyleCollection.cpp:42-47 | afterwards there is no instance |
| `TextStyleCollection.ReloadAfterTeardown` | fbreader/fbreader/zlibrary/text/src/style/ZLTextStyleCollection.cpp:35-47 | asking for the instance, deleting it and asking again gives the same table both times |

## Left out

- Reading the style file is left out: `ZLXMLReader::readDocument`, `ZLFile`, and the path `ZLibrary::DefaultFilesPathPrefix() + "styles.xml"` (lines 190-192). The document is given to the constructor as its sequence of start tags.
- `attributeValue` (of `ZLXMLReader`) is modelled as a lookup in a map from attribute name to value. XML allows each attribute once.
- `ZLTextStyleEntry::parseLength` is defined outside this file, so it is a parameter. The model assumes it writes its size and unit only when it accepts a string. If it changed `unit` on a rejection, `lengthValue` would return the default with that changed unit.
- StyleAttributes.LengthValue: `errno` is taken to be ERANGE only when this `strtol` call overflowed. The source never clears `errno` first. With a stale ERANGE, a numeral equal to exactly LONG_MIN or LONG_MAX would be rejected, and the model accepts it.
- CLib.Int32: the LP64 widths and GCC's modulo narrowing are fixed. On a platform where `long` is 32 bits, the narrowing is the identity, and `strtol`'s clamping happens at the `int` bounds instead.
- CLib.Atoi: `atoi` is modelled as the GNU C library implements it. ISO C leaves an out-of-range result undefined.
- StyleAttributes.LineSpace: the line spacing is the exact rational percent/100. It is not rounded to a `double`.
- The persisted options `AutoHyphenationOption` and `OverrideSpecifiedFontsOption` (lines 188-189) are configuration storage, so they are left out. `FontFamilyOption.setValue` (line 179) becomes a plain optional `fontFamily` field.
- The destructor (lines 195-199) is left out, along with heap ownership and `delete`. The decoration allocated for a duplicate id and never stored (a leak) is left out too. The model keeps only the map's contents.
- The cast of `atoi(id)` to `ZLTextKind` is left out. ZLTextKind.h is not part of this model, so the kind is kept as the `int` that `atoi` returns.
- The parameter types of the decoration constructors are left out. ZLTextDecoratedStyle.h is not part of this model, so the lengths stay the `int` values the reader computes.
- `isspace` on characters outside the "C" locale's ASCII set is left out. A negative `char` passed to `isspace` is undefined behaviour in C.
- The style file is assumed unchanged between a `deleteInstance` and the next `Instance()`. The real `Instance()` reads `styles.xml` again (lines 37 and 190-192); the model gives every load the same start tags, which is why a reload yields the same table.
- Tag names and attribute values are taken to contain no NUL character, as XML forbids it. C would stop reading a value at a NUL (so "5" followed by NUL is 5 pixels and "true" followed by NUL is true), while the model reads the whole string.
- Thread safety of `Instance()` is left out. Its check-then-create is not atomic, and the model is single-threaded.
- `app/src/BooksShelf.h` and `app/src/BooksPaintContext.h` belong to the Qt user interface and painting layers. They are not part of this model.
