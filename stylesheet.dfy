/**
 * The styles part `OpenXmlBuilder` assembles once every worksheet is written:
 * the default numbering format, font, fills, borders and cell format, then
 * one entry per component the allocated styles use, and one cell format per
 * style in allocation order, whose ids point back at those entries.
 */
module Stylesheets {
  import opened Wrappers
  import opened Exceptions
  import opened Text
  import opened SharedElements
  import opened Styling
  import Formatting

  /** The lowest custom number format id, above every built-in one. */
  const BaseCustomFormatId: int := 165

  // ---- The elements of the part ----

  datatype NumberingFormat = NumberingFormat(numberFormatId: int, formatCode: string)

  /** The children of a `Font` element. */
  datatype FontPart = BoldPart | ItalicPart | NamePart(name: string) | SizePart(size: real) | ColorPart(rgb: string)

  datatype PatternType = PatternNone | Gray125 | Solid

  /** A `Fill`: its pattern and, for a solid fill, the foreground colour. */
  datatype Fill = Fill(pattern: PatternType, foreground: Option<string>)

  datatype Side = LeftSide | RightSide | TopSide | BottomSide | DiagonalSide

  /** One child of a `Border` element; a thin line has the automatic colour, otherwise the side is empty. */
  datatype BorderLine = BorderLine(side: Side, thin: bool)

  /** A `CellFormat`: the component ids, and which of them the format applies (an unset flag is absent). */
  datatype CellFormat = CellFormat(
    fontId: int,
    fillId: int,
    borderId: int,
    numberFormatId: Option<int>,
    applyFont: bool,
    applyFill: bool,
    applyBorder: bool,
    applyNumberFormat: bool)

  datatype Stylesheet = Stylesheet(
    numberingFormats: seq<NumberingFormat>,
    numberingFormatsCount: int,
    fonts: seq<seq<FontPart>>,
    fills: seq<Fill>,
    borders: seq<seq<BorderLine>>,
    cellFormats: seq<CellFormat>)

  const DefaultNumberingFormats: seq<NumberingFormat> := [NumberingFormat(0, "")]

  const DefaultFonts: seq<seq<FontPart>> := [[SizePart(11.0), ColorPart("000000"), NamePart("Calibri")]]

  const DefaultFills: seq<Fill> := [Fill(PatternNone, None), Fill(Gray125, None)]

  /** Border 0 has five empty sides; border 1 has the four outer sides thin. */
  const DefaultBorders: seq<seq<BorderLine>> := [
    [BorderLine(LeftSide, false), BorderLine(RightSide, false), BorderLine(TopSide, false),
     BorderLine(BottomSide, false), BorderLine(DiagonalSide, false)],
    [BorderLine(LeftSide, true), BorderLine(RightSide, true), BorderLine(TopSide, true),
     BorderLine(BottomSide, true), BorderLine(DiagonalSide, false)]]

  const DefaultCellFormat: CellFormat := CellFormat(0, 0, 0, None, false, false, false, false)

  const DefaultCellFormats: seq<CellFormat> := [DefaultCellFormat]

  // ---- Colours ----

  /** `ToArgb() & 0x00FFFFFF`: the colour without its alpha channel. */
  function Rgb(c: Color): (v: nat)
    ensures v < Pow16(6)
  {
    assert Pow16(6) == 0x100_0000 by {
      assert Pow16(2) == 256;
      assert Pow16(4) == 256 * 256;
    }
    c.r * 0x1_0000 + c.g * 0x100 + c.b
  }

  /**
   * `ToHex` as written: the RGB value in upper-case hexadecimal, without
   * leading zeros. It reads back to the colour but may have fewer than six
   * digits.
   */
  function ToHex(c: Color): (s: string)
    ensures 1 <= |s| <= 6
    ensures forall k :: 0 <= k < |s| ==> IsHexDigit(s[k])
    ensures ParseHex(s) == Rgb(c)
  {
    HexTextLength(Rgb(c), 6);
    ParseHexText(Rgb(c));
    HexText(Rgb(c))
  }

  /** The colour as six upper-case hexadecimal digits, the form an RGB attribute takes. */
  function ToHexColor(c: Color): (s: string)
    ensures |s| == 6
    ensures forall k :: 0 <= k < |s| ==> IsHexDigit(s[k])
    ensures ParseHex(s) == Rgb(c)
  {
    ParseHexPadded(Rgb(c), 6);
    HexPadded(Rgb(c), 6)
  }

  /** Blue 1 loses its leading zeros: `ToHex` gives "1", an odd-length binary value, where "000001" is meant. */
  lemma ToHexDropsLeadingZeros()
    ensures ToHex(Color("", 255, 0, 0, 1)) == "1"
    ensures ToHexColor(Color("", 255, 0, 0, 1)) == "000001"
  {
  }

  /** Six digits give the same text as `ToHex` exactly when the colour needs all six. */
  lemma ToHexColorAgreesWhenWide(c: Color)
    ensures ToHex(c) == ToHexColor(c) <==> Rgb(c) >= 0x10_0000
  {
    if ToHex(c) == ToHexColor(c) {
      HexTextIsWide(Rgb(c));
    } else {
      if Rgb(c) >= 0x10_0000 {
        HexTextOfWide(Rgb(c));
      }
    }
  }

  lemma HexTextIsWide(n: nat)
    requires |HexText(n)| == 6
    ensures n >= 0x10_0000
  {
    var s := HexText(n);
    var a := HexText(n / 16);
    var b := HexText(n / 16 / 16);
    var c := HexText(n / 16 / 16 / 16);
    var d := HexText(n / 16 / 16 / 16 / 16);
    assert |a| == 5 && |b| == 4 && |c| == 3 && |d| == 2;
  }

  lemma HexTextOfWide(n: nat)
    requires 0x10_0000 <= n < 0x100_0000
    ensures HexText(n) == HexPadded(n, 6)
  {
    var n1 := n / 16;
    var n2 := n1 / 16;
    var n3 := n2 / 16;
    var n4 := n3 / 16;
    var n5 := n4 / 16;
    assert 1 <= n5 < 16;
    assert HexText(n5) == HexPadded(n5, 1);
    assert HexText(n4) == HexPadded(n4, 2);
    assert HexText(n3) == HexPadded(n3, 3);
    assert HexText(n2) == HexPadded(n2, 4);
    assert HexText(n1) == HexPadded(n1, 5);
  }

  // ---- Element builders ----

  /** `CreateFont`: bold and italic when set, the name when there is one, then the size and the colour. */
  function CreateFont(font: Font): (parts: seq<FontPart>)
  {
    (if font.weight == Bold then [BoldPart] else []) +
    (if font.slope == Italic then [ItalicPart] else []) +
    (match font.typeface case Some(name) => [NamePart(name)] case None => []) +
    [SizePart(font.size), ColorPart(ToHex(font.color))]
  }

  /**
   * A font element holds each optional part exactly when the definition
   * asks for it, ends with the size and the colour, and the colour digits
   * read back to the definition's RGB value.
   */
  lemma CreateFontParts(font: Font)
    ensures var parts := CreateFont(font);
      (BoldPart in parts <==> font.weight == Bold) &&
      (ItalicPart in parts <==> font.slope == Italic) &&
      (forall name :: NamePart(name) in parts <==> font.typeface == Some(name)) &&
      |parts| >= 2 && parts[|parts| - 2] == SizePart(font.size) &&
      parts[|parts| - 1].ColorPart? && ParseHex(parts[|parts| - 1].rgb) == Rgb(font.color) &&
      |parts| == 2 + (if font.weight == Bold then 1 else 0) + (if font.slope == Italic then 1 else 0) +
        (if font.typeface.Some? then 1 else 0)
  {
  }

  /** `CreateBorder`: a thin line for each set side, in the order left, right, top, bottom, then the diagonal. */
  function CreateBorder(border: Border): (lines: seq<BorderLine>)
  {
    (if border.left then [BorderLine(LeftSide, true)] else []) +
    (if border.right then [BorderLine(RightSide, true)] else []) +
    (if border.top then [BorderLine(TopSide, true)] else []) +
    (if border.bottom then [BorderLine(BottomSide, true)] else []) +
    [BorderLine(DiagonalSide, false)]
  }

  /** The sides a border element draws. */
  function SidesOf(lines: seq<BorderLine>): (b: Border)
  {
    Border(BorderLine(LeftSide, true) in lines, BorderLine(RightSide, true) in lines,
           BorderLine(TopSide, true) in lines, BorderLine(BottomSide, true) in lines)
  }

  /**
   * A border element draws exactly the sides of its definition, in the
   * fixed order, and always ends with the empty diagonal; so different
   * definitions give different elements.
   */
  lemma CreateBorderSides(border: Border)
    ensures SidesOf(CreateBorder(border)) == border
    ensures var lines := CreateBorder(border);
      lines[|lines| - 1] == BorderLine(DiagonalSide, false) &&
      (forall i :: 0 <= i < |lines| - 1 ==> lines[i].thin && SideRank(lines[i].side) < SideRank(lines[i + 1].side))
  {
    BorderSidesDrawn(border);
    BorderLinesOrdered(border);
  }

  lemma BorderSidesDrawn(border: Border)
    ensures SidesOf(CreateBorder(border)) == border
  {
  }

  lemma BorderLinesOrdered(border: Border)
    ensures var lines := CreateBorder(border);
      lines[|lines| - 1] == BorderLine(DiagonalSide, false) &&
      (forall i :: 0 <= i < |lines| - 1 ==> lines[i].thin && SideRank(lines[i].side) < SideRank(lines[i + 1].side))
  {
    var lines := CreateBorder(border);
    assert forall line :: line in lines ==> line.thin || line.side == DiagonalSide;
  }

  function SideRank(s: Side): nat
  {
    match s
    case LeftSide => 0
    case RightSide => 1
    case TopSide => 2
    case BottomSide => 3
    case DiagonalSide => 4
  }

  /** The border ALL gives the second default border, so its id 1 draws what ALL asks for. */
  lemma AllIsSecondDefault()
    ensures CreateBorder(ALL) == DefaultBorders[1]
    ensures SidesOf(DefaultBorders[0]) == NONE && SidesOf(DefaultBorders[1]) == ALL
  {
  }

  /**
   * A solid fill of the colour, written with the unpadded `ToHex`: one to
   * six hex digits that read back to the colour's RGB value.
   */
  function CreateFill(color: Color): (fill: Fill)
    ensures fill.pattern == Solid && fill.foreground.Some? && 1 <= |fill.foreground.value| <= 6
    ensures forall k :: 0 <= k < |fill.foreground.value| ==> IsHexDigit(fill.foreground.value[k])
    ensures ParseHex(fill.foreground.value) == Rgb(color)
  {
    Fill(Solid, Some(ToHex(color)))
  }

  /**
   * The colours written into fonts and fills are the six-digit RGB form
   * exactly when the colour is at least 0x100000; below that they are
   * shorter (see `ToHexDropsLeadingZeros`).
   */
  lemma WrittenColoursAreSixDigitsOnlyWhenWide(font: Font, color: Color)
    ensures CreateFont(font)[|CreateFont(font)| - 1] == ColorPart(ToHexColor(font.color)) <==> Rgb(font.color) >= 0x10_0000
    ensures CreateFill(color).foreground == Some(ToHexColor(color)) <==> Rgb(color) >= 0x10_0000
  {
    ToHexColorAgreesWhenWide(font.color);
    ToHexColorAgreesWhenWide(color);
  }

  // ---- Component registration ----

  /** The code a style registers as a custom number format: one not found in the catalogue. */
  function CustomFormatRequest(style: CellStyle): seq<string>
  {
    if style.format.Some? && Formatting.LookupBuiltIn(style.format.value).None? then [style.format.value] else []
  }

  function FontRequest(style: CellStyle): seq<Font>
  {
    if style.font.Some? then [style.font.value] else []
  }

  function FillRequest(style: CellStyle): seq<Color>
  {
    if style.fillColor.Some? then [style.fillColor.value] else []
  }

  /** NONE and ALL have default borders and are never registered. */
  function BorderRequest(style: CellStyle): seq<Border>
  {
    if style.border != NONE && style.border != ALL then [style.border] else []
  }

  /** The registration requests the styles make, in style order. */
  function Requests<T(==,!new)>(styles: seq<CellStyle>, request: CellStyle -> seq<T>): (r: seq<T>)
    ensures forall x :: x in r <==> exists i :: 0 <= i < |styles| && x in request(styles[i])
  {
    if styles == [] then []
    else
      var init := styles[..|styles| - 1];
      var r := Requests(init, request) + request(styles[|styles| - 1]);
      assert forall i :: 0 <= i < |init| ==> init[i] == styles[i];
      r
  }

  lemma RequestsStep<T(!new)>(styles: seq<CellStyle>, i: nat, request: CellStyle -> seq<T>)
    requires i < |styles|
    ensures Requests(styles[..i + 1], request) == Requests(styles[..i], request) + request(styles[i])
  {
    assert styles[..i + 1][..i] == styles[..i];
  }

  /** The four component lists, each in first-use order without repetitions. */
  datatype Components = Components(customFormats: seq<string>, fonts: seq<Font>, fills: seq<Color>, borders: seq<Border>)

  function RegisterComponents(styles: seq<CellStyle>): (c: Components)
    ensures Distinct(c.customFormats) && Distinct(c.fonts) && Distinct(c.fills) && Distinct(c.borders)
  {
    Components(Dedup(Requests(styles, CustomFormatRequest)), Dedup(Requests(styles, FontRequest)),
               Dedup(Requests(styles, FillRequest)), Dedup(Requests(styles, BorderRequest)))
  }

  /** `GetElementIndex` of a collection that is not drained, shifted by the defaults in front of it. */
  function IdIn<T(==,!new)>(xs: seq<T>, x: T, offset: int): (r: Result<int, Exception>)
    ensures r.Ok? <==> x in xs
    ensures r.Err? ==> r.error == KeyNotFound
    ensures r.Ok? ==> offset <= r.value < offset + |xs| && xs[r.value - offset] == x
  {
    if x in xs then Ok(IndexOf(xs, x) + offset) else Err(KeyNotFound)
  }

  /** The font id of `CreateCellFormat`: 0 without a font, otherwise the font's index + 1. */
  function FontIdOf(style: CellStyle, c: Components): Result<int, Exception>
  {
    if style.font.None? then Ok(0) else IdIn(c.fonts, style.font.value, |DefaultFonts|)
  }

  /** The fill id: 0 without a fill colour, otherwise the colour's index + 2. */
  function FillIdOf(style: CellStyle, c: Components): Result<int, Exception>
  {
    if style.fillColor.None? then Ok(0) else IdIn(c.fills, style.fillColor.value, |DefaultFills|)
  }

  /** The border id: 0 for NONE, 1 for ALL, otherwise the border's index + 2. */
  function BorderIdOf(style: CellStyle, c: Components): Result<int, Exception>
  {
    if style.border == NONE then Ok(0)
    else if style.border == ALL then Ok(1)
    else IdIn(c.borders, style.border, |DefaultBorders|)
  }

  /** The number format id: none without a format, the catalogue id of a catalogued code, otherwise 165 + its index. */
  function NumberFormatIdOf(style: CellStyle, c: Components): Result<Option<int>, Exception>
  {
    if style.format.None? then Ok(None)
    else match Formatting.LookupBuiltIn(style.format.value)
      case Some(common) => Ok(Some(common.id))
      case None =>
        var custom := IdIn(c.customFormats, style.format.value, BaseCustomFormatId);
        if custom.Err? then Err(custom.error) else Ok(Some(custom.value))
  }

  /**
   * `CreateCellFormat`: the four ids, each flag set with its non-default
   * component. A component missing from its collection is
   * KeyNotFoundException, the font's checked first.
   */
  function CreateCellFormat(style: CellStyle, c: Components): (r: Result<CellFormat, Exception>)
  {
    var fontId := FontIdOf(style, c);
    var fillId := FillIdOf(style, c);
    var borderId := BorderIdOf(style, c);
    var numberFormatId := NumberFormatIdOf(style, c);
    if fontId.Err? then Err(fontId.error)
    else if fillId.Err? then Err(fillId.error)
    else if borderId.Err? then Err(borderId.error)
    else if numberFormatId.Err? then Err(numberFormatId.error)
    else Ok(CellFormat(fontId.value, fillId.value, borderId.value, numberFormatId.value,
                       style.font.Some?, style.fillColor.Some?, style.border != NONE, style.format.Some?))
  }

  /** The cell formats of the styles in order (LINQ `Select`), failing at the first failure. */
  function CreateCellFormats(styles: seq<CellStyle>, c: Components): (r: Result<seq<CellFormat>, Exception>)
    ensures r.Ok? ==> |r.value| == |styles|
  {
    if styles == [] then Ok([])
    else
      var init := CreateCellFormats(styles[..|styles| - 1], c);
      var last := CreateCellFormat(styles[|styles| - 1], c);
      if init.Err? then init
      else if last.Err? then Err(last.error)
      else Ok(init.value + [last.value])
  }

  function NumberingFormatsOf(codes: seq<string>): (r: seq<NumberingFormat>)
    ensures |r| == |codes|
    ensures forall i :: 0 <= i < |codes| ==> r[i] == NumberingFormat(BaseCustomFormatId + i, codes[i])
  {
    seq(|codes|, i requires 0 <= i < |codes| => NumberingFormat(BaseCustomFormatId + i, codes[i]))
  }

  function FontsOf(fonts: seq<Font>): (r: seq<seq<FontPart>>)
    ensures |r| == |fonts| && forall i :: 0 <= i < |fonts| ==> r[i] == CreateFont(fonts[i])
  {
    seq(|fonts|, i requires 0 <= i < |fonts| => CreateFont(fonts[i]))
  }

  function FillsOf(colors: seq<Color>): (r: seq<Fill>)
    ensures |r| == |colors| && forall i :: 0 <= i < |colors| ==> r[i] == CreateFill(colors[i])
  {
    seq(|colors|, i requires 0 <= i < |colors| => CreateFill(colors[i]))
  }

  function BordersOf(borders: seq<Border>): (r: seq<seq<BorderLine>>)
    ensures |r| == |borders| && forall i :: 0 <= i < |borders| ==> r[i] == CreateBorder(borders[i])
  {
    seq(|borders|, i requires 0 <= i < |borders| => CreateBorder(borders[i]))
  }

  /**
   * `GenerateStyleSheet` on the list of allocated styles: the defaults
   * followed by the registered components, the numbering-format count, and
   * the default cell format followed by one per style.
   */
  function StylesheetOf(styles: seq<CellStyle>): (r: Result<Stylesheet, Exception>)
  {
    var c := RegisterComponents(styles);
    var formats := CreateCellFormats(styles, c);
    if formats.Err? then Err(formats.error)
    else Ok(Stylesheet(
      DefaultNumberingFormats + NumberingFormatsOf(c.customFormats),
      |DefaultNumberingFormats| + |c.customFormats|,
      DefaultFonts + FontsOf(c.fonts),
      DefaultFills + FillsOf(c.fills),
      DefaultBorders + BordersOf(c.borders),
      DefaultCellFormats + formats.value))
  }

  // ---- What the stylesheet guarantees ----

  /**
   * A cell format describes a style in a stylesheet when each id selects
   * an element built from the style's component, each flag is set exactly
   * with a non-default component, and the number format id is the
   * catalogue id of a catalogued code or the id of a numbering format
   * holding the style's code.
   */
  ghost predicate Describes(sheet: Stylesheet, f: CellFormat, style: CellStyle)
  {
    FontDescribed(sheet, f, style) && FillDescribed(sheet, f, style) &&
    BorderDescribed(sheet, f, style) && NumberFormatDescribed(sheet, f, style)
  }

  ghost predicate FontDescribed(sheet: Stylesheet, f: CellFormat, style: CellStyle)
  {
    (f.applyFont <==> style.font.Some?) &&
    (style.font.None? ==> f.fontId == 0) &&
    (style.font.Some? ==> 1 <= f.fontId < |sheet.fonts| && sheet.fonts[f.fontId] == CreateFont(style.font.value))
  }

  ghost predicate FillDescribed(sheet: Stylesheet, f: CellFormat, style: CellStyle)
  {
    (f.applyFill <==> style.fillColor.Some?) &&
    (style.fillColor.None? ==> f.fillId == 0) &&
    (style.fillColor.Some? ==> 2 <= f.fillId < |sheet.fills| && sheet.fills[f.fillId] == CreateFill(style.fillColor.value))
  }

  ghost predicate BorderDescribed(sheet: Stylesheet, f: CellFormat, style: CellStyle)
  {
    (f.applyBorder <==> style.border != NONE) &&
    (style.border == NONE ==> f.borderId == 0) &&
    (style.border != NONE ==> 1 <= f.borderId < |sheet.borders| && sheet.borders[f.borderId] == CreateBorder(style.border))
  }

  ghost predicate NumberFormatDescribed(sheet: Stylesheet, f: CellFormat, style: CellStyle)
  {
    (f.applyNumberFormat <==> style.format.Some?) &&
    (f.numberFormatId.Some? <==> style.format.Some?) &&
    (style.format.Some? ==>
      match Formatting.LookupBuiltIn(style.format.value)
      case Some(common) => f.numberFormatId.value == common.id
      case None => (f.numberFormatId.value >= BaseCustomFormatId &&
        NumberingFormat(f.numberFormatId.value, style.format.value) in sheet.numberingFormats))
  }

  /** Every component of a style the stylesheet was built from is registered. */
  lemma ComponentsOfStyle(styles: seq<CellStyle>, i: nat)
    requires i < |styles|
    ensures var c := RegisterComponents(styles);
      (styles[i].font.Some? ==> styles[i].font.value in c.fonts) &&
      (styles[i].fillColor.Some? ==> styles[i].fillColor.value in c.fills) &&
      (styles[i].border != NONE && styles[i].border != ALL ==> styles[i].border in c.borders) &&
      (styles[i].format.Some? && Formatting.LookupBuiltIn(styles[i].format.value).None? ==>
        styles[i].format.value in c.customFormats)
  {
    var s := styles[i];
    if s.font.Some? { assert s.font.value in FontRequest(s); }
    if s.fillColor.Some? { assert s.fillColor.value in FillRequest(s); }
    if s.border != NONE && s.border != ALL { assert s.border in BorderRequest(s); }
    if s.format.Some? && Formatting.LookupBuiltIn(s.format.value).None? {
      assert s.format.value in CustomFormatRequest(s);
    }
  }

  /** Every component the style uses that is not a default is listed in `c`. */
  ghost predicate Registered(style: CellStyle, c: Components)
  {
    (style.font.Some? ==> style.font.value in c.fonts) &&
    (style.fillColor.Some? ==> style.fillColor.value in c.fills) &&
    (style.border != NONE && style.border != ALL ==> style.border in c.borders) &&
    (style.format.Some? && Formatting.LookupBuiltIn(style.format.value).None? ==> style.format.value in c.customFormats)
  }

  /** The element lists of a stylesheet built from `c`. */
  ghost predicate BuiltFrom(sheet: Stylesheet, c: Components)
  {
    sheet.numberingFormats == DefaultNumberingFormats + NumberingFormatsOf(c.customFormats) &&
    sheet.fonts == DefaultFonts + FontsOf(c.fonts) &&
    sheet.fills == DefaultFills + FillsOf(c.fills) &&
    sheet.borders == DefaultBorders + BordersOf(c.borders)
  }

  /** With its components registered, a style's cell format is created and describes it. */
  lemma CellFormatDescribes(style: CellStyle, c: Components, sheet: Stylesheet)
    requires Registered(style, c) && BuiltFrom(sheet, c)
    ensures CreateCellFormat(style, c).Ok?
    ensures Describes(sheet, CreateCellFormat(style, c).value, style)
  {
    var f := CreateCellFormat(style, c).value;
    FontIdDescribes(style, c, sheet, f);
    FillIdDescribes(style, c, sheet, f);
    BorderIdDescribes(style, c, sheet, f);
    NumberFormatIdDescribes(style, c, sheet, f);
  }

  lemma FontIdDescribes(style: CellStyle, c: Components, sheet: Stylesheet, f: CellFormat)
    requires style.font.Some? ==> style.font.value in c.fonts
    requires sheet.fonts == DefaultFonts + FontsOf(c.fonts)
    requires FontIdOf(style, c).Ok? && f.fontId == FontIdOf(style, c).value && f.applyFont == style.font.Some?
    ensures FontDescribed(sheet, f, style)
  {
  }

  lemma FillIdDescribes(style: CellStyle, c: Components, sheet: Stylesheet, f: CellFormat)
    requires style.fillColor.Some? ==> style.fillColor.value in c.fills
    requires sheet.fills == DefaultFills + FillsOf(c.fills)
    requires FillIdOf(style, c).Ok? && f.fillId == FillIdOf(style, c).value && f.applyFill == style.fillColor.Some?
    ensures FillDescribed(sheet, f, style)
  {
  }

  lemma BorderIdDescribes(style: CellStyle, c: Components, sheet: Stylesheet, f: CellFormat)
    requires style.border != NONE && style.border != ALL ==> style.border in c.borders
    requires sheet.borders == DefaultBorders + BordersOf(c.borders)
    requires BorderIdOf(style, c).Ok? && f.borderId == BorderIdOf(style, c).value && f.applyBorder == (style.border != NONE)
    ensures BorderDescribed(sheet, f, style)
  {
    if style.border == ALL {
      AllIsSecondDefault();
    }
  }

  lemma NumberFormatIdDescribes(style: CellStyle, c: Components, sheet: Stylesheet, f: CellFormat)
    requires style.format.Some? && Formatting.LookupBuiltIn(style.format.value).None? ==> style.format.value in c.customFormats
    requires sheet.numberingFormats == DefaultNumberingFormats + NumberingFormatsOf(c.customFormats)
    requires NumberFormatIdOf(style, c).Ok? && f.numberFormatId == NumberFormatIdOf(style, c).value
    requires f.applyNumberFormat == style.format.Some?
    ensures NumberFormatDescribed(sheet, f, style)
  {
    if style.format.Some? {
      var code := style.format.value;
      match Formatting.LookupBuiltIn(code)
      case Some(_) =>
      case None =>
        var custom := IdIn(c.customFormats, code, BaseCustomFormatId);
        CustomNumberingFormatListed(c.customFormats, custom.value - BaseCustomFormatId);
    }
  }

  /** Custom code k is listed after the default numbering formats with id 165 + k. */
  lemma CustomNumberingFormatListed(codes: seq<string>, k: nat)
    requires k < |codes|
    ensures NumberingFormat(BaseCustomFormatId + k, codes[k]) in DefaultNumberingFormats + NumberingFormatsOf(codes)
  {
    assert (DefaultNumberingFormats + NumberingFormatsOf(codes))[|DefaultNumberingFormats| + k]
        == NumberingFormat(BaseCustomFormatId + k, codes[k]);
  }

  /** When every style's format can be created, the list holds them all, in order. */
  lemma {:induction false} CreateCellFormatsInOrder(styles: seq<CellStyle>, c: Components)
    requires forall i :: 0 <= i < |styles| ==> CreateCellFormat(styles[i], c).Ok?
    ensures CreateCellFormats(styles, c).Ok?
    ensures forall i :: 0 <= i < |styles| ==> CreateCellFormats(styles, c).value[i] == CreateCellFormat(styles[i], c).value
  {
    if styles != [] {
      var init := styles[..|styles| - 1];
      assert forall i :: 0 <= i < |init| ==> init[i] == styles[i];
      CreateCellFormatsInOrder(init, c);
    }
  }

  /**
   * `GenerateStyleSheet` never fails on the styles it registered itself:
   * the default cell format comes first, then style i at position i + 1,
   * described by its cell format; the numbering-format count is the number
   * of numbering formats, one default plus the custom codes.
   */
  lemma StylesheetDescribesStyles(styles: seq<CellStyle>)
    ensures StylesheetOf(styles).Ok?
    ensures var sheet := StylesheetOf(styles).value;
      |sheet.cellFormats| == |styles| + 1 && sheet.cellFormats[0] == DefaultCellFormat &&
      sheet.numberingFormatsCount == |sheet.numberingFormats| &&
      forall i :: 0 <= i < |styles| ==> Describes(sheet, sheet.cellFormats[i + 1], styles[i])
  {
    var c := RegisterComponents(styles);
    forall i | 0 <= i < |styles| ensures CreateCellFormat(styles[i], c).Ok? {
      ComponentsOfStyle(styles, i);
      CellFormatCreated(styles[i], c);
    }
    CreateCellFormatsInOrder(styles, c);
    AllFormatsDescribe(styles, c, StylesheetOf(styles).value);
    EveryFormatDescribes(styles, c, StylesheetOf(styles).value);
  }

  /** With its components registered, a style's cell format can be created. */
  lemma CellFormatCreated(style: CellStyle, c: Components)
    requires Registered(style, c)
    ensures CreateCellFormat(style, c).Ok?
  {
  }

  /** In the stylesheet of the styles, cell format i + 1 describes style i. */
  lemma EveryFormatDescribes(styles: seq<CellStyle>, c: Components, sheet: Stylesheet)
    requires forall i :: 0 <= i < |styles| ==>
      CreateCellFormat(styles[i], c).Ok? && Describes(sheet, CreateCellFormat(styles[i], c).value, styles[i])
    requires CreateCellFormats(styles, c).Ok? && sheet.cellFormats == DefaultCellFormats + CreateCellFormats(styles, c).value
    ensures forall i :: 0 <= i < |styles| ==> Describes(sheet, sheet.cellFormats[i + 1], styles[i])
  {
    CreateCellFormatsInOrder(styles, c);
    forall i | 0 <= i < |styles| ensures Describes(sheet, sheet.cellFormats[i + 1], styles[i]) {
      var f := CreateCellFormat(styles[i], c).value;
      assert Describes(sheet, f, styles[i]);
      assert sheet.cellFormats[i + 1] == CreateCellFormats(styles, c).value[i] == f;
    }
  }

  /** Each style's own cell format describes it. */
  lemma AllFormatsDescribe(styles: seq<CellStyle>, c: Components, sheet: Stylesheet)
    requires c == RegisterComponents(styles) && BuiltFrom(sheet, c)
    ensures forall i :: 0 <= i < |styles| ==>
      CreateCellFormat(styles[i], c).Ok? && Describes(sheet, CreateCellFormat(styles[i], c).value, styles[i])
  {
    forall i | 0 <= i < |styles|
      ensures CreateCellFormat(styles[i], c).Ok? && Describes(sheet, CreateCellFormat(styles[i], c).value, styles[i])
    {
      FormatDescribesStyle(styles, c, sheet, i);
    }
  }

  /** The cell format of style i describes it. */
  lemma FormatDescribesStyle(styles: seq<CellStyle>, c: Components, sheet: Stylesheet, i: nat)
    requires c == RegisterComponents(styles) && BuiltFrom(sheet, c) && i < |styles|
    ensures CreateCellFormat(styles[i], c).Ok? && Describes(sheet, CreateCellFormat(styles[i], c).value, styles[i])
  {
    ComponentsOfStyle(styles, i);
    CellFormatDescribes(styles[i], c, sheet);
  }

  /** Custom ids never collide with catalogue ids: every built-in id is below 165. */
  lemma CustomIdsAboveBuiltIns(f: Formatting.CommonValueFormat)
    requires f in Formatting.GetFormats()
    ensures 0 <= f.id < BaseCustomFormatId
  {
  }

  // ---- Assembly ----

  /** The body of the registration loop: the style's custom format, font, fill and border, when it has them. */
  method RegisterStyle(style: CellStyle, customNumberFormats: SharedElementCollection<string>,
                       fontDefinitions: SharedElementCollection<Font>, fillDefinitions: SharedElementCollection<Color>,
                       borderDefinitions: SharedElementCollection<Border>)
    requires customNumberFormats.Valid() && !customNumberFormats.done
    requires fontDefinitions.Valid() && !fontDefinitions.done
    requires fillDefinitions.Valid() && !fillDefinitions.done
    requires borderDefinitions.Valid() && !borderDefinitions.done
    modifies customNumberFormats, fontDefinitions, fillDefinitions, borderDefinitions
    ensures customNumberFormats.Valid() && !customNumberFormats.done
    ensures fontDefinitions.Valid() && !fontDefinitions.done
    ensures fillDefinitions.Valid() && !fillDefinitions.done
    ensures borderDefinitions.Valid() && !borderDefinitions.done
    ensures customNumberFormats.requests == old(customNumberFormats.requests) + CustomFormatRequest(style)
    ensures fontDefinitions.requests == old(fontDefinitions.requests) + FontRequest(style)
    ensures fillDefinitions.requests == old(fillDefinitions.requests) + FillRequest(style)
    ensures borderDefinitions.requests == old(borderDefinitions.requests) + BorderRequest(style)
  {
    Register(customNumberFormats, CustomFormatRequest(style));
    Register(fontDefinitions, FontRequest(style));
    Register(fillDefinitions, FillRequest(style));
    Register(borderDefinitions, BorderRequest(style));
  }

  /** One registration of the loop body: allocate the requested value, if any. */
  method Register<T(==,!new)>(definitions: SharedElementCollection<T>, request: seq<T>)
    requires |request| <= 1
    requires definitions.Valid() && !definitions.done
    modifies definitions
    ensures definitions.Valid() && !definitions.done
    ensures definitions.requests == old(definitions.requests) + request
  {
    if request != [] {
      var _ := definitions.GetOrAllocateElement(request[0]);
      assert request == [request[0]];
    }
  }

  /** The registration loop of `GenerateStyleSheet`: four fresh collections filled in style order. */
  method RegisterComponentsOf(styles: seq<CellStyle>)
    returns (customNumberFormats: SharedElementCollection<string>, fontDefinitions: SharedElementCollection<Font>,
             fillDefinitions: SharedElementCollection<Color>, borderDefinitions: SharedElementCollection<Border>)
    ensures fresh(customNumberFormats) && fresh(fontDefinitions) && fresh(fillDefinitions) && fresh(borderDefinitions)
    ensures customNumberFormats.Valid() && !customNumberFormats.done
    ensures fontDefinitions.Valid() && !fontDefinitions.done
    ensures fillDefinitions.Valid() && !fillDefinitions.done
    ensures borderDefinitions.Valid() && !borderDefinitions.done
    ensures customNumberFormats.items == RegisterComponents(styles).customFormats
    ensures fontDefinitions.items == RegisterComponents(styles).fonts
    ensures fillDefinitions.items == RegisterComponents(styles).fills
    ensures borderDefinitions.items == RegisterComponents(styles).borders
  {
    customNumberFormats := new SharedElementCollection<string>();
    fontDefinitions := new SharedElementCollection<Font>();
    fillDefinitions := new SharedElementCollection<Color>();
    borderDefinitions := new SharedElementCollection<Border>();
    var i := 0;
    while i < |styles|
      modifies customNumberFormats, fontDefinitions, fillDefinitions, borderDefinitions
      invariant 0 <= i <= |styles|
      invariant customNumberFormats.Valid() && !customNumberFormats.done
      invariant fontDefinitions.Valid() && !fontDefinitions.done
      invariant fillDefinitions.Valid() && !fillDefinitions.done
      invariant borderDefinitions.Valid() && !borderDefinitions.done
      invariant customNumberFormats.requests == Requests(styles[..i], CustomFormatRequest)
      invariant fontDefinitions.requests == Requests(styles[..i], FontRequest)
      invariant fillDefinitions.requests == Requests(styles[..i], FillRequest)
      invariant borderDefinitions.requests == Requests(styles[..i], BorderRequest)
    {
      RequestsStep(styles, i, CustomFormatRequest);
      RequestsStep(styles, i, FontRequest);
      RequestsStep(styles, i, FillRequest);
      RequestsStep(styles, i, BorderRequest);
      RegisterStyle(styles[i], customNumberFormats, fontDefinitions, fillDefinitions, borderDefinitions);
      i := i + 1;
    }
    assert styles[..i] == styles;
  }

  /**
   * `GenerateStyleSheet`: lists the styles (InvalidOperationException once
   * drained), registers each style's custom format, font, fill and border
   * in first-use order, then drains the styles into cell formats.
   */
  method GenerateStyleSheet(sharedStylesCollection: SharedElementCollection<CellStyle>) returns (r: Result<Stylesheet, Exception>)
    requires sharedStylesCollection.Valid()
    modifies sharedStylesCollection
    ensures sharedStylesCollection.Valid() && sharedStylesCollection.done
    ensures old(sharedStylesCollection.done) ==> r == Err(InvalidOperation)
    ensures !old(sharedStylesCollection.done) ==> r == StylesheetOf(old(sharedStylesCollection.items))
    ensures !old(sharedStylesCollection.done) ==> sharedStylesCollection.items == []
  {
    var all := sharedStylesCollection.GetAll();
    if all.Err? {
      return Err(all.error);
    }
    var styles := all.value;
    var c, numberFormatsCount := CollectComponents(styles);
    var drained := sharedStylesCollection.DequeueAll();
    var formats := CreateCellFormats(drained.value, c);
    if formats.Err? {
      return Err(formats.error);
    }
    r := Ok(Stylesheet(
      DefaultNumberingFormats + NumberingFormatsOf(c.customFormats),
      numberFormatsCount,
      DefaultFonts + FontsOf(c.fonts),
      DefaultFills + FillsOf(c.fills),
      DefaultBorders + BordersOf(c.borders),
      DefaultCellFormats + formats.value));
  }

  /** The registration loop and the `GetAll` of each component collection, with the numbering-format count. */
  method CollectComponents(styles: seq<CellStyle>) returns (c: Components, numberFormatsCount: int)
    ensures c == RegisterComponents(styles)
    ensures numberFormatsCount == |DefaultNumberingFormats| + |c.customFormats|
  {
    var customNumberFormats, fontDefinitions, fillDefinitions, borderDefinitions := RegisterComponentsOf(styles);
    numberFormatsCount := |DefaultNumberingFormats| + customNumberFormats.Count();
    var customs := customNumberFormats.GetAll();
    var fonts := fontDefinitions.GetAll();
    var fills := fillDefinitions.GetAll();
    var borders := borderDefinitions.GetAll();
    c := Components(customs.value, fonts.value, fills.value, borders.value);
  }

  /** `AddSharedStyles`: no styles part without an allocated style; otherwise the generated stylesheet. */
  method AddSharedStyles(sharedStyles: SharedElementCollection<CellStyle>) returns (r: Result<Option<Stylesheet>, Exception>)
    requires sharedStyles.Valid()
    modifies sharedStyles
    ensures sharedStyles.Valid()
    ensures old(|sharedStyles.items|) == 0 ==> r == Ok(None) && sharedStyles.items == old(sharedStyles.items)
    ensures old(|sharedStyles.items|) > 0 && !old(sharedStyles.done) ==>
      r.Ok? && r.value.Some? && Ok(r.value.value) == StylesheetOf(old(sharedStyles.items))
    ensures old(|sharedStyles.items|) > 0 && old(sharedStyles.done) ==> r == Err(InvalidOperation)
  {
    if sharedStyles.Count() <= 0 {
      return Ok(None);
    }
    StylesheetDescribesStyles(sharedStyles.items);
    var sheet := GenerateStyleSheet(sharedStyles);
    if sheet.Err? {
      return Err(sheet.error);
    }
    r := Ok(Some(sheet.value));
  }
}
