/**
 * Cell styling values: colours, border flags, fonts, alignment, the style
 * tuple that the registry deduplicates, and the typed style wrappers that
 * choose the tuple's format code.
 *
 * `Font` and `FontDefinition` are the same record under two API generations
 * and share one datatype here; so do `CellStyle` (with an alignment) and
 * `CellStyleDefinition` (whose alignment is always absent).
 */
module Styling {
  import opened Wrappers
  import opened Exceptions
  import Formatting

  type Byte = x: int | 0 <= x < 256

  /**
   * `System.Drawing.Color`: equality compares the known name as well as the
   * ARGB channels, so two colours with equal channels may still differ.
   */
  datatype Color = Color(name: string, a: Byte, r: Byte, g: Byte, b: Byte)

  /** The `[Flags]` enum `Border`: LEFT = 1, RIGHT = 2, TOP = 4, BOTTOM = 8. */
  datatype Border = Border(left: bool, right: bool, top: bool, bottom: bool) {
    /** The enum's integer value. */
    function Bits(): (v: int)
      ensures 0 <= v < 16
      ensures v % 2 == 1 <==> left
      ensures v / 2 % 2 == 1 <==> right
      ensures v / 4 % 2 == 1 <==> top
      ensures v / 8 == 1 <==> bottom
    {
      (if left then 1 else 0) + (if right then 2 else 0) + (if top then 4 else 0) + (if bottom then 8 else 0)
    }
  }

  const NONE: Border := Border(false, false, false, false)
  const LEFT: Border := Border(true, false, false, false)
  const RIGHT: Border := Border(false, true, false, false)
  const TOP: Border := Border(false, false, true, false)
  const BOTTOM: Border := Border(false, false, false, true)
  const ALL: Border := Border(true, true, true, true)

  /** The `|` of two flag values. */
  function Union(x: Border, y: Border): (u: Border)
    ensures u.left == (x.left || y.left) && u.right == (x.right || y.right)
    ensures u.top == (x.top || y.top) && u.bottom == (x.bottom || y.bottom)
  {
    Border(x.left || y.left, x.right || y.right, x.top || y.top, x.bottom || y.bottom)
  }

  /** The enum value determines the flags, and NONE and ALL are 0 and 15. */
  lemma BitsDetermineBorder(x: Border, y: Border)
    ensures x.Bits() == y.Bits() <==> x == y
    ensures NONE.Bits() == 0 && ALL.Bits() == 15
    ensures LEFT.Bits() == 1 && RIGHT.Bits() == 2 && TOP.Bits() == 4 && BOTTOM.Bits() == 8
  {
  }

  /**
   * The font weight and slope enums. Their declarations are not part of this
   * model; the code only ever tests for `Bold` and `Italic`.
   */
  datatype FontWeight = Regular | Bold
  datatype FontSlope = Upright | Italic

  /**
   * `Font` / `FontDefinition`. The typeface may be null; the size is a
   * `decimal`, whose equality is numeric, and is modelled as a real.
   */
  datatype Font = Font(typeface: Option<string>, size: real, color: Color, weight: FontWeight, slope: FontSlope)

  /** The constructor: the size must lie in [0.1, 500], both bounds included. */
  function NewFont(typeface: Option<string>, size: real, color: Color, slope: FontSlope, weight: FontWeight)
    : (r: Result<Font, Exception>)
    ensures r.Err? <==> size < 0.1 || size > 500.0
    ensures r.Err? ==> r.error == ArgumentOutOfRange("size")
    ensures r.Ok? ==> r.value.typeface == typeface && r.value.size == size && r.value.color == color
    ensures r.Ok? ==> r.value.weight == weight && r.value.slope == slope
  {
    if size < 0.1 || size > 500.0 then Err(ArgumentOutOfRange("size"))
    else Ok(Font(typeface, size, color, weight, slope))
  }

  /** `Font.Equals(Font)`: false against null, otherwise all five fields agree. */
  predicate FontEquals(self: Font, other: Option<Font>)
  {
    other.Some? &&
    self.typeface == other.value.typeface && self.size == other.value.size &&
    self.color == other.value.color && self.weight == other.value.weight && self.slope == other.value.slope
  }

  /** The static `object.Equals(left, right)` behind `==`: two nulls are equal, one null is not. */
  predicate FontOperatorEquals(left: Option<Font>, right: Option<Font>)
  {
    if left.None? then right.None? else FontEquals(left.value, right)
  }

  /** `Font` equality is value equality, `==` agrees with it and `!=` is its negation. */
  lemma FontEqualityIsValueEquality(a: Font, b: Font, left: Option<Font>, right: Option<Font>)
    ensures FontEquals(a, Some(b)) <==> a == b
    ensures !FontEquals(a, None)
    ensures FontOperatorEquals(left, right) <==> left == right
    ensures !FontOperatorEquals(left, right) <==> left != right
  {
  }

  datatype HorizontalAlignment =
    | HGeneral | HLeft | HCenter | HRight | HFill | HJustify | HCenterContinuous | HDistributed
  {
    function Value(): int
    {
      match this
      case HGeneral => 0 case HLeft => 1 case HCenter => 2 case HRight => 3
      case HFill => 4 case HJustify => 5 case HCenterContinuous => 6 case HDistributed => 7
    }
  }

  datatype VerticalAlignment = VTop | VCenter | VBottom | VJustify | VDistributed
  {
    function Value(): int
    {
      match this
      case VTop => 0 case VCenter => 1 case VBottom => 2 case VJustify => 3 case VDistributed => 4
    }
  }

  datatype Alignment = Alignment(horizontal: HorizontalAlignment, vertical: VerticalAlignment, textRotation: int, wrapText: bool)

  /** The constructor: the text rotation must lie in [0, 180], both bounds included. */
  function NewAlignment(horizontal: HorizontalAlignment, vertical: VerticalAlignment, textRotation: int, wrapText: bool)
    : (r: Result<Alignment, Exception>)
    ensures r.Err? <==> textRotation < 0 || textRotation > 180
    ensures r.Err? ==> r.error == ArgumentOutOfRange("textRotation")
    ensures r.Ok? ==> r.value.horizontal == horizontal && r.value.vertical == vertical
    ensures r.Ok? ==> r.value.textRotation == textRotation && r.value.wrapText == wrapText
  {
    if textRotation < 0 || textRotation > 180 then Err(ArgumentOutOfRange("textRotation"))
    else Ok(Alignment(horizontal, vertical, textRotation, wrapText))
  }

  /** The constructor with its optional arguments omitted: rotation 0 and no wrapping always succeed. */
  function NewAlignmentWithDefaults(horizontal: HorizontalAlignment, vertical: VerticalAlignment)
    : (r: Result<Alignment, Exception>)
    ensures r.Ok? && r.value == Alignment(horizontal, vertical, 0, false)
  {
    NewAlignment(horizontal, vertical, 0, false)
  }

  /** `Alignment.Equals(Alignment)`: false against null, otherwise all four fields agree. */
  predicate AlignmentEquals(self: Alignment, other: Option<Alignment>)
  {
    other.Some? &&
    self.horizontal == other.value.horizontal && self.vertical == other.value.vertical &&
    self.textRotation == other.value.textRotation && self.wrapText == other.value.wrapText
  }

  predicate AlignmentOperatorEquals(left: Option<Alignment>, right: Option<Alignment>)
  {
    if left.None? then right.None? else AlignmentEquals(left.value, right)
  }

  lemma AlignmentEqualityIsValueEquality(a: Alignment, b: Alignment, left: Option<Alignment>, right: Option<Alignment>)
    ensures AlignmentEquals(a, Some(b)) <==> a == b
    ensures !AlignmentEquals(a, None)
    ensures AlignmentOperatorEquals(left, right) <==> left == right
    ensures !AlignmentOperatorEquals(left, right) <==> left != right
  {
  }

  /**
   * The style tuple: `CellStyle` (JumboExcel/Styling/CellStyle.cs) and
   * `CellStyleDefinition`, whose alignment is always `None`. A null format
   * means "apply no number format".
   */
  datatype CellStyle = CellStyle(
    font: Option<Font>,
    border: Border,
    fillColor: Option<Color>,
    format: Option<string>,
    alignment: Option<Alignment>)

  /** A style definition of the older generation: no alignment. */
  predicate IsDefinition(s: CellStyle) { s.alignment.None? }

  /** The `CellStyle` constructor with its optional arguments omitted. */
  function NewCellStyle(font: Option<Font>, border: Border): (s: CellStyle)
    ensures s.font == font && s.border == border
    ensures s.fillColor.None? && s.format.None? && s.alignment.None?
  {
    CellStyle(font, border, None, None, None)
  }

  /**
   * `CellStyle.Equals(CellStyle)`: format, font (null-aware), border and fill
   * agree, and either both alignments are null or they are equal.
   */
  predicate StyleEquals(self: CellStyle, other: Option<CellStyle>)
  {
    other.Some? &&
    var o := other.value;
    self.format == o.format && FontOperatorEquals(self.font, o.font) &&
    self.border == o.border && self.fillColor == o.fillColor &&
    if self.alignment.None? then o.alignment.None? else AlignmentEquals(self.alignment.value, o.alignment)
  }

  /** `CellStyleDefinition.Equals`: format, font, border and fill agree; there is no alignment. */
  predicate DefinitionEquals(self: CellStyle, other: Option<CellStyle>)
  {
    other.Some? &&
    var o := other.value;
    self.format == o.format && FontOperatorEquals(self.font, o.font) &&
    self.border == o.border && self.fillColor == o.fillColor
  }

  /**
   * Style equality is value equality of the whole tuple, so a dictionary
   * keyed by styles merges exactly the equal tuples; it is reflexive and
   * symmetric and never holds against null.
   */
  lemma StyleEqualityIsValueEquality(a: CellStyle, b: CellStyle)
    ensures StyleEquals(a, Some(b)) <==> a == b
    ensures StyleEquals(a, Some(a)) && !StyleEquals(a, None)
    ensures StyleEquals(a, Some(b)) <==> StyleEquals(b, Some(a))
  {
    FontEqualityIsValueEquality(a.font.GetOr(Font(None, 0.0, Color("", 0, 0, 0, 0), Regular, Upright)),
      b.font.GetOr(Font(None, 0.0, Color("", 0, 0, 0, 0), Regular, Upright)), a.font, b.font);
  }

  /** Between definitions, equality is value equality; tuples differing in any field are unequal. */
  lemma DefinitionEqualityIsValueEquality(a: CellStyle, b: CellStyle)
    requires IsDefinition(a) && IsDefinition(b)
    ensures DefinitionEquals(a, Some(b)) <==> a == b
    ensures DefinitionEquals(a, Some(a)) && !DefinitionEquals(a, None)
    ensures DefinitionEquals(a, Some(b)) <==> DefinitionEquals(b, Some(a))
  {
  }

  // ---- Hash codes ----

  /**
   * The hash codes of the library types the styles contain. Their values are
   * not modelled; only that each is a function of its argument.
   */
  datatype LibraryHashes = LibraryHashes(
    ofString: string -> bv32,
    ofDecimal: real -> bv32,
    ofColor: Color -> bv32,
    ofWeight: FontWeight -> bv32,
    ofSlope: FontSlope -> bv32)

  /** `hashCode * 397 ^ x` in unchecked 32-bit arithmetic. */
  function Mix(hash: bv32, x: bv32): bv32
  {
    (hash * 397) ^ x
  }

  function FontHash(f: Font, lib: LibraryHashes): bv32
  {
    var h := if f.typeface.Some? then lib.ofString(f.typeface.value) else 0;
    var h := Mix(h, lib.ofDecimal(f.size));
    var h := Mix(h, lib.ofColor(f.color));
    var h := Mix(h, lib.ofWeight(f.weight));
    Mix(h, lib.ofSlope(f.slope))
  }

  function AlignmentHash(a: Alignment): bv32
  {
    var h := a.horizontal.Value() as bv32;
    var h := Mix(h, a.vertical.Value() as bv32);
    var h := Mix(h, (a.textRotation % 0x1_0000_0000) as bv32);
    Mix(h, if a.wrapText then 1 else 0)
  }

  /** `CellStyle.GetHashCode`: mixes the alignment only when it is non-null. */
  function StyleHash(s: CellStyle, lib: LibraryHashes): bv32
  {
    var h := if s.format.Some? then lib.ofString(s.format.value) else 0;
    var h := Mix(h, if s.font.Some? then FontHash(s.font.value, lib) else 0);
    var h := Mix(h, s.border.Bits() as bv32);
    var h := Mix(h, if s.fillColor.Some? then lib.ofColor(s.fillColor.value) else 0);
    if s.alignment.Some? then Mix(h, AlignmentHash(s.alignment.value)) else h
  }

  /** `CellStyleDefinition.GetHashCode`: the same four fields, no alignment. */
  function DefinitionHash(s: CellStyle, lib: LibraryHashes): bv32
  {
    var h := if s.format.Some? then lib.ofString(s.format.value) else 0;
    var h := Mix(h, if s.font.Some? then FontHash(s.font.value, lib) else 0);
    var h := Mix(h, s.border.Bits() as bv32);
    Mix(h, if s.fillColor.Some? then lib.ofColor(s.fillColor.value) else 0)
  }

  /** Equal values hash equally, for every one of the hashed types. */
  lemma EqualValuesHashEqually(s: CellStyle, t: CellStyle, f: Font, g: Font, a: Alignment, b: Alignment, lib: LibraryHashes)
    ensures FontEquals(f, Some(g)) ==> FontHash(f, lib) == FontHash(g, lib)
    ensures AlignmentEquals(a, Some(b)) ==> AlignmentHash(a) == AlignmentHash(b)
    ensures StyleEquals(s, Some(t)) ==> StyleHash(s, lib) == StyleHash(t, lib)
    ensures DefinitionEquals(s, Some(t)) ==> DefinitionHash(s, lib) == DefinitionHash(t, lib)
    ensures IsDefinition(s) ==> StyleHash(s, lib) == DefinitionHash(s, lib)
  {
    StyleEqualityIsValueEquality(s, t);
  }

  // ---- The typed wrappers ----

  /** The code a wrapper stores: the given format's code, or the fallback when the format is null. */
  function CodeOr(format: Option<Formatting.CommonValueFormat>, fallback: Formatting.CommonValueFormat): (code: string)
    ensures format.Some? ==> code == format.value.formatCode
    ensures format.None? ==> code == fallback.formatCode
  {
    if format.Some? then format.value.formatCode else fallback.formatCode
  }

  /** The parameter type `NumberFormat`: null, or a `NumberFormat` or `IntegerFormat` instance. */
  predicate NumberFormatOrNull(format: Option<Formatting.CommonValueFormat>)
  {
    format.None? || format.value.IsNumberFormat()
  }

  /** The parameter type `DateTimeFormat`: null, or a `DateTimeFormat` instance. */
  predicate DateTimeFormatOrNull(format: Option<Formatting.CommonValueFormat>)
  {
    format.None? || format.value.IsDateTimeFormat()
  }

  /** `NumberStyle`: a null format becomes `NumberFormat.Default`, whose code is "". */
  function NumberStyle(format: Option<Formatting.CommonValueFormat>, font: Option<Font>, border: Border,
                       fillColor: Option<Color>, alignment: Option<Alignment>): (s: CellStyle)
    requires NumberFormatOrNull(format)
    ensures s.format == Some(CodeOr(format, Formatting.NumberDefault))
    ensures format.None? ==> s.format == Some("")
    ensures s.font == font && s.border == border && s.fillColor == fillColor && s.alignment == alignment
  {
    CellStyle(font, border, fillColor, Some(CodeOr(format, Formatting.NumberDefault)), alignment)
  }

  /** `DateStyle`: a null format becomes `DateTimeFormat.DateDMmm` ("d-mmm"); never an alignment. */
  function DateStyle(format: Option<Formatting.CommonValueFormat>, font: Option<Font>, border: Border,
                     fillColor: Option<Color>): (s: CellStyle)
    requires DateTimeFormatOrNull(format)
    ensures s.format == Some(CodeOr(format, Formatting.DateDMmm))
    ensures format.None? ==> s.format == Some("d-mmm")
    ensures s.font == font && s.border == border && s.fillColor == fillColor && s.alignment.None?
  {
    CellStyle(font, border, fillColor, Some(CodeOr(format, Formatting.DateDMmm)), None)
  }

  /** `StringStyle`: the format is always `CommonValueFormat.String` ("@"). */
  function StringStyle(font: Option<Font>, border: Border, fillColor: Option<Color>, alignment: Option<Alignment>)
    : (s: CellStyle)
    ensures s.format == Some("@")
    ensures s.font == font && s.border == border && s.fillColor == fillColor && s.alignment == alignment
  {
    CellStyle(font, border, fillColor, Some(Formatting.String.formatCode), alignment)
  }

  /** `BooleanStyle`: no format and no alignment. */
  function BooleanStyle(font: Option<Font>, border: Border, fillColor: Option<Color>): (s: CellStyle)
    ensures s.format.None? && s.alignment.None?
    ensures s.font == font && s.border == border && s.fillColor == fillColor
  {
    CellStyle(font, border, fillColor, None, None)
  }

  /** `NumberStyleDefinition`: like `NumberStyle`, without alignment. */
  function NumberStyleDefinition(format: Option<Formatting.CommonValueFormat>, font: Option<Font>, border: Border,
                                 fillColor: Option<Color>): (s: CellStyle)
    requires NumberFormatOrNull(format)
    ensures IsDefinition(s) && s.format == Some(CodeOr(format, Formatting.NumberDefault))
    ensures s.font == font && s.border == border && s.fillColor == fillColor
  {
    NumberStyle(format, font, border, fillColor, None)
  }

  /** `DateStyleDefinition`: like `DateStyle`. */
  function DateStyleDefinition(format: Option<Formatting.CommonValueFormat>, font: Option<Font>, border: Border,
                               fillColor: Option<Color>): (s: CellStyle)
    requires DateTimeFormatOrNull(format)
    ensures IsDefinition(s) && s.format == Some(CodeOr(format, Formatting.DateDMmm))
    ensures s.font == font && s.border == border && s.fillColor == fillColor
  {
    DateStyle(format, font, border, fillColor)
  }

  /** `StringStyleDefinition`: the format is always "@". */
  function StringStyleDefinition(font: Option<Font>, border: Border, fillColor: Option<Color>): (s: CellStyle)
    ensures IsDefinition(s) && s.format == Some("@")
    ensures s.font == font && s.border == border && s.fillColor == fillColor
  {
    StringStyle(font, border, fillColor, None)
  }

  /** `BooleanStyleDefinition`: no format. */
  function BooleanStyleDefinition(font: Option<Font>, border: Border, fillColor: Option<Color>): (s: CellStyle)
    ensures IsDefinition(s) && s.format.None?
    ensures s.font == font && s.border == border && s.fillColor == fillColor
  {
    BooleanStyle(font, border, fillColor)
  }

  /**
   * A boolean style never equals a number, date or string style, since those
   * always carry a format; and a number definition equals the string
   * definition with the same font, border and fill exactly when its format
   * code is "@".
   */
  lemma WrappersSeparateKinds(format: Option<Formatting.CommonValueFormat>, dateFormat: Option<Formatting.CommonValueFormat>,
                              font: Option<Font>, border: Border, fillColor: Option<Color>, alignment: Option<Alignment>)
    requires NumberFormatOrNull(format) && DateTimeFormatOrNull(dateFormat)
    ensures BooleanStyle(font, border, fillColor) != NumberStyle(format, font, border, fillColor, alignment)
    ensures BooleanStyle(font, border, fillColor) != DateStyle(dateFormat, font, border, fillColor)
    ensures BooleanStyle(font, border, fillColor) != StringStyle(font, border, fillColor, alignment)
    ensures NumberStyleDefinition(format, font, border, fillColor) == StringStyleDefinition(font, border, fillColor)
        <==> format.Some? && format.value.formatCode == "@"
    ensures NumberStyleDefinition(None, font, border, fillColor) != StringStyleDefinition(font, border, fillColor)
  {
  }

  /**
   * What the stored codes resolve to in the catalogue: the default number
   * style to built-in 0, the default date style to built-in 16 and every
   * string style to built-in 49; a boolean style applies no number format.
   */
  lemma WrapperCodesResolve(font: Option<Font>, border: Border, fillColor: Option<Color>, alignment: Option<Alignment>)
    ensures Formatting.LookupBuiltIn(NumberStyle(None, font, border, fillColor, alignment).format.value)
         == Some(Formatting.NumberDefault)
    ensures Formatting.LookupBuiltIn(DateStyle(None, font, border, fillColor).format.value)
         == Some(Formatting.DateDMmm)
    ensures Formatting.LookupBuiltIn(StringStyle(font, border, fillColor, alignment).format.value)
         == Some(Formatting.String)
    ensures Formatting.LookupBuiltIn(StringStyle(font, border, fillColor, alignment).format.value).value.id == 49
  {
    Formatting.LookupFindsEveryCatalogued(Formatting.NumberDefault);
    Formatting.LookupFindsEveryCatalogued(Formatting.DateDMmm);
    Formatting.LookupFindsEveryCatalogued(Formatting.String);
  }
}
