# JumboExcel bookkeeping, modelled in Dafny

JumboExcel writes Excel workbooks as a stream. A caller builds a tree:
- worksheets;
- rows and row groups;
- typed cells, each with an optional style wrapper.

`OpenXmlBuilder.Write` then walks this tree once.

- **Worksheet parts.** For each worksheet, an `OpenXmlElementVisitor` writes the part as a stream of start tags, end tags and text.
- **Shared strings.** The visitor numbers strings through a `SharedElementCollection<string>`. Each new value gets the next index, and the cell's text is that index.
- **Styles.** The visitor obtains sample `Cell` elements from a `SharedCellStyleCollection`. It deduplicates style tuples, so each distinct style gets one StyleIndex, offset by the default cell formats. It caches one sample cell per style and per cell kind.
- **Workbook parts.** After the worksheets, the builder writes the workbook's sheet list, the shared-string table and the style sheet. The style sheet holds the number formats, fonts, fills, borders and cell formats that the styles use. Each of these parts is written only when there is something to put in it.

The model covers that bookkeeping:
- the value types and their equality;
- the number-format catalogue;
- the two collections, as classes whose methods change their fields;
- the visitor, as a class whose visit methods are proved equal to state-passing specification functions;
- the style-sheet generation;
- `Write`, with the collections' one-document lifetime;
- `ExcelHelper.CellRef`, as the do/while loop it is;
- `BorderHelper`, including the ten-entry memo that `AlternateForRange` captures.

The OpenXML writer is modelled as the trace of events it receives.

Files, one module each:
- `wrappers.dfy`: `Option`, `Result`, the exceptions as values, and 32-bit wrap-around.
- `formatting.dfy`: number formats and the built-in catalogue. Ids follow section 18.8.30 of ECMA-376 Part 1.
- `styling.dfy`: colours, border flags, fonts, alignment, the style tuple, the typed style wrappers, and hash codes.
- `structure.dfy`: the document tree and the constructor checks.
- `text.dfy`: decimal and hexadecimal text.
- `shared_elements.dfy`: `SharedElementCollection`.
- `style_registry.dfy`: `SharedCellStyleCollection`.
- `xml_trace.dfy`: writer events and balanced traces.
- `visitor.dfy`: `OpenXmlElementVisitor`.
- `stylesheet.dfy`: `GenerateStyleSheet` and its element builders.
- `builder.dfy`: `Write`, `AddWorksheetReferences`, `AddSharedStrings` and the document it produces.
- `cell_address.dfy`: `ExcelHelper.CellRef`.
- `border_helper.dfy`: `BorderHelper`.

## Model

| member | source | states |
|---|---|---|
| BoundedInts.Wrap32 | JumboExcel/ExcelHelper.cs:21 | unchecked int arithmetic: the int32 congruent to x modulo 2^32, and x itself when x is in range |
| BoundedInts.ToUInt32 | JumboExcel/OpenXmlElementVisitor.cs:166 | the `(uint)` cast: identity on non-negative values, +2^32 on negative ones |
| Formatting.FromFormatString | JumboExcel/Formatting/NumberFormat.cs:27-30 | a custom (id -1) number format carrying exactly the given code |
| Formatting.NewDateTimeFormat | JumboExcel/Formatting/DateTimeFormat.cs:10-12 | the public constructor makes a custom date format with the given code |
| Formatting.CatalogueCodesDistinct | JumboExcel/Formatting/CommonValueFormat.cs:47-79 | the catalogue's format codes are pairwise distinct, so `ToDictionary(FormatCode)` cannot collide |
| Formatting.IncreasingIdsOrdered | JumboExcel/Formatting/CommonValueFormat.cs:47-79 | ids that increase between neighbours increase between any two entries |
| Formatting.CatalogueIdsDistinct | JumboExcel/Formatting/CommonValueFormat.cs:47-79 | catalogue ids are pairwise distinct and all built-in (>= 0) |
| Formatting.IntegerFormatsAreCatalogued | JumboExcel/Formatting/IntegerFormat.cs:39-48 | four distinct integer formats, each in the catalogue |
| Formatting.DecimalFormatsAreCatalogued | JumboExcel/Formatting/DecimalFormat.cs:51-62 | `GetDecimalFormats` is the first six of the eight decimal built-ins, all catalogued, ids distinct |
| Formatting.DateTimeFormatsAreCatalogued | JumboExcel/Formatting/DateTimeFormat.cs:78-95 | twelve date formats with ids 14..22 and 45..47, all catalogued |
| Formatting.EqualityIsById | JumboExcel/Formatting/CommonValueFormat.cs:81-99 | `Equals` is id equality (never equal to null), equal formats hash equally, any two custom formats are equal |
| Formatting.CustomNumberFormatsAllEqual | JumboExcel/Formatting/CommonValueFormat.cs:81-94 | two `FromFormatString` results are equal under both `Equals` overloads whatever their codes |
| Formatting.FindByCode | JumboExcel/OpenXmlBuilder.cs:157 | a found format is a member with that code; None exactly when no member has it |
| Formatting.FindByCodeOfMember | JumboExcel/OpenXmlBuilder.cs:157 | among distinct codes, looking up a member's code returns that member |
| Formatting.LookupBuiltIn | JumboExcel/OpenXmlBuilder.cs:157 | resolution against the catalogue: a hit is a built-in with that code; a miss means no entry has it |
| Formatting.LookupFindsEveryCatalogued | JumboExcel/OpenXmlBuilder.cs:157 | every catalogued format is found by its own code |
| Formatting.ResolutionIsByCode | JumboExcel/OpenXmlBuilder.cs:164-168 | code "" resolves to built-in 0, "@" to built-in 49, and a custom date format with code "m/d/yy H:mm" to built-in 22 |
| Styling.Border.Bits | JumboExcel/Styling/Border.cs:8-17 | the flag enum's integer value, bit by bit LEFT=1, RIGHT=2, TOP=4, BOTTOM=8 |
| Styling.Union | JumboExcel/Productivity/BorderHelper.cs:17 | `\|` of two flag values sets each side set in either |
| Styling.BitsDetermineBorder | JumboExcel/Styling/Border.cs:8-17 | two borders are equal iff their values are; NONE=0, ALL=15 and the four single sides |
| Styling.NewFont | JumboExcel/Styling/Font.cs:44-53 | fails with ArgumentOutOfRange("size") exactly outside [0.1, 500]; otherwise stores the five fields |
| Styling.FontEqualityIsValueEquality | JumboExcel/Styling/Font.cs:55-90 | `Equals` is field-wise equality, false against null; `==`/`!=` agree with value equality |
| Styling.NewAlignment | JumboExcel/Styling/Alignment.cs:38-46 | fails with ArgumentOutOfRange("textRotation") exactly outside [0, 180]; otherwise stores the fields |
| Styling.NewAlignmentWithDefaults | JumboExcel/Styling/Alignment.cs:38 | omitted arguments give rotation 0, no wrap, and always succeed |
| Styling.AlignmentEqualityIsValueEquality | JumboExcel/Styling/Alignment.cs:55-89 | `Equals` is field-wise equality, false against null; `==`/`!=` agree |
| Styling.NewCellStyle | JumboExcel/Styling/CellStyle.cs:44-51 | optional arguments omitted: no fill, no format, no alignment |
| Styling.StyleEqualityIsValueEquality | JumboExcel/Styling/CellStyle.cs:53-65 | style equality (with null-aware alignment) is value equality: reflexive, symmetric, false against null |
| Styling.DefinitionEqualityIsValueEquality | JumboExcel/Styling/CellStyleDefinition.cs:46-51 | the same for alignment-free definitions |
| Styling.EqualValuesHashEqually | JumboExcel/Styling/CellStyle.cs:75-87 | equal fonts, alignments, styles and definitions hash equally; a definition hashes like the style it is |
| Styling.CodeOr | JumboExcel/Styling/NumberStyle.cs:21 | `(format ?? fallback).FormatCode` |
| Styling.NumberStyle | JumboExcel/Styling/NumberStyle.cs:19-22 | takes a `NumberFormat` (or `IntegerFormat`) or null; a null format stores code ""; other fields as given |
| Styling.DateStyle | JumboExcel/Styling/DateStyle.cs:19-22 | takes a `DateTimeFormat` or null; a null format stores "d-mmm"; never an alignment |
| Styling.StringStyle | JumboExcel/Styling/StringStyle.cs:19-22 | the code is always "@" |
| Styling.BooleanStyle | JumboExcel/Styling/BooleanStyle.cs:18-21 | no format and no alignment |
| Styling.NumberStyleDefinition | JumboExcel/Styling/NumberStyleDefinition.cs:19-22 | alignment-free; a null format stores "" |
| Styling.DateStyleDefinition | JumboExcel/Styling/DateStyleDefinition.cs:19-22 | alignment-free; a null format stores "d-mmm" |
| Styling.StringStyleDefinition | JumboExcel/Styling/StringStyleDefinition.cs:19-22 | alignment-free; code "@" |
| Styling.BooleanStyleDefinition | JumboExcel/Styling/BooleanStyleDefinition.cs:18-21 | alignment-free; no format |
| Styling.WrappersSeparateKinds | JumboExcel/Styling/NumberStyle.cs:19-22 | a boolean style never equals a number, date or string style; a number definition equals the string definition exactly when its format code is "@" |
| Styling.WrapperCodesResolve | JumboExcel/Styling/StringStyle.cs:21 | default number, date and string codes resolve to built-ins 0, 16 and 49 |
| Structure.Utf16Length | JumboExcel/Structure/Worksheet.cs:74 | `string.Length` in UTF-16 code units: between the character count and twice it |
| Structure.BasicPlaneLength | JumboExcel/Structure/Worksheet.cs:74 | a name of Basic Multilingual Plane characters has as many code units as characters |
| Structure.SupplementaryLength | JumboExcel/Structure/Worksheet.cs:74 | a name of characters beyond that plane has two code units per character |
| Structure.CheckName | JumboExcel/Structure/Worksheet.cs:72-76 | blank or null names raise ArgumentNull, names over 31 UTF-16 code units ArgumentOutOfRange, others are kept |
| Structure.DefaultParameters | JumboExcel/Structure/Worksheet.cs:29-33 | both summary-position flags false, no columns |
| Structure.NewParameters | JumboExcel/Structure/Worksheet.cs:39-57 | stores its arguments unchanged |
| Structure.NewColumnConfiguration | JumboExcel/Structure/ColumnConfiguration.cs:37-55 | checks min, max, width and outline level in that order; each error names the first failing parameter |
| Structure.NewColumnConfigurationDefault | JumboExcel/Structure/ColumnConfiguration.cs:37 | an omitted outline level is 0 and never fails |
| Structure.NewColumnElement | JumboExcel/Structure/ColumnElement.cs:31-45 | the same three checks in the same order, outline level 0 |
| Structure.NewWorksheet | JumboExcel/Structure/Worksheet.cs:70-79 | fails exactly when the name check fails, with its error; else stores the arguments, whose name is at most 31 UTF-16 code units |
| Structure.NewWorksheetUnchecked | JumboExcel/Structure/Worksheet.cs:81-86 | the `params` overload stores any name, null included |
| Structure.NewProgressingWorksheet | JumboExcel/Structure/ProgressingWorksheet.cs:49-60 | a null generator fails first; then the name checks, length in UTF-16 code units |
| Structure.NameBoundaries | JumboExcel/Structure/Worksheet.cs:62-75 | 31 ASCII characters pass, 32 fail; 15 emoji (30 code units) pass, 16 (32) fail; empty, blank and null names fail as null |
| Structure.NewPaneFreezer | JumboExcel/Structure/PaneFreezer.cs:16-26 | rejects a negative row index first, then a negative column index |
| Structure.CellRefEqualityIsValueEquality | JumboExcel/Structure/CellRef.cs:36-66 | equality is coordinate equality; `==` agrees; equal refs hash equally |
| Structure.NewAbsoluteCellMerger | JumboExcel/Structure/AbsoluteCellMerger.cs:19-26 | rejects only a null inner element |
| Structure.AbsoluteAnchorIsFixed | JumboExcel/Structure/AbsoluteCellMerger.cs:38-46 | the anchor is the stored cell wherever the current cell is |
| Structure.NewRelativeCellMerger | JumboExcel/Structure/RelativeCellMerger.cs:17-28 | rejects a negative row offset first, then a negative column offset |
| Structure.RelativeAnchorIsAboveLeft | JumboExcel/Structure/RelativeCellMerger.cs:40-48 | the anchor is the position less the offsets: never below or right of it, and negative exactly when an offset exceeds the position |
| Text.NatText | JumboExcel/OpenXmlElementVisitor.cs:260 | decimal digits without leading zeros |
| Text.IntText | JumboExcel/OpenXmlElementVisitor.cs:216 | `ToString()` of an integer: digits iff non-negative, else the negative sign (taken to be "-") and the magnitude's digits |
| Text.ParseNatText | JumboExcel/OpenXmlElementVisitor.cs:260 | reading the digits back gives the number |
| Text.NatTextInjective | JumboExcel/OpenXmlElementVisitor.cs:260 | distinct indices have distinct texts |
| Text.HexText | JumboExcel/OpenXmlBuilder.cs:147 | `ToString("X")`: at least one upper-case hex digit |
| Text.HexPadded | JumboExcel.UnitTests/ColorTranslation.cs:8-19 | exactly `width` hex digits, the six-digit form the colour test expects; it supports the corrected `ToHexColor` |
| Text.ParseHexText | JumboExcel/OpenXmlBuilder.cs:147 | the unpadded hex text keeps the value |
| Text.ParseHexPadded | JumboExcel.UnitTests/ColorTranslation.cs:8-19 | the padded hex text keeps every value that fits, so the corrected `ToHexColor` reads back to the colour |
| SharedElements.Dedup | JumboExcel/SharedStringCollection.cs:45-53 | the distinct requested values, same membership, no repetition |
| SharedElements.DedupAppend | JumboExcel/SharedStringCollection.cs:48-51 | one more request appends its value exactly when it is new |
| SharedElements.DedupIsFirstOccurrenceOrder | JumboExcel/SharedStringCollection.cs:49-50 | values are queued in the order of their first request |
| SharedElements.DedupCountsDistinctValues | JumboExcel/SharedStringCollection.cs:21-24 | the queue holds one entry per distinct value requested |
| SharedElements.IndexOfDistinct | JumboExcel/SharedStringCollection.cs:32-35 | in a repetition-free queue, a value's index is the one position holding it |
| SharedElements.IndexOfPrefix | JumboExcel/SharedStringCollection.cs:49-51 | later allocations never move an allocated value |
| SharedElements.SharedElementCollection.constructor | JumboExcel/SharedStringCollection.cs:14-16 | empty queue and dictionary, not drained |
| SharedElements.SharedElementCollection.Count | JumboExcel/SharedStringCollection.cs:21-24 | the queue's length; before a drain, the number of distinct requests |
| SharedElements.SharedElementCollection.GetOrAllocateElement | JumboExcel/SharedStringCollection.cs:45-53 | a known value returns its index unchanged; a new one gets the next index and is queued |
| SharedElements.SharedElementCollection.GetElementIndex | JumboExcel/SharedStringCollection.cs:32-35 | the value's index, KeyNotFound when it is not held |
| SharedElements.SharedElementCollection.GetAll | JumboExcel/SharedStringCollection.cs:59-65 | InvalidOperation once drained; else the distinct values in index order |
| SharedElements.SharedElementCollection.DequeueAll | JumboExcel/SharedStringCollection.cs:72-86 | InvalidOperation on a second drain; else all values in index order, leaving the collection empty and drained |
| StyleRegistry.CellStyleOption.With | JumboExcel/SharedCellStyleCollection.cs:26-38 | sets one cached cell, keeping the index and the other three |
| StyleRegistry.NewOption | JumboExcel/SharedCellStyleCollection.cs:13-16 | the given index, no cached cell |
| StyleRegistry.CreateCell | JumboExcel/SharedCellStyleCollection.cs:90-97 | StyleIndex is the option's index; DataType is always set |
| StyleRegistry.AllocateOptionSpec | JumboExcel/SharedCellStyleCollection.cs:99-107 | the style is queued iff new; the option returned is in the list |
| StyleRegistry.AllocateCellSpec | JumboExcel/SharedCellStyleCollection.cs:54-88 | the four `Allocate*Cell` methods: the style is queued iff new |
| StyleRegistry.AllocationIndexIsStylePosition | JumboExcel/SharedCellStyleCollection.cs:99-107 | the cell's StyleIndex is the style's queue position plus the correlation, and the registry stays in sync |
| StyleRegistry.CachedCellIsReturned | JumboExcel/SharedCellStyleCollection.cs:54-61 | a cached cell is returned and nothing changes |
| StyleRegistry.FirstRequestSetsDataType | JumboExcel/SharedCellStyleCollection.cs:90-97 | the first request of a kind creates a cell with the requested DataType |
| StyleRegistry.KindsShareIndexSpace | JumboExcel/SharedCellStyleCollection.cs:54-88 | every kind of sample cell for one style carries the same StyleIndex |
| StyleRegistry.CacheIsStable | JumboExcel/SharedCellStyleCollection.cs:54-88 | a cached cell is never replaced by later allocations |
| StyleRegistry.SharedCellStyleCollection.constructor | JumboExcel/SharedCellStyleCollection.cs:48-52 | keeps the collection and the correlation; over an empty collection it starts in sync |
| StyleRegistry.SharedCellStyleCollection.AllocateCellOption | JumboExcel/SharedCellStyleCollection.cs:99-107 | result and new state equal `AllocateOptionSpec` |
| StyleRegistry.SharedCellStyleCollection.AllocateCell | JumboExcel/SharedCellStyleCollection.cs:54-88 | result and new state equal `AllocateCellSpec` |
| XmlTrace.BalancedConcat | JumboExcel/WriterScope.cs:21-30 | two balanced traces in a row are balanced |
| XmlTrace.BalancedWrap | JumboExcel/WriterScope.cs:21-30 | a scope around a balanced body is balanced |
| XmlTrace.FlatIsBalanced | JumboExcel/WriterScope.cs:21-30 | text and whole elements alone are balanced |
| ElementVisitor.StringIndexSpec | JumboExcel/OpenXmlElementVisitor.cs:260 | the string's index in the table, appended iff new |
| ElementVisitor.ColumnsOf | JumboExcel/OpenXmlElementVisitor.cs:163-167 | one column per configuration, in order |
| ElementVisitor.CellsBalanced | JumboExcel/OpenXmlElementVisitor.cs:176-180 | a row's cells write a balanced trace, failure included |
| ElementVisitor.RowsBalanced | JumboExcel/OpenXmlElementVisitor.cs:147-151 | rows and groups write a balanced trace |
| ElementVisitor.WorksheetBalanced | JumboExcel/OpenXmlElementVisitor.cs:134-154 | every worksheet part is balanced, even when a visit throws (the scopes still close) |
| ElementVisitor.RowsOutlineWithin | JumboExcel/OpenXmlElementVisitor.cs:184-200 | every row written at level L carries an outline level between L and 255 |
| ElementVisitor.OverflowAtDepth256 | JumboExcel/OpenXmlElementVisitor.cs:186-187 | entering a group at level 255 fails with the overflow and writes nothing |
| ElementVisitor.GroupSpec | JumboExcel/OpenXmlElementVisitor.cs:189-199 | below 255, a group writes its children one level deeper |
| ElementVisitor.CellsNeverOverflow | JumboExcel/OpenXmlElementVisitor.cs:202-273 | writing cells never fails with the outline overflow; the only cell failure is the styled boolean |
| ElementVisitor.NoOverflowWithinDepth | JumboExcel/OpenXmlElementVisitor.cs:184-200 | rows whose groups nest no deeper than 255 levels from the current level never fail with the outline overflow |
| ElementVisitor.LevelNoOverflow | JumboExcel/OpenXmlElementVisitor.cs:184-200 | the same for one row or group |
| ElementVisitor.DeepGroupsFail | JumboExcel/OpenXmlElementVisitor.cs:184-200 | rows whose groups nest deeper than that always fail, with the overflow or an earlier failure |
| ElementVisitor.DeepLevelFails | JumboExcel/OpenXmlElementVisitor.cs:184-200 | the same for one group |
| ElementVisitor.ColumnBoundsAreOneBased | JumboExcel/OpenXmlElementVisitor.cs:166 | column bounds are shifted by one, stay ordered, and the width is custom |
| ElementVisitor.AllocationKeepsKindTyped | JumboExcel/SharedCellStyleCollection.cs:54-88 | every cached cell keeps the DataType of its kind |
| ElementVisitor.CellSound | JumboExcel/OpenXmlElementVisitor.cs:202-273 | a cell keeps the state sound and only grows it; it fails exactly when it is a styled boolean |
| ElementVisitor.CellTemplateIsStyleAndType | JumboExcel/OpenXmlElementVisitor.cs:209-262 | each cell opens with a sample whose StyleIndex maps to the cell's effective style and whose DataType is its kind's |
| ElementVisitor.SharedStringTextIsIndex | JumboExcel/OpenXmlElementVisitor.cs:253-262 | a shared-string cell's text is the decimal index of its value in the table |
| ElementVisitor.IndicesSurviveGrowth | JumboExcel/SharedStringCollection.cs:45-53 | a style index or string index handed out earlier still denotes the same value later |
| ElementVisitor.RowsSound | JumboExcel/OpenXmlElementVisitor.cs:147-151 | visiting rows keeps the registry in sync and the strings distinct, only appending |
| ElementVisitor.DefaultDateTemplateIsReused | JumboExcel/OpenXmlElementVisitor.cs:102-108 | two unstyled date cells share one lazily allocated sample |
| ElementVisitor.OpenXmlElementVisitor.constructor | JumboExcel/OpenXmlElementVisitor.cs:127-132 | level 0, one sample row, no lazy sample cell yet |
| ElementVisitor.OpenXmlElementVisitor.Allocate | JumboExcel/SharedCellStyleCollection.cs:54-88 | equals `AllocSpec` and leaves the result cached |
| ElementVisitor.OpenXmlElementVisitor.SharedSampleDateTimeCell | JumboExcel/OpenXmlElementVisitor.cs:102-108 | equals allocating the date sample of the default date style; the cache returns the same cell on later calls |
| ElementVisitor.OpenXmlElementVisitor.SharedSampleSharedStringCell | JumboExcel/OpenXmlElementVisitor.cs:91-97 | equals allocating the shared-string sample of the default string style |
| ElementVisitor.OpenXmlElementVisitor.SharedSampleInlineStringCell | JumboExcel/OpenXmlElementVisitor.cs:113-119 | equals allocating the inline-string sample of the default string style |
| ElementVisitor.OpenXmlElementVisitor.AllocateString | JumboExcel/OpenXmlElementVisitor.cs:260 | equals `StringIndexSpec`; styles untouched |
| ElementVisitor.OpenXmlElementVisitor.VisitCell | JumboExcel/OpenXmlElementVisitor.cs:202-273 | trace, failure and new state equal `CellSpec` |
| ElementVisitor.OpenXmlElementVisitor.VisitNumberCell | JumboExcel/OpenXmlElementVisitor.cs:209-229 | equals `CellSpec` for integer and decimal cells |
| ElementVisitor.OpenXmlElementVisitor.VisitDateTimeCell | JumboExcel/OpenXmlElementVisitor.cs:231-240 | equals `CellSpec` for date cells |
| ElementVisitor.OpenXmlElementVisitor.VisitInlineStringCell | JumboExcel/OpenXmlElementVisitor.cs:242-251 | equals `CellSpec` for inline strings: three nested scopes, with a text event only when the value is not null |
| ElementVisitor.OpenXmlElementVisitor.VisitSharedStringCell | JumboExcel/OpenXmlElementVisitor.cs:253-262 | equals `CellSpec` for shared strings |
| ElementVisitor.OpenXmlElementVisitor.VisitBooleanCell | JumboExcel/OpenXmlElementVisitor.cs:264-273 | equals `CellSpec`; a styled boolean fails before writing |
| ElementVisitor.OpenXmlElementVisitor.VisitRow | JumboExcel/OpenXmlElementVisitor.cs:170-182 | equals `RowLevelSpec` of the row at the current level |
| ElementVisitor.OpenXmlElementVisitor.VisitRowLevel | JumboExcel/Structure/RowElement.cs:43-46 | dispatches to the row or group visit; equals `RowLevelSpec` |
| ElementVisitor.OpenXmlElementVisitor.VisitRowGroup | JumboExcel/OpenXmlElementVisitor.cs:184-200 | overflow at 255, otherwise the children one level deeper; the level is restored on success |
| ElementVisitor.OpenXmlElementVisitor.VisitChildren | JumboExcel/OpenXmlElementVisitor.cs:190-198 | equals `RowsSpec`, each child after its sample row exists |
| ElementVisitor.OpenXmlElementVisitor.AddSampleRow | JumboExcel/OpenXmlElementVisitor.cs:192-196 | appends the sample row of the current level when missing |
| ElementVisitor.OpenXmlElementVisitor.WriteWorksheetParameters | JumboExcel/OpenXmlElementVisitor.cs:156-168 | equals `ParametersEvents`: the outline properties, then the columns when given |
| ElementVisitor.OpenXmlElementVisitor.VisitWorksheet | JumboExcel/OpenXmlElementVisitor.cs:134-154 | trace, failure and new state equal `WorksheetSpec` |
| Stylesheets.Rgb | JumboExcel/OpenXmlBuilder.cs:147 | the colour without alpha is below 16^6 |
| Stylesheets.ToHex | JumboExcel/OpenXmlBuilder.cs:145-148 | one to six hex digits whose value is the RGB colour |
| Stylesheets.ToHexColor | JumboExcel/OpenXmlBuilder.cs:145-148 | the corrected form of the Findings row: six hex digits whose value is the RGB colour |
| Stylesheets.ToHexDropsLeadingZeros | JumboExcel/OpenXmlBuilder.cs:147 | blue 1 gives "1" as written, "000001" corrected |
| Stylesheets.ToHexColorAgreesWhenWide | JumboExcel/OpenXmlBuilder.cs:147 | the two agree exactly when the colour is at least 0x100000 |
| Stylesheets.CreateFontParts | JumboExcel/OpenXmlBuilder.cs:283-296 | Bold iff bold, Italic iff italic, the name iff given, then the size and the colour as unpadded hex that reads back to its RGB value |
| Stylesheets.CreateBorderSides | JumboExcel/OpenXmlBuilder.cs:264-277 | the element draws exactly the flagged sides, thin, in order left, right, top, bottom, then the diagonal |
| Stylesheets.AllIsSecondDefault | JumboExcel/OpenXmlBuilder.cs:28-37 | default border 0 draws nothing; border 1 draws ALL, as `CreateBorder(ALL)` would |
| Stylesheets.CreateFill | JumboExcel/OpenXmlBuilder.cs:185-187 | a solid fill whose foreground is one to six hex digits that read back to the colour's RGB value |
| Stylesheets.WrittenColoursAreSixDigitsOnlyWhenWide | JumboExcel/OpenXmlBuilder.cs:186 | the colour written into a fill or font is the six-digit form exactly when the colour is at least 0x100000 |
| Stylesheets.Requests | JumboExcel/OpenXmlBuilder.cs:162-176 | a value is requested iff some style requests it |
| Stylesheets.RegisterComponents | JumboExcel/OpenXmlBuilder.cs:158-176 | the four component lists have no repetitions |
| Stylesheets.IdIn | JumboExcel/OpenXmlBuilder.cs:216-253 | `GetElementIndex` plus the defaults: the value's position, KeyNotFound when absent |
| Stylesheets.CreateCellFormats | JumboExcel/OpenXmlBuilder.cs:192-195 | one cell format per style |
| Stylesheets.NumberingFormatsOf | JumboExcel/OpenXmlBuilder.cs:180 | custom code i gets id 165 + i |
| Stylesheets.FontsOf | JumboExcel/OpenXmlBuilder.cs:182-183 | one font element per font, in order |
| Stylesheets.FillsOf | JumboExcel/OpenXmlBuilder.cs:184-188 | one fill per colour, in order |
| Stylesheets.BordersOf | JumboExcel/OpenXmlBuilder.cs:189-191 | one border element per border, in order |
| Stylesheets.ComponentsOfStyle | JumboExcel/OpenXmlBuilder.cs:164-175 | every non-default font, fill, border and custom code of a style is registered |
| Stylesheets.CellFormatDescribes | JumboExcel/OpenXmlBuilder.cs:209-258 | with its components registered, a style's cell format is created and points at elements describing it |
| Stylesheets.StylesheetDescribesStyles | JumboExcel/OpenXmlBuilder.cs:155-197 | the style sheet is always built; format i+1 describes style i; format 0 is the default; the count matches |
| Stylesheets.CustomIdsAboveBuiltIns | JumboExcel/OpenXmlBuilder.cs:23 | every built-in id is below 165, so custom ids never collide with them |
| Stylesheets.RegisterStyle | JumboExcel/OpenXmlBuilder.cs:164-175 | each collection's requests grow by exactly what the style asks for |
| Stylesheets.RegisterComponentsOf | JumboExcel/OpenXmlBuilder.cs:158-176 | the four fresh collections hold `RegisterComponents(styles)` |
| Stylesheets.GenerateStyleSheet | JumboExcel/OpenXmlBuilder.cs:155-197 | InvalidOperation when already drained; otherwise the `StylesheetOf` of the styles, leaving the collection drained |
| Stylesheets.AddSharedStyles | JumboExcel/OpenXmlBuilder.cs:94-99 | no style sheet without styles; otherwise the style sheet of the queued styles |
| OpenXmlBuilder.AddWorksheetReferences | JumboExcel/OpenXmlBuilder.cs:123-138 | no sheet list without worksheets; sheet k has worksheet k's name, SheetId k + 1 and part k |
| OpenXmlBuilder.SheetIdsDistinct | JumboExcel/OpenXmlBuilder.cs:133 | SheetIds are positive and distinct, parts distinct |
| OpenXmlBuilder.SheetsSound | JumboExcel/OpenXmlBuilder.cs:73-82 | from the empty state, the worksheets keep the state sound; without failure, one balanced part per worksheet |
| OpenXmlBuilder.AddSharedStrings | JumboExcel/OpenXmlBuilder.cs:106-116 | no table without strings; otherwise all queued strings in index order, leaving the collection drained |
| OpenXmlBuilder.WriteWorksheet | JumboExcel/OpenXmlBuilder.cs:77-81 | a fresh visitor over the shared collections writes `WorksheetSpec` from level 0 |
| OpenXmlBuilder.WriteWorksheets | JumboExcel/OpenXmlBuilder.cs:73-82 | the loop equals `SheetsSpec`, names recorded in order |
| OpenXmlBuilder.Write | JumboExcel/OpenXmlBuilder.cs:64-87 | the document equals `WriteSpec`: it depends on the worksheets alone (fresh collections per call) |
| OpenXmlBuilder.WriteReferencesSheets | JumboExcel/OpenXmlBuilder.cs:73-83 | a written document has one part and one sheet per worksheet, in order, with SheetId k + 1 |
| OpenXmlBuilder.WriteSharedStrings | JumboExcel/OpenXmlBuilder.cs:84 | the table is written iff a string was shared; it is the visit's string list, and each string's index is its position in it |
| OpenXmlBuilder.WriteStylesDescribeCells | JumboExcel/OpenXmlBuilder.cs:85 | the style sheet is written iff a style was allocated; every sample cell's StyleIndex selects a format describing its style |
| CellAddress.DivRem | JumboExcel/ExcelHelper.cs:24 | `Math.DivRem`: truncating quotient, remainder with the dividend's sign |
| CellAddress.Letters | JumboExcel/ExcelHelper.cs:21-26 | the bijective base-26 numeral: non-empty, letters A..Z only |
| CellAddress.LetterValueOfLetters | JumboExcel/ExcelHelper.cs:21-26 | reading the letters back gives the column number |
| CellAddress.LettersInjective | JumboExcel/ExcelHelper.cs:21-26 | distinct columns get distinct letters |
| CellAddress.WrapIncrementDecrement | JumboExcel/ExcelHelper.cs:20-24 | unchecked `column + 1` then `- 1` gives the column back |
| CellAddress.CellRef | JumboExcel/ExcelHelper.cs:17-29 | the column's text then `row + 1` (unchecked); for in-range input, the letters of column + 1 then the digits of row + 1 |
| CellAddress.ColumnLetters | JumboExcel/ExcelHelper.cs:20-26 | the do/while loop yields the column's text |
| CellAddress.PrependDigit | JumboExcel/ExcelHelper.cs:24-25 | one pass: the remaining value drops and the pending letters plus the buffer are unchanged |
| CellAddress.FirstDigit | JumboExcel/ExcelHelper.cs:21-26 | the first pass gives the last letter, or the one character of a negative column |
| CellAddress.NextDigit | JumboExcel/ExcelHelper.cs:24 | a later pass cannot wrap and gives one more letter in front |
| CellAddress.AddressesDistinct | JumboExcel/ExcelHelper.cs:17-29 | distinct in-range cells have distinct addresses |
| CellAddress.LettersEndWhereDigitsStart | JumboExcel/ExcelHelper.cs:25-27 | in letters followed by digits the split is unique |
| CellAddress.AddressExamples | JumboExcel/ExcelHelper.cs:17-29 | A1, Z1, AA1, A100, ZZ1, AAA1 |
| BorderHelpers.Option | JumboExcel/Productivity/BorderHelper.cs:8-11 | the border when on, NONE otherwise |
| BorderHelpers.BorderForRange | JumboExcel/Productivity/BorderHelper.cs:13-18 | NONE outside; inside LEFT iff first column, RIGHT iff last, TOP iff first row, BOTTOM iff last |
| BorderHelpers.SideCount | JumboExcel/Productivity/BorderHelper.cs:17 | 0 iff NONE, 4 iff ALL |
| BorderHelpers.SingleCellIsAll | JumboExcel/Productivity/BorderHelper.cs:13-18 | a one-cell range is outlined on all four sides |
| BorderHelpers.CornersHaveTwoSides | JumboExcel/Productivity/BorderHelper.cs:13-18 | in a range at least 2x2 each corner has exactly its two outer sides |
| BorderHelpers.CaseIndex | JumboExcel/Productivity/BorderHelper.cs:32 | 9 iff outside; inside, the row class times 3 plus the column class |
| BorderHelpers.BorderOfClass | JumboExcel/Productivity/BorderHelper.cs:13-18 | the border of a position depends only on its class |
| BorderHelpers.BorderForRangeIsClassConstant | JumboExcel/Productivity/BorderHelper.cs:26-35 | memoising `BorderForRange` per class loses nothing |
| BorderHelpers.TenCaseMemo.constructor | JumboExcel/Productivity/BorderHelper.cs:26-30 | ten empty entries, nothing evaluated |
| BorderHelpers.TenCaseMemo.Apply | JumboExcel/Productivity/BorderHelper.cs:30-34 | a filled class returns its entry; else computes, stores and returns; for class-constant functions it always equals the direct call |

## Left out

- The OpenXML SDK, packages and streams. The writer is a returned list of start, end and text events. The package is the `Document` value: parts, sheet list, shared strings and style sheet.
- `DateTime.ToOADate` and `decimal.ToString` are library floating-point and culture code. They are opaque `Formatters` parameters.
- `System.Drawing.Color` internals beyond the ARGB channels and the known name.
- The library hash codes (string, decimal, Color) are abstract functions. Only the equal-values-hash-equally property is stated.
- `OpenXmlElementVisitor.VisitBooleanCell`: `SharedCellStyleCollection` has no `AllocateBooleanCell`, which the styled branch of `Visit(BooleanCellElement)` calls. A styled boolean cell is modelled as the failure `MissingBooleanAllocator`; unstyled booleans are written normally.
- `Text.IntText`: `Int64.ToString()` (OpenXmlElementVisitor.cs:216) and `StringBuilder.Append(int)` (ExcelHelper.cs:27) use the current culture's negative sign; the model takes it to be "-", so under a culture whose sign is U+2212 the source writes "−5" where the model writes "-5". This affects negative integer cells and the wrapped row number of `CellAddress.CellRef`.
- `Formatting.GetFormats`: the catalogue names `DecimalFormat.AccountingAmount` and `DecimalFormat.AccountingAmountColored`, which `DecimalFormat` does not define. The model's catalogue holds the 26 entries that exist.
- `OpenXmlElementVisitor.VisitWorksheet` computes the parameter events after the rows and places them before the rows. The trace is the same as writing them first.
- Merges and their reconciliation, duplicate sheet names, the "row group must follow a row" rule, frozen panes in the written part, the relaxed-compatibility flag and `WriteWithProgress` are outside this model.
- `OpenXmlBuilder.AddWorksheetReferences`: the `(uint)index + 1` cast is not modelled, because more than 2^31 worksheets is impossible in practice. The relationship id of a part is its position.
- `BorderHelpers.TenCaseMemo.Apply`: the count of range-function calls is a ghost field (`evaluations`). The closure's captured array is a class field.
- `SharedElements.SharedElementCollection.DequeueAll`: the C# method is a lazy `yield` iterator; its `done` check, `done = true` and dequeues run only as it is enumerated, and a partial enumeration leaves values queued. The model drains the whole queue at the call, which is how `AddSharedStrings` and `GenerateStyleSheet` consume it (they enumerate it to the end); laziness and partial enumeration are not modelled.
- `ElementVisitor.ColumnsOf` and `Stylesheets.CreateFont`: the `(double)` conversions of the decimal column width (OpenXmlElementVisitor.cs:166) and font size (OpenXmlBuilder.cs:292) are not modelled; the exact decimal value is kept, without the rounding to the nearest double.
- Fonts and fills keep the as-written unpadded colour (see Findings); `Stylesheets.ToHexColor` is the corrected form and is proved, but the builders do not use it.
- The demo and ad-hoc test projects are not modelled.

## Findings

| source | as written | input that shows it | evidently intended | confidence | as-written member | corrected member |
|---|---|---|---|---|---|---|
| JumboExcel/OpenXmlBuilder.cs:147 | `ToString("X")` drops leading zeros, so a font or fill colour below 0x100000 (lines 186 and 294) is written with fewer than six digits (an odd count for some) | colour with R=0, G=0, B=1 gives "1" | six hex digits, "000001" | not executed; read from the code | Stylesheets.ToHexDropsLeadingZeros | Stylesheets.ToHexColor |
