/**
 * Number formats: the (id, code) pair of CommonValueFormat, its subclasses
 * NumberFormat, IntegerFormat, DecimalFormat and DateTimeFormat, and the
 * built-in catalogue that the stylesheet builder indexes by format code.
 * Built-in ids follow the table of section 18.8.30 of ECMA-376 Part 1.
 */
module Formatting {
  import opened Wrappers

  /** The runtime class of a format object; `Equals(object)` compares it. */
  datatype FormatClass =
    | CommonValueFormatClass
    | NumberFormatClass
    | IntegerFormatClass
    | DecimalFormatClass
    | DateTimeFormatClass

  /** Id -1 marks a custom format; an id >= 0 is a built-in format of that number. */
  const CustomFormatId: int := -1

  /** A format fixed at construction: its class, its id and its format code. */
  datatype CommonValueFormat = CommonValueFormat(cls: FormatClass, id: int, formatCode: string) {
    predicate IsCustom() { id == CustomFormatId }
    predicate IsBuiltIn() { id >= 0 }
    /** An instance of `NumberFormat` (`IntegerFormat` derives from it; `DecimalFormat` does not). */
    predicate IsNumberFormat() { cls == NumberFormatClass || cls == IntegerFormatClass }
    /** An instance of `DateTimeFormat`. */
    predicate IsDateTimeFormat() { cls == DateTimeFormatClass }
  }

  /** `CommonValueFormat.String`: display the value as is. */
  const String: CommonValueFormat := CommonValueFormat(CommonValueFormatClass, 49, "@")

  // ---- NumberFormat ----

  const NumberDefault: CommonValueFormat := CommonValueFormat(NumberFormatClass, 0, "")

  /** `NumberFormat.FromFormatString`: a custom number format with exactly the given code. */
  function FromFormatString(formatCode: string): (f: CommonValueFormat)
    ensures f.IsCustom() && !f.IsBuiltIn()
    ensures f.formatCode == formatCode && f.cls == NumberFormatClass
  {
    CommonValueFormat(NumberFormatClass, CustomFormatId, formatCode)
  }

  // ---- IntegerFormat (private constructor: these four are all its instances) ----

  const General: CommonValueFormat := CommonValueFormat(IntegerFormatClass, 1, "0")
  const AccountingAmount: CommonValueFormat := CommonValueFormat(IntegerFormatClass, 37, "#,##0 ;(#,##0)")
  const AccountingAmountColored: CommonValueFormat := CommonValueFormat(IntegerFormatClass, 38, "#,##0 ;[Red](#,##0)")
  const IntegerWithSeparator: CommonValueFormat := CommonValueFormat(IntegerFormatClass, 3, "#,##0")

  function GetIntegerFormats(): seq<CommonValueFormat>
  {
    [General, IntegerWithSeparator, AccountingAmount, AccountingAmountColored]
  }

  // ---- DecimalFormat ----

  const FractionalTwoDecimalPlaces: CommonValueFormat := CommonValueFormat(DecimalFormatClass, 2, "0.00")
  const SeparatorTwoDecimalPlaces: CommonValueFormat := CommonValueFormat(DecimalFormatClass, 4, "#,##0.00")
  const IntegerPercents: CommonValueFormat := CommonValueFormat(DecimalFormatClass, 9, "0%")
  const PercentsTwoDecimalPlaces: CommonValueFormat := CommonValueFormat(DecimalFormatClass, 10, "0.00%")
  const ValueWithExponent1: CommonValueFormat := CommonValueFormat(DecimalFormatClass, 11, "0.00E+00")
  const ValueWithExponent2: CommonValueFormat := CommonValueFormat(DecimalFormatClass, 48, "##0.0E+0")
  const FractionWithDenominator: CommonValueFormat := CommonValueFormat(DecimalFormatClass, 12, "# ?/?")
  const FractionWithDenominatorPrecise: CommonValueFormat := CommonValueFormat(DecimalFormatClass, 13, "# ??/??")

  /** The eight DecimalFormat built-ins. */
  function DecimalBuiltIns(): seq<CommonValueFormat>
  {
    [FractionalTwoDecimalPlaces, SeparatorTwoDecimalPlaces, IntegerPercents, PercentsTwoDecimalPlaces,
     ValueWithExponent1, ValueWithExponent2, FractionWithDenominator, FractionWithDenominatorPrecise]
  }

  /** `GetDecimalFormats` lists six of them: the two fraction formats are not offered. */
  function GetDecimalFormats(): seq<CommonValueFormat>
  {
    [FractionalTwoDecimalPlaces, SeparatorTwoDecimalPlaces, IntegerPercents, PercentsTwoDecimalPlaces,
     ValueWithExponent1, ValueWithExponent2]
  }

  // ---- DateTimeFormat ----

  /** The public constructor `new DateTimeFormat(format)`: a custom date format. */
  function NewDateTimeFormat(format: string): (f: CommonValueFormat)
    ensures f.IsCustom() && f.formatCode == format && f.cls == DateTimeFormatClass
  {
    CommonValueFormat(DateTimeFormatClass, CustomFormatId, format)
  }

  const DateMmDdYy: CommonValueFormat := CommonValueFormat(DateTimeFormatClass, 14, "mm-dd-yy")
  const DateDMmmYy: CommonValueFormat := CommonValueFormat(DateTimeFormatClass, 15, "d-mmm-yy")
  const DateDMmm: CommonValueFormat := CommonValueFormat(DateTimeFormatClass, 16, "d-mmm")
  const DateMmmYy: CommonValueFormat := CommonValueFormat(DateTimeFormatClass, 17, "mmm-yy")
  const TimeAmPm: CommonValueFormat := CommonValueFormat(DateTimeFormatClass, 18, "h:mm AM/PM")
  const TimeAmPmWithSeconds: CommonValueFormat := CommonValueFormat(DateTimeFormatClass, 19, "h:mm:ss AM/PM")
  const Time24: CommonValueFormat := CommonValueFormat(DateTimeFormatClass, 20, "H:mm")
  const Time24WithSeconds: CommonValueFormat := CommonValueFormat(DateTimeFormatClass, 21, "H:mm:ss")
  const DateTime: CommonValueFormat := CommonValueFormat(DateTimeFormatClass, 22, "m/d/yy H:mm")
  const TimeMmSs: CommonValueFormat := CommonValueFormat(DateTimeFormatClass, 45, "mm:ss")
  const TimeHMmSs: CommonValueFormat := CommonValueFormat(DateTimeFormatClass, 46, "[h]:mm:ss")
  const TimeMmSs0: CommonValueFormat := CommonValueFormat(DateTimeFormatClass, 47, "mmss.0")

  function GetDateTimeFormats(): seq<CommonValueFormat>
  {
    [DateMmDdYy, DateDMmmYy, DateDMmm, DateMmmYy, TimeAmPm, TimeAmPmWithSeconds,
     Time24, Time24WithSeconds, DateTime, TimeMmSs, TimeHMmSs, TimeMmSs0]
  }

  // ---- The catalogue ----

  /**
   * `CommonValueFormat.GetFormats`, in its order, without the two entries
   * `DecimalFormat.AccountingAmount` and `DecimalFormat.AccountingAmountColored`
   * that it names but that DecimalFormat does not define.
   */
  function GetFormats(): seq<CommonValueFormat>
  {
    [NumberDefault, General, FractionalTwoDecimalPlaces, IntegerWithSeparator,
     SeparatorTwoDecimalPlaces, IntegerPercents, PercentsTwoDecimalPlaces, ValueWithExponent1,
     FractionWithDenominator, FractionWithDenominatorPrecise,
     DateMmDdYy, DateDMmmYy, DateDMmm, DateMmmYy, TimeAmPm, TimeAmPmWithSeconds,
     Time24, Time24WithSeconds, DateTime,
     AccountingAmount, AccountingAmountColored,
     TimeMmSs, TimeHMmSs, TimeMmSs0, ValueWithExponent2, String]
  }

  predicate DistinctCodes(formats: seq<CommonValueFormat>)
  {
    forall i, j :: 0 <= i < j < |formats| ==> formats[i].formatCode != formats[j].formatCode
  }

  predicate DistinctIds(formats: seq<CommonValueFormat>)
  {
    forall i, j :: 0 <= i < j < |formats| ==> formats[i].id != formats[j].id
  }

  /**
   * Proof device: the position of a catalogue code, found from its length and
   * its first two and last characters (distinct for the 26 codes), or -1.
   */
  function CataloguePosition(code: string): int
  {
    var key := if |code| == 0 then 0
      else if |code| == 1 then 1_000_000_000 + code[0] as int * 1_000_000
      else |code| * 1_000_000_000 + code[0] as int * 1_000_000 + code[1] as int * 1_000 + code[|code| - 1] as int;
    if key == 0 then 0
    else if key == 1048000000 then 1
    else if key == 4048046048 then 2
    else if key == 5035044048 then 3
    else if key == 8035044048 then 4
    else if key == 2048037037 then 5
    else if key == 5048046037 then 6
    else if key == 8048046048 then 7
    else if key == 5035032063 then 8
    else if key == 7035032063 then 9
    else if key == 8109109121 then 10
    else if key == 8100045121 then 11
    else if key == 5100045109 then 12
    else if key == 6109109121 then 13
    else if key == 10104058077 then 14
    else if key == 13104058077 then 15
    else if key == 4072058109 then 16
    else if key == 7072058115 then 17
    else if key == 11109047109 then 18
    else if key == 14035044041 then 19
    else if key == 19035044041 then 20
    else if key == 5109109115 then 21
    else if key == 9091104115 then 22
    else if key == 6109109048 then 23
    else if key == 8035035048 then 24
    else if key == 1064000000 then 25
    else -1
  }

  lemma CataloguePositions0()
    ensures forall k :: 0 <= k < 5 ==> CataloguePosition(GetFormats()[k].formatCode) == k
  {
  }

  lemma CataloguePositions5()
    ensures forall k :: 5 <= k < 10 ==> CataloguePosition(GetFormats()[k].formatCode) == k
  {
  }

  lemma CataloguePositions10()
    ensures forall k :: 10 <= k < 15 ==> CataloguePosition(GetFormats()[k].formatCode) == k
  {
  }

  lemma CataloguePositions15()
    ensures forall k :: 15 <= k < 20 ==> CataloguePosition(GetFormats()[k].formatCode) == k
  {
  }

  lemma CataloguePositions20()
    ensures forall k :: 20 <= k < 26 ==> CataloguePosition(GetFormats()[k].formatCode) == k
  {
  }

  /** The catalogue codes are pairwise distinct, so keying a dictionary by code cannot collide. */
  lemma CatalogueCodesDistinct()
    ensures DistinctCodes(GetFormats())
  {
    CataloguePositions0();
    CataloguePositions5();
    CataloguePositions10();
    CataloguePositions15();
    CataloguePositions20();
  }

  predicate IdsIncrease(formats: seq<CommonValueFormat>)
  {
    forall k :: 0 <= k < |formats| - 1 ==> formats[k].id < formats[k + 1].id
  }

  /** Ids increasing from one entry to the next are increasing between any two. */
  lemma {:induction false} IncreasingIdsOrdered(formats: seq<CommonValueFormat>)
    requires IdsIncrease(formats)
    ensures forall i, j :: 0 <= i < j < |formats| ==> formats[i].id < formats[j].id
  {
    if |formats| > 1 {
      var tail := formats[1..];
      assert IdsIncrease(tail) by {
        forall k | 0 <= k < |tail| - 1 ensures tail[k].id < tail[k + 1].id {
          assert tail[k] == formats[k + 1] && tail[k + 1] == formats[k + 2];
        }
      }
      IncreasingIdsOrdered(tail);
      forall i, j | 0 <= i < j < |formats| ensures formats[i].id < formats[j].id {
        if i == 0 {
          if j > 1 {
            assert tail[0] == formats[1] && tail[j - 1] == formats[j];
          }
        } else {
          assert tail[i - 1] == formats[i] && tail[j - 1] == formats[j];
        }
      }
    }
  }

  /** The catalogue ids increase strictly from 0 to 49, hence are pairwise distinct and all built-in. */
  lemma CatalogueIdsDistinct()
    ensures DistinctIds(GetFormats())
    ensures forall f :: f in GetFormats() ==> f.IsBuiltIn()
  {
    var f := GetFormats();
    CatalogueIdsIncrease(f);
    IncreasingIdsOrdered(f);
    assert f[0].id == 0;
    forall g | g in f ensures g.IsBuiltIn() {
      var k :| 0 <= k < |f| && f[k] == g;
      if k > 0 {
        assert f[0].id < f[k].id;
      }
    }
  }

  /** Each catalogue id is below the next one: 0..4, 9..22, 37, 38, 45..49. */
  lemma CatalogueIdsIncrease(f: seq<CommonValueFormat>)
    requires f == GetFormats()
    ensures IdsIncrease(f)
  {
    CatalogueIdsLow(f);
    CatalogueIdsHigh(f);
  }

  lemma CatalogueIdsLow(f: seq<CommonValueFormat>)
    requires f == GetFormats()
    ensures |f| == 26 && forall k :: 0 <= k < 13 ==> f[k].id < f[k + 1].id
  {
    assert f[0].id == 0;
    assert f[1].id == 1;
    assert f[2].id == 2;
    assert f[3].id == 3;
    assert f[4].id == 4;
    assert f[5].id == 9;
    assert f[6].id == 10;
    assert f[7].id == 11;
    assert f[8].id == 12;
    assert f[9].id == 13;
    assert f[10].id == 14;
    assert f[11].id == 15;
    assert f[12].id == 16;
    assert f[13].id == 17;
  }

  lemma CatalogueIdsHigh(f: seq<CommonValueFormat>)
    requires f == GetFormats()
    ensures forall k :: 13 <= k < 25 ==> f[k].id < f[k + 1].id
  {
    assert f[13].id == 17;
    assert f[14].id == 18;
    assert f[15].id == 19;
    assert f[16].id == 20;
    assert f[17].id == 21;
    assert f[18].id == 22;
    assert f[19].id == 37;
    assert f[20].id == 38;
    assert f[21].id == 45;
    assert f[22].id == 46;
    assert f[23].id == 47;
    assert f[24].id == 48;
    assert f[25].id == 49;
  }

  /** The four integer formats are distinct built-ins of the catalogue, in the order listed. */
  lemma IntegerFormatsAreCatalogued()
    ensures |GetIntegerFormats()| == 4 && DistinctIds(GetIntegerFormats())
    ensures forall f :: f in GetIntegerFormats() ==> f in GetFormats() && f.cls == IntegerFormatClass
  {
    IntegerIdsDistinct();
    IntegerInCatalogue();
  }

  lemma IntegerIdsDistinct()
    ensures |GetIntegerFormats()| == 4 && DistinctIds(GetIntegerFormats())
  {
    var g := GetIntegerFormats();
    assert g[0].id == 1 && g[1].id == 3 && g[2].id == 37 && g[3].id == 38;
    assert IdsIncrease(g);
    IncreasingIdsOrdered(g);
  }

  /** Each integer format stands in the catalogue. */
  lemma IntegerInCatalogue()
    ensures forall f :: f in GetIntegerFormats() ==> f in GetFormats() && f.cls == IntegerFormatClass
  {
    PlainIntegersCatalogued();
    AccountingCatalogued();
  }

  lemma PlainIntegersCatalogued()
    ensures General in GetFormats() && IntegerWithSeparator in GetFormats()
  {
  }

  lemma AccountingCatalogued()
    ensures AccountingAmount in GetFormats() && AccountingAmountColored in GetFormats()
  {
  }

  /** The eight decimal built-ins have distinct ids; GetDecimalFormats offers the first six. */
  lemma DecimalFormatsAreCatalogued()
    ensures DistinctIds(DecimalBuiltIns())
    ensures GetDecimalFormats() == DecimalBuiltIns()[..6]
    ensures forall f :: f in GetDecimalFormats() ==> f in GetFormats() && f.IsBuiltIn()
  {
    DecimalIdsDistinct();
    DecimalFormatsArePrefix();
    DecimalInCatalogue();
  }

  lemma DecimalIdsDistinct()
    ensures DistinctIds(DecimalBuiltIns())
  {
    var d := DecimalBuiltIns();
    assert d[0].id == 2 && d[1].id == 4 && d[2].id == 9 && d[3].id == 10;
    assert d[4].id == 11 && d[5].id == 48 && d[6].id == 12 && d[7].id == 13;
  }

  lemma DecimalFormatsArePrefix()
    ensures GetDecimalFormats() == DecimalBuiltIns()[..6]
  {
  }

  /** Each offered decimal format stands in the catalogue. */
  lemma DecimalInCatalogue()
    ensures forall f :: f in GetDecimalFormats() ==> f in GetFormats() && f.IsBuiltIn()
  {
    FixedDecimalsCatalogued();
    ScaledDecimalsCatalogued();
  }

  lemma FixedDecimalsCatalogued()
    ensures FractionalTwoDecimalPlaces in GetFormats() && SeparatorTwoDecimalPlaces in GetFormats()
    ensures IntegerPercents in GetFormats()
  {
  }

  lemma ScaledDecimalsCatalogued()
    ensures PercentsTwoDecimalPlaces in GetFormats() && ValueWithExponent1 in GetFormats()
    ensures ValueWithExponent2 in GetFormats()
  {
  }

  /** The twelve date/time built-ins, in id order 14..22, 45, 46, 47, all catalogued. */
  lemma DateTimeFormatsAreCatalogued()
    ensures |GetDateTimeFormats()| == 12 && DistinctIds(GetDateTimeFormats())
    ensures forall k :: 0 <= k < 9 ==> GetDateTimeFormats()[k].id == 14 + k
    ensures forall k :: 9 <= k < 12 ==> GetDateTimeFormats()[k].id == 36 + k
    ensures forall f :: f in GetDateTimeFormats() ==> f in GetFormats()
  {
    var g := GetDateTimeFormats();
    DateTimeIds(g);
    assert IdsIncrease(g);
    IncreasingIdsOrdered(g);
    DateTimeInCatalogue(g, GetFormats());
  }

  /** The ids of the date/time list, entry by entry. */
  lemma DateTimeIds(g: seq<CommonValueFormat>)
    requires g == GetDateTimeFormats()
    ensures |g| == 12
    ensures forall k :: 0 <= k < 9 ==> g[k].id == 14 + k
    ensures forall k :: 9 <= k < 12 ==> g[k].id == 36 + k
  {
    assert g[0].id == 14 && g[1].id == 15 && g[2].id == 16 && g[3].id == 17 && g[4].id == 18;
    assert g[5].id == 19 && g[6].id == 20 && g[7].id == 21 && g[8].id == 22;
    assert g[9].id == 45 && g[10].id == 46 && g[11].id == 47;
  }

  /** Each date/time format stands in the catalogue: the first nine at 10..18, the last three at 21..23. */
  lemma DateTimeInCatalogue(g: seq<CommonValueFormat>, all: seq<CommonValueFormat>)
    requires g == GetDateTimeFormats() && all == GetFormats()
    ensures forall f :: f in g ==> f in all
  {
    assert DateMmDdYy in all && DateDMmmYy in all && DateDMmm in all && DateMmmYy in all;
    assert TimeAmPm in all && TimeAmPmWithSeconds in all && Time24 in all && Time24WithSeconds in all;
    assert DateTime in all && TimeMmSs in all && TimeHMmSs in all && TimeMmSs0 in all;
  }

  /** `Equals(CommonValueFormat)`: never equal to null, otherwise ids only. */
  predicate Equals(self: CommonValueFormat, other: Option<CommonValueFormat>)
  {
    other.Some? && self.id == other.value.id
  }

  /** `Equals(object)`: additionally the runtime classes must agree. */
  predicate EqualsObject(self: CommonValueFormat, obj: Option<CommonValueFormat>)
  {
    obj.Some? && obj.value.cls == self.cls && Equals(self, obj)
  }

  function GetHashCode(self: CommonValueFormat): int
  {
    self.id
  }

  /** Equality by id: any two custom formats are equal whatever their codes; equal formats hash equally. */
  lemma EqualityIsById(a: CommonValueFormat, b: CommonValueFormat)
    ensures Equals(a, Some(b)) <==> a.id == b.id
    ensures !Equals(a, None)
    ensures Equals(a, Some(b)) ==> GetHashCode(a) == GetHashCode(b)
    ensures a.IsCustom() && b.IsCustom() ==> Equals(a, Some(b))
  {
  }

  /** Any two `FromFormatString` results compare equal, even for different codes. */
  lemma CustomNumberFormatsAllEqual(code1: string, code2: string)
    ensures Equals(FromFormatString(code1), Some(FromFormatString(code2)))
    ensures EqualsObject(FromFormatString(code1), Some(FromFormatString(code2)))
  {
  }

  /** The first format of `formats` with the given code: the dictionary lookup by code. */
  function FindByCode(formats: seq<CommonValueFormat>, code: string): (r: Option<CommonValueFormat>)
    ensures r.Some? ==> r.value in formats && r.value.formatCode == code
    ensures r.None? <==> forall k :: 0 <= k < |formats| ==> formats[k].formatCode != code
  {
    if formats == [] then None
    else if formats[0].formatCode == code then Some(formats[0])
    else FindByCode(formats[1..], code)
  }

  /** Among distinct codes, looking up a member's code finds that member. */
  lemma {:induction false} FindByCodeOfMember(formats: seq<CommonValueFormat>, k: nat)
    requires DistinctCodes(formats) && k < |formats|
    ensures FindByCode(formats, formats[k].formatCode) == Some(formats[k])
  {
    if k > 0 {
      assert formats[0].formatCode != formats[k].formatCode;
      assert formats[1..][k - 1] == formats[k];
      FindByCodeOfMember(formats[1..], k - 1);
    }
  }

  /** Resolution of a format code against the catalogue (`ToDictionary(i => i.FormatCode)`). */
  function LookupBuiltIn(code: string): (r: Option<CommonValueFormat>)
    ensures r.Some? ==> r.value in GetFormats() && r.value.formatCode == code && r.value.IsBuiltIn()
    ensures r.None? <==> forall f :: f in GetFormats() ==> f.formatCode != code
  {
    CatalogueIdsDistinct();
    FindByCode(GetFormats(), code)
  }

  /** Every catalogued format is found by its own code. */
  lemma LookupFindsEveryCatalogued(f: CommonValueFormat)
    requires f in GetFormats()
    ensures LookupBuiltIn(f.formatCode) == Some(f)
  {
    CatalogueCodesDistinct();
    var k :| 0 <= k < |GetFormats()| && GetFormats()[k] == f;
    FindByCodeOfMember(GetFormats(), k);
  }

  /**
   * Resolution is by code: the default number format resolves to id 0, and a
   * custom date format whose code is a built-in code gets the built-in id.
   */
  lemma ResolutionIsByCode()
    ensures LookupBuiltIn(NumberDefault.formatCode) == Some(NumberDefault)
    ensures LookupBuiltIn(NewDateTimeFormat("m/d/yy H:mm").formatCode) == Some(DateTime)
    ensures LookupBuiltIn(String.formatCode) == Some(String)
  {
    LookupFindsEveryCatalogued(NumberDefault);
    LookupFindsEveryCatalogued(DateTime);
    LookupFindsEveryCatalogued(String);
  }
}
