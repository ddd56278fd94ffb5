/**
 * The flashcart-model, CIC and save-type enumerations and their string
 * tables (UNFLoader/helper.cpp). Each parser accepts a one-digit shorthand
 * first, then an exact, case-sensitive canonical name; anything else ends
 * the program through `terminate`, which the model records as `Fatal`.
 */
module ConfigCodec {
  import opened Wrappers

  /** The result of a parser: a variant, or the reason handed to `terminate`. */
  datatype Parsed<T> = Ok(value: T) | Fatal(reason: string)

  /**
   * What the three parsers share: the name table, the ordinals `lo..hi`
   * that the digit shorthand admits, the ordinal of table entry 0, and the
   * word the error message uses for the enumeration.
   */
  datatype Codec = Codec(names: seq<string>, lo: int, hi: int, offset: int, kind: string)

  /**
   * The table and the enumeration stay in lockstep: the digit range and the
   * table cover the same ordinals, names are distinct, and no name is one
   * character long (so the shorthand never hides a name).
   */
  ghost predicate WellFormed(c: Codec) {
    && c.offset == c.lo
    && c.hi == c.lo + |c.names| - 1
    && (forall i, j :: 0 <= i < j < |c.names| ==> c.names[i] != c.names[j])
    && (forall i :: 0 <= i < |c.names| ==> |c.names[i]| != 1)
  }

  /** The linear `strcmp` search: the first table index holding `s`. */
  function Find(names: seq<string>, s: string): (r: Option<nat>)
    ensures r.None? <==> s !in names
    ensures r.Some? ==> r.value < |names| && names[r.value] == s && s !in names[..r.value]
  {
    if names == [] then None
    else if names[0] == s then Some(0)
    else
      match Find(names[1..], s)
      case None => None
      case Some(i) =>
        assert names[..i + 1] == [names[0]] + names[1..][..i];
        Some(i + 1)
  }

  /** A one-character string whose digit lies in the shorthand range. */
  predicate IsShorthand(c: Codec, s: string) {
    |s| == 1 && '0' as int + c.lo <= s[0] as int <= '0' as int + c.hi
  }

  function FatalReason(c: Codec, s: string): string {
    "Unknown " + c.kind + " '" + s + "'"
  }

  /** The common shape of `*_strtotype`, on ordinals. */
  function ParseOrdinal(c: Codec, s: string): (r: Parsed<int>)
    ensures r.Fatal? <==> !IsShorthand(c, s) && s !in c.names
    ensures r.Fatal? ==> r.reason == FatalReason(c, s)
    ensures IsShorthand(c, s) ==> r == Ok(s[0] as int - '0' as int)
    ensures !IsShorthand(c, s) && r.Ok? ==>
      && 0 <= r.value - c.offset < |c.names|
      && c.names[r.value - c.offset] == s
      && s !in c.names[..r.value - c.offset]
  {
    if IsShorthand(c, s) then Ok(s[0] as int - '0' as int)
    else
      match Find(c.names, s)
      case Some(i) => Ok(i + c.offset)
      case None => Fatal(FatalReason(c, s))
  }

  /** Every successful parse lands on an ordinal the table names. */
  lemma ParsedInRange(c: Codec, s: string)
    requires WellFormed(c)
    ensures ParseOrdinal(c, s).Ok? ==> c.lo <= ParseOrdinal(c, s).value <= c.hi
  {
  }

  /** Parsing the canonical name at index `i` yields ordinal `i + offset`. */
  lemma NameParses(c: Codec, i: int)
    requires WellFormed(c) && 0 <= i < |c.names|
    ensures ParseOrdinal(c, c.names[i]) == Ok(i + c.offset)
  {
    var s := c.names[i];
    assert !IsShorthand(c, s);
  }

  /** The shorthand digit `d` and the name at its table index parse alike. */
  lemma ShorthandAgrees(c: Codec, d: char)
    requires WellFormed(c) && c.lo <= d as int - '0' as int <= c.hi
    ensures ParseOrdinal(c, [d]) == Ok(d as int - '0' as int)
    ensures ParseOrdinal(c, [d]) == ParseOrdinal(c, c.names[d as int - '0' as int - c.lo])
  {
    NameParses(c, d as int - '0' as int - c.lo);
  }

  // ---------------------------------------------------------------------
  // Flashcart model

  datatype CartType = CartNone | Cart64Drive1 | Cart64Drive2 | CartEverDrive | CartSC64

  function CartOrdinal(t: CartType): nat {
    match t
    case CartNone => 0
    case Cart64Drive1 => 1
    case Cart64Drive2 => 2
    case CartEverDrive => 3
    case CartSC64 => 4
  }

  function CartOfOrdinal(n: int): (t: CartType)
    requires 0 <= n <= 4
    ensures CartOrdinal(t) == n
  {
    if n == 0 then CartNone
    else if n == 1 then Cart64Drive1
    else if n == 2 then Cart64Drive2
    else if n == 3 then CartEverDrive
    else CartSC64
  }

  lemma CartOrdinalInverse(t: CartType)
    ensures CartOfOrdinal(CartOrdinal(t)) == t
  {
  }

  const CartStrings: seq<string> := ["64Drive HW1", "64Drive HW2", "EverDrive", "SC64"]

  const CartCodec: Codec :=
    Codec(CartStrings, CartOrdinal(Cart64Drive1), CartOrdinal(CartSC64), 1, "flashcart type")

  lemma CartCodecWellFormed()
    ensures WellFormed(CartCodec)
  {
  }

  /** `cart_strtotype` */
  function CartStrToType(s: string): (r: Parsed<CartType>)
    ensures r.Ok? ==> r.value != CartNone
    ensures r.Fatal? <==> !(|s| == 1 && '1' <= s[0] <= '4') && s !in CartStrings
    ensures r.Fatal? ==> r.reason == "Unknown flashcart type '" + s + "'"
  {
    CartCodecWellFormed();
    ParsedInRange(CartCodec, s);
    match ParseOrdinal(CartCodec, s)
    case Ok(n) => Ok(CartOfOrdinal(n))
    case Fatal(m) => Fatal(m)
  }

  /** `cart_typetostr`: a direct index into the table; NONE is not allowed. */
  function CartTypeToStr(t: CartType): (r: string)
    requires t != CartNone
    ensures r in CartStrings
  {
    CartStrings[CartOrdinal(t) - 1]
  }

  lemma CartNameRoundTrip(s: string)
    requires s in CartStrings
    ensures CartStrToType(s).Ok? && CartTypeToStr(CartStrToType(s).value) == s
  {
    CartCodecWellFormed();
    var i :| 0 <= i < |CartStrings| && CartStrings[i] == s;
    NameParses(CartCodec, i);
  }

  lemma CartTypeRoundTrip(t: CartType)
    requires t != CartNone
    ensures CartStrToType(CartTypeToStr(t)) == Ok(t)
  {
    CartCodecWellFormed();
    CartOrdinalInverse(t);
    NameParses(CartCodec, CartOrdinal(t) - 1);
  }

  lemma CartShorthand(d: char)
    requires '1' <= d <= '4'
    ensures CartStrToType([d]) == Ok(CartOfOrdinal(d as int - '0' as int))
    ensures CartStrToType([d]) == CartStrToType(CartStrings[d as int - '1' as int])
  {
    CartCodecWellFormed();
    ShorthandAgrees(CartCodec, d);
  }

  // ---------------------------------------------------------------------
  // CIC variant

  datatype CicType = Cic6101 | Cic6102 | Cic7101 | Cic7102 | CicX103 | CicX105 | CicX106 | Cic5101

  function CicOrdinal(t: CicType): nat {
    match t
    case Cic6101 => 0
    case Cic6102 => 1
    case Cic7101 => 2
    case Cic7102 => 3
    case CicX103 => 4
    case CicX105 => 5
    case CicX106 => 6
    case Cic5101 => 7
  }

  function CicOfOrdinal(n: int): (t: CicType)
    requires 0 <= n <= 7
    ensures CicOrdinal(t) == n
  {
    if n == 0 then Cic6101
    else if n == 1 then Cic6102
    else if n == 2 then Cic7101
    else if n == 3 then Cic7102
    else if n == 4 then CicX103
    else if n == 5 then CicX105
    else if n == 6 then CicX106
    else Cic5101
  }

  lemma CicOrdinalInverse(t: CicType)
    ensures CicOfOrdinal(CicOrdinal(t)) == t
  {
  }

  const CicStrings: seq<string> := ["6101", "6102", "7101", "7102", "X103", "X105", "X106", "5101"]

  const CicCodec: Codec :=
    Codec(CicStrings, CicOrdinal(Cic6101), CicOrdinal(Cic5101), 0, "CIC")

  lemma CicCodecWellFormed()
    ensures WellFormed(CicCodec)
  {
  }

  /** `cic_strtotype` */
  function CicStrToType(s: string): (r: Parsed<CicType>)
    ensures r.Fatal? <==> !(|s| == 1 && '0' <= s[0] <= '7') && s !in CicStrings
    ensures r.Fatal? ==> r.reason == "Unknown CIC '" + s + "'"
  {
    CicCodecWellFormed();
    ParsedInRange(CicCodec, s);
    match ParseOrdinal(CicCodec, s)
    case Ok(n) => Ok(CicOfOrdinal(n))
    case Fatal(m) => Fatal(m)
  }

  /** `cic_typetostr`: the ordinal itself is the table index. */
  function CicTypeToStr(t: CicType): (r: string)
    ensures r in CicStrings
  {
    CicStrings[CicOrdinal(t)]
  }

  lemma CicNameRoundTrip(s: string)
    requires s in CicStrings
    ensures CicStrToType(s).Ok? && CicTypeToStr(CicStrToType(s).value) == s
  {
    CicCodecWellFormed();
    var i :| 0 <= i < |CicStrings| && CicStrings[i] == s;
    NameParses(CicCodec, i);
  }

  lemma CicTypeRoundTrip(t: CicType)
    ensures CicStrToType(CicTypeToStr(t)) == Ok(t)
  {
    CicCodecWellFormed();
    CicOrdinalInverse(t);
    NameParses(CicCodec, CicOrdinal(t));
  }

  lemma CicShorthand(d: char)
    requires '0' <= d <= '7'
    ensures CicStrToType([d]) == Ok(CicOfOrdinal(d as int - '0' as int))
    ensures CicStrToType([d]) == CicStrToType(CicStrings[d as int - '0' as int])
  {
    CicCodecWellFormed();
    ShorthandAgrees(CicCodec, d);
  }

  // ---------------------------------------------------------------------
  // Save type

  datatype SaveType =
    SaveNone | SaveEeprom4K | SaveEeprom16K | SaveSram256 | SaveFlashRam | SaveSram768 | SaveFlashRamPkmn

  function SaveOrdinal(t: SaveType): nat {
    match t
    case SaveNone => 0
    case SaveEeprom4K => 1
    case SaveEeprom16K => 2
    case SaveSram256 => 3
    case SaveFlashRam => 4
    case SaveSram768 => 5
    case SaveFlashRamPkmn => 6
  }

  function SaveOfOrdinal(n: int): (t: SaveType)
    requires 0 <= n <= 6
    ensures SaveOrdinal(t) == n
  {
    if n == 0 then SaveNone
    else if n == 1 then SaveEeprom4K
    else if n == 2 then SaveEeprom16K
    else if n == 3 then SaveSram256
    else if n == 4 then SaveFlashRam
    else if n == 5 then SaveSram768
    else SaveFlashRamPkmn
  }

  lemma SaveOrdinalInverse(t: SaveType)
    ensures SaveOfOrdinal(SaveOrdinal(t)) == t
  {
  }

  const SaveStrings: seq<string> :=
    ["EEPROM 4Kbit", "EEPROM 16Kbit", "SRAM 256Kbit", "FlashRAM 1Mbit", "SRAM 768Kbit", "FlashRAM 1Mbit (PokeStdm2)"]

  const SaveCodec: Codec :=
    Codec(SaveStrings, SaveOrdinal(SaveEeprom4K), SaveOrdinal(SaveFlashRamPkmn), 1, "save type")

  lemma SaveCodecWellFormed()
    ensures WellFormed(SaveCodec)
  {
  }

  /** `save_strtotype` */
  function SaveStrToType(s: string): (r: Parsed<SaveType>)
    ensures r.Ok? ==> r.value != SaveNone
    ensures r.Fatal? <==> !(|s| == 1 && '1' <= s[0] <= '6') && s !in SaveStrings
    ensures r.Fatal? ==> r.reason == "Unknown save type '" + s + "'"
  {
    SaveCodecWellFormed();
    ParsedInRange(SaveCodec, s);
    match ParseOrdinal(SaveCodec, s)
    case Ok(n) => Ok(SaveOfOrdinal(n))
    case Fatal(m) => Fatal(m)
  }

  /** `save_typetostr`: a direct index into the table; NONE is not allowed. */
  function SaveTypeToStr(t: SaveType): (r: string)
    requires t != SaveNone
    ensures r in SaveStrings
  {
    SaveStrings[SaveOrdinal(t) - 1]
  }

  lemma SaveNameRoundTrip(s: string)
    requires s in SaveStrings
    ensures SaveStrToType(s).Ok? && SaveTypeToStr(SaveStrToType(s).value) == s
  {
    SaveCodecWellFormed();
    var i :| 0 <= i < |SaveStrings| && SaveStrings[i] == s;
    NameParses(SaveCodec, i);
  }

  lemma SaveTypeRoundTrip(t: SaveType)
    requires t != SaveNone
    ensures SaveStrToType(SaveTypeToStr(t)) == Ok(t)
  {
    SaveCodecWellFormed();
    SaveOrdinalInverse(t);
    NameParses(SaveCodec, SaveOrdinal(t) - 1);
  }

  lemma SaveShorthand(d: char)
    requires '1' <= d <= '6'
    ensures SaveStrToType([d]) == Ok(SaveOfOrdinal(d as int - '0' as int))
    ensures SaveStrToType([d]) == SaveStrToType(SaveStrings[d as int - '1' as int])
  {
    SaveCodecWellFormed();
    ShorthandAgrees(SaveCodec, d);
  }

  /** Out-of-range digits, the empty string and two digits are fatal. */
  lemma CartRejectsDigits()
    ensures CartStrToType("0").Fatal?
    ensures CartStrToType("5").Fatal? && CartStrToType("").Fatal? && CartStrToType("12").Fatal?
  {
    assert forall i | 0 <= i < |CartStrings| :: |CartStrings[i]| >= 4;
  }

  /** Names are compared case-sensitively. */
  lemma CartRejectsWrongCase()
    ensures CartStrToType("sc64").Fatal?
  {
    assert forall i | 0 <= i < |CartStrings| :: CartStrings[i][0] != 's';
  }

  lemma CicRejectsDigits()
    ensures CicStrToType("8").Fatal?
    ensures CicStrToType("").Fatal? && CicStrToType("61").Fatal?
  {
    assert forall i | 0 <= i < |CicStrings| :: |CicStrings[i]| == 4;
  }

  lemma CicRejectsWrongCase()
    ensures CicStrToType("x103").Fatal?
  {
    assert forall i | 0 <= i < |CicStrings| :: CicStrings[i][0] != 'x';
  }

  lemma SaveRejectsDigits()
    ensures SaveStrToType("0").Fatal?
    ensures SaveStrToType("7").Fatal? && SaveStrToType("").Fatal? && SaveStrToType("12").Fatal?
  {
    assert forall i | 0 <= i < |SaveStrings| :: |SaveStrings[i]| >= 12;
  }

  lemma SaveRejectsWrongCase()
    ensures SaveStrToType("sram 256kbit").Fatal?
  {
    assert forall i | 0 <= i < |SaveStrings| :: SaveStrings[i][0] != 's';
  }
}
