/**
 The record adapters of postalcode.py: a raw row of either table becomes a
 named record (`csv_to_dict`, `csv_to_dict_jigyosyo`), and either record
 becomes the one result shape (`convert_result_dict`).
 */
module Records {
  import opened Text
  import opened Util
  import opened Normalize

  datatype Option<T> = None | Some(value: T)

  /** A row of the general table (KEN_ALL). */
  datatype GeneralRecord = GeneralRecord(
    lpbCode: string, code5: string, code7: string,
    prefKana: string, cityKana: string, townKana: string,
    prefKanji: string, cityKanji: string, townKanji: string)

  /** A row of the large-account table (JIGYOSYO). */
  datatype LargeRecord = LargeRecord(
    lpbCode: string, officeNameKana: string, officeNameKanji: string,
    prefKanji: string, cityKanji: string, townKanji: string,
    streetAddress: string, code7: string, code5: string)

  /** The record `convert_result_dict` is given: it tells the two apart only by
      whether the keys street_address and office_name_kanji are present. */
  datatype SourceRecord = General(g: GeneralRecord) | Large(l: LargeRecord)
  {
    function LpbCode(): string { match this case General(g) => g.lpbCode case Large(l) => l.lpbCode }
    function Code5(): string { match this case General(g) => g.code5 case Large(l) => l.code5 }
    function Code7(): string { match this case General(g) => g.code7 case Large(l) => l.code7 }
    function PrefKanji(): string { match this case General(g) => g.prefKanji case Large(l) => l.prefKanji }
    function CityKanji(): string { match this case General(g) => g.cityKanji case Large(l) => l.cityKanji }
    function TownKanji(): string { match this case General(g) => g.townKanji case Large(l) => l.townKanji }

    /** The value under the key street_address, when the record has that key. */
    function StreetAddress(): Option<string> {
      match this case General(_) => None case Large(l) => Some(l.streetAddress)
    }

    /** The value under the key office_name_kanji, when the record has that key. */
    function OfficeNameKanji(): Option<string> {
      match this case General(_) => None case Large(l) => Some(l.officeNameKanji)
    }
  }

  /** The unified result; `streetAddress` and `officeName` stand for keys that
      may be missing from the returned dictionary. */
  datatype ResultRecord = ResultRecord(
    lpbCode: string, code5: string, code7: string,
    pref: string, city: string, town: string,
    streetAddress: Option<string>, officeName: Option<string>)

  /** A row has the nine columns both adapters read. */
  predicate HasColumns(row: seq<string>) {
    |row| >= 9
  }

  /** The nine columns of the general table, in file order. */
  function GeneralColumns(g: GeneralRecord): seq<string> {
    [g.lpbCode, g.code5, g.code7, g.prefKana, g.cityKana, g.townKana,
     g.prefKanji, g.cityKanji, g.townKanji]
  }

  /** The nine columns of the large-account table, in file order. */
  function LargeColumns(l: LargeRecord): seq<string> {
    [l.lpbCode, l.officeNameKana, l.officeNameKanji, l.prefKanji, l.cityKanji,
     l.townKanji, l.streetAddress, l.code7, l.code5]
  }

  /** `csv_to_dict`: the first nine columns in order, the old 5-digit code
      (column 1) with its surrounding whitespace stripped; later columns are
      ignored. */
  function ParseGeneral(row: seq<string>): GeneralRecord
    requires HasColumns(row)
  {
    GeneralRecord(row[0], Strip(row[1]), row[2], row[3], row[4], row[5], row[6], row[7], row[8])
  }

  /** `csv_to_dict_jigyosyo`: the first nine columns in order, the old 5-digit
      code (column 8) with its surrounding whitespace stripped. */
  function ParseLarge(row: seq<string>): LargeRecord
    requires HasColumns(row)
  {
    LargeRecord(row[0], row[1], row[2], row[3], row[4], row[5], row[6], row[7], Strip(row[8]))
  }

  /** A general record is the row's first nine columns, column 1 stripped. */
  lemma GeneralColumnsOfRow(row: seq<string>)
    requires HasColumns(row)
    ensures GeneralColumns(ParseGeneral(row)) == row[..9][1 := Strip(row[1])]
  {
  }

  /** A large-account record is the row's first nine columns, column 8 stripped. */
  lemma LargeColumnsOfRow(row: seq<string>)
    requires HasColumns(row)
    ensures LargeColumns(ParseLarge(row)) == row[..9][8 := Strip(row[8])]
  {
  }

  /** Writing a record out as a row and reading it back gives the record, when
      its 5-digit code carries no surrounding whitespace. */
  lemma GeneralRoundTrip(g: GeneralRecord, rest: seq<string>)
    requires Trimmed(g.code5)
    ensures ParseGeneral(GeneralColumns(g) + rest) == g
  {
    StripTrimmed(g.code5);
  }

  lemma LargeRoundTrip(l: LargeRecord, rest: seq<string>)
    requires Trimmed(l.code5)
    ensures ParseLarge(LargeColumns(l) + rest) == l
  {
    StripTrimmed(l.code5);
  }

  /** `convert_result_dict`: the six common fields are copied; street_address
      is present, half-width, exactly when the source has it, and office_name,
      normalised, exactly when the source has office_name_kanji. */
  function ConvertResult(u: Helpers, src: SourceRecord): ResultRecord {
    var street := match src.StreetAddress()
      case None => None
      case Some(s) => Some(u.toHalfWidth(s));
    var office := match src.OfficeNameKanji()
      case None => None
      case Some(n) => Some(NormalizeOfficeName(u, n));
    ResultRecord(src.LpbCode(), src.Code5(), src.Code7(),
                 src.PrefKanji(), src.CityKanji(), src.TownKanji(), street, office)
  }

  /** The six common fields are copied; street_address is present, half-width,
      exactly when the source has it, and office_name, normalised, exactly when
      the source has office_name_kanji. */
  lemma ResultFields(u: Helpers, src: SourceRecord)
    ensures var r := ConvertResult(u, src);
            r.lpbCode == src.LpbCode() && r.code5 == src.Code5() && r.code7 == src.Code7()
            && r.pref == src.PrefKanji() && r.city == src.CityKanji() && r.town == src.TownKanji()
    ensures var r := ConvertResult(u, src);
            (r.streetAddress.Some? <==> src.StreetAddress().Some?)
            && (r.streetAddress.Some? ==> r.streetAddress.value == u.toHalfWidth(src.StreetAddress().value))
    ensures var r := ConvertResult(u, src);
            (r.officeName.Some? <==> src.OfficeNameKanji().Some?)
            && (r.officeName.Some? ==> r.officeName.value == NormalizeOfficeName(u, src.OfficeNameKanji().value))
  {
  }

  const CommonKeys: set<string> := {"lpb_code", "code5", "code7", "pref", "city", "town"}

  /** The keys of the dictionary a result record is serialised as. */
  function Keys(r: ResultRecord): set<string> {
    CommonKeys
    + (if r.streetAddress.Some? then {"street_address"} else {})
    + (if r.officeName.Some? then {"office_name"} else {})
  }

  /** A general-table result has exactly the six common keys, a large-account
      result all eight. */
  lemma ResultKeys(u: Helpers, src: SourceRecord)
    ensures src.General? ==> Keys(ConvertResult(u, src)) == CommonKeys
    ensures src.Large? ==> Keys(ConvertResult(u, src)) == CommonKeys + {"street_address", "office_name"}
  {
  }
}
