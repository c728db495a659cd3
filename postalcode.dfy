/**
 The lookup engine of postalcode.py: by old 5-digit code, by 7-digit code and
 by address, over the general table (KEN_ALL) and the large-account table
 (JIGYOSYO), and the dispatcher `main` that picks one of them. Each lookup
 is specified by a function and carried out by methods that scan the rows the
 way the source does, one method per loop.
 */
module PostalCode {
  import opened Util
  import opened Normalize
  import opened Records
  import opened Tables

  /** What a lookup returns: None, one dictionary, or a list of dictionaries. */
  datatype Lookup = Absent | Single(record: ResultRecord) | Many(records: seq<ResultRecord>)

  /** The shape `from_code5` returns: a single match is unwrapped. */
  function Unwrap(l: seq<ResultRecord>): (r: Lookup)
    ensures r == Absent <==> l == []
    ensures r.Single? <==> |l| == 1
    ensures r.Single? ==> r.record == l[0]
    ensures r.Many? ==> |l| >= 2 && r.records == l
  {
    if |l| == 0 then Absent else if |l| == 1 then Single(l[0]) else Many(l)
  }

  /** The shape `from_code7` and `from_addr` return for candidates: a list,
      even of one element. */
  function ListOrAbsent(l: seq<ResultRecord>): (r: Lookup)
    ensures r == Absent <==> l == []
    ensures !r.Single?
    ensures r.Many? ==> r.records == l
  {
    if |l| == 0 then Absent else Many(l)
  }

  /** The results of the general records whose old 5-digit code is `q`, in table order. */
  function Code5Matches(u: Helpers, general: seq<seq<string>>, q: string): seq<ResultRecord>
    requires WellFormed(general)
  {
    Matches(u, GeneralTable(general), Code5Is(q))
  }

  /** `from_code5` */
  function Code5Lookup(u: Helpers, general: seq<seq<string>>, code5: string): Lookup
    requires WellFormed(general)
  {
    Unwrap(Code5Matches(u, general, NormalizePostalCode(code5)))
  }

  /** The result of the first large-account record passing `t`, if any. */
  function LargeFirst(u: Helpers, large: seq<seq<string>>, t: LargeTest): Option<ResultRecord>
    requires WellFormed(large)
  {
    var lt := LargeTable(large);
    var k := FirstLarge(lt, t);
    if k < |lt| then Some(ConvertResult(u, Large(lt[k]))) else None
  }

  /** The general-table half of `from_code7` and `from_addr`: the first record
      passing `exact`, else the list of the records passing `candidate`. */
  function GeneralFirstOrMatches(u: Helpers, general: seq<seq<string>>, exact: GeneralTest, candidate: GeneralTest): Lookup
    requires WellFormed(general)
  {
    var gt := GeneralTable(general);
    var e := FirstGeneral(gt, exact);
    if e < |gt| then Single(GeneralResult(u, gt[e]))
    else ListOrAbsent(Matches(u, gt, candidate))
  }

  /** `from_code7`: the first large-account record with the code; else the first
      general record with the code; else every general record whose code begins
      with it. */
  function Code7Lookup(u: Helpers, large: seq<seq<string>>, general: seq<seq<string>>, code7: string): Lookup
    requires WellFormed(large) && WellFormed(general)
  {
    var q := NormalizePostalCode(code7);
    match LargeFirst(u, large, LargeCode7Is(q))
    case Some(r) => Single(r)
    case None => GeneralFirstOrMatches(u, general, Code7Is(q), Code7Search(u, q))
  }

  /** `from_addr`: the first large-account record whose normalised address is
      the query; else the first general record whose address is found in the
      query; else every general record whose address contains the query. */
  function AddrLookup(u: Helpers, large: seq<seq<string>>, general: seq<seq<string>>, addr: string): Lookup
    requires WellFormed(large) && WellFormed(general)
  {
    var a := NormalizeAddress(u, addr);
    match LargeFirst(u, large, LargeAddressIs(u, a))
    case Some(r) => Single(r)
    case None => GeneralFirstOrMatches(u, general, AddressInQuery(u, a), QueryInAddress(u, a))
  }

  /** `from_code5`, as the source scans the general table. */
  method FromCode5(u: Helpers, general: seq<seq<string>>, code5: string) returns (res: Lookup)
    requires WellFormed(general)
    ensures res == Code5Lookup(u, general, code5)
  {
    var q := NormalizePostalCode(code5);
    ghost var gt := GeneralTable(general);
    var matched: seq<ResultRecord> := [];
    for i := 0 to |general|
      invariant matched == Matches(u, gt[..i], Code5Is(q))
    {
      var data := ParseGeneral(general[i]);
      MatchesStep(u, gt, i, Code5Is(q));
      if q == data.code5 {
        matched := matched + [ConvertResult(u, General(data))];
      }
    }
    assert gt[..|general|] == gt;
    if |matched| == 0 {
      return Absent;
    } else if |matched| == 1 {
      return Single(matched[0]);
    }
    return Many(matched);
  }

  /** The first loop of `from_code7`: the large-account record with the code. */
  method LargeByCode7(u: Helpers, large: seq<seq<string>>, q: string) returns (hit: Option<ResultRecord>)
    requires WellFormed(large)
    ensures hit == LargeFirst(u, large, LargeCode7Is(q))
  {
    ghost var lt := LargeTable(large);
    for i := 0 to |large|
      invariant forall j :: 0 <= j < i ==> lt[j].code7 != q
    {
      var data := ParseLarge(large[i]);
      if q == data.code7 {
        FirstLargeAt(lt, LargeCode7Is(q), i);
        return Some(ConvertResult(u, Large(data)));
      }
    }
    FirstLargeAt(lt, LargeCode7Is(q), |lt|);
    return None;
  }

  /** The second loop of `from_code7`: a general record with the code is
      returned at once; records whose code passes `search(code7, "^" + q)`
      are collected. */
  method GeneralByCode7(u: Helpers, general: seq<seq<string>>, q: string) returns (res: Lookup)
    requires WellFormed(general)
    ensures res == GeneralFirstOrMatches(u, general, Code7Is(q), Code7Search(u, q))
  {
    ghost var gt := GeneralTable(general);
    var matched: seq<ResultRecord> := [];
    for i := 0 to |general|
      invariant forall j :: 0 <= j < i ==> gt[j].code7 != q
      invariant matched == Matches(u, gt[..i], Code7Search(u, q))
    {
      var data := ParseGeneral(general[i]);
      MatchesStep(u, gt, i, Code7Search(u, q));
      if q == data.code7 {
        FirstGeneralAt(gt, Code7Is(q), i);
        return Single(ConvertResult(u, General(data)));
      } else if u.search(data.code7, "^" + q) {
        matched := matched + [ConvertResult(u, General(data))];
      }
    }
    assert gt[..|general|] == gt;
    FirstGeneralAt(gt, Code7Is(q), |gt|);
    if |matched| == 0 {
      return Absent;
    }
    return Many(matched);
  }

  /** `from_code7`: the large-account table first, then the general table. */
  method FromCode7(u: Helpers, large: seq<seq<string>>, general: seq<seq<string>>, code7: string)
    returns (res: Lookup)
    requires WellFormed(large) && WellFormed(general)
    ensures res == Code7Lookup(u, large, general, code7)
  {
    var q := NormalizePostalCode(code7);
    var hit := LargeByCode7(u, large, q);
    if hit.Some? {
      return Single(hit.value);
    }
    res := GeneralByCode7(u, general, q);
  }

  /** The first loop of `from_addr`: the large-account record whose full
      address, normalised, is the query. */
  method LargeByAddress(u: Helpers, large: seq<seq<string>>, a: string) returns (hit: Option<ResultRecord>)
    requires WellFormed(large)
    ensures hit == LargeFirst(u, large, LargeAddressIs(u, a))
  {
    ghost var lt := LargeTable(large);
    for i := 0 to |large|
      invariant forall j :: 0 <= j < i ==> NormalizeAddress(u, LargeAddress(lt[j])) != a
    {
      var data := ParseLarge(large[i]);
      var address := NormalizeAddress(u, LargeAddress(data));
      if address == a {
        FirstLargeAt(lt, LargeAddressIs(u, a), i);
        return Some(ConvertResult(u, Large(data)));
      }
    }
    FirstLargeAt(lt, LargeAddressIs(u, a), |lt|);
    return None;
  }

  /** The second loop of `from_addr`: a general record whose address is found
      in the query is returned at once; records whose address contains the
      query are collected. */
  method GeneralByAddress(u: Helpers, general: seq<seq<string>>, a: string) returns (res: Lookup)
    requires WellFormed(general)
    ensures res == GeneralFirstOrMatches(u, general, AddressInQuery(u, a), QueryInAddress(u, a))
  {
    ghost var gt := GeneralTable(general);
    var matched: seq<ResultRecord> := [];
    for i := 0 to |general|
      invariant forall j :: 0 <= j < i ==> !GeneralHolds(AddressInQuery(u, a), gt[j])
      invariant matched == Matches(u, gt[..i], QueryInAddress(u, a))
    {
      var data := ParseGeneral(general[i]);
      var address := GeneralAddress(data);
      MatchesStep(u, gt, i, QueryInAddress(u, a));
      if u.search(a, address) {
        FirstGeneralAt(gt, AddressInQuery(u, a), i);
        return Single(ConvertResult(u, General(data)));
      } else if u.search(address, a) {
        matched := matched + [ConvertResult(u, General(data))];
      }
    }
    assert gt[..|general|] == gt;
    FirstGeneralAt(gt, AddressInQuery(u, a), |gt|);
    if |matched| == 0 {
      return Absent;
    }
    return Many(matched);
  }

  /** `from_addr`: the large-account table first, then the general table. */
  method FromAddr(u: Helpers, large: seq<seq<string>>, general: seq<seq<string>>, addr: string)
    returns (res: Lookup)
    requires WellFormed(large) && WellFormed(general)
    ensures res == AddrLookup(u, large, general, addr)
  {
    var a := NormalizeAddress(u, addr);
    var hit := LargeByAddress(u, large, a);
    if hit.Some? {
      return Single(hit.value);
    }
    res := GeneralByAddress(u, general, a);
  }

  /** `main(code7, addr, code5)`: the first non-empty argument, in the order
      code7, addr, code5, chooses the one lookup that runs; with all three
      empty the result is None. Only the tables the chosen lookup reads need
      nine columns. */
  method Query(u: Helpers, large: seq<seq<string>>, general: seq<seq<string>>,
               code7: string, addr: string, code5: string) returns (data: Lookup)
    requires code7 != "" || addr != "" ==> WellFormed(large)
    requires code7 != "" || addr != "" || code5 != "" ==> WellFormed(general)
    ensures code7 != "" ==> data == Code7Lookup(u, large, general, code7)
    ensures code7 == "" && addr != "" ==> data == AddrLookup(u, large, general, addr)
    ensures code7 == "" && addr == "" && code5 != "" ==> data == Code5Lookup(u, general, code5)
    ensures code7 == "" && addr == "" && code5 == "" ==> data == Absent
  {
    if code7 != "" {
      data := FromCode7(u, large, general, code7);
    } else if addr != "" {
      data := FromAddr(u, large, general, addr);
    } else if code5 != "" {
      data := FromCode5(u, general, code5);
    } else {
      data := Absent;
    }
  }
}
