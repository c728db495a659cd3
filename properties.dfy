/**
 What the three lookups promise their callers, stated over the specification
 functions of module PostalCode: when the result is None, when it is one
 dictionary and when a list, which table wins, and the order of a list.
 */
module LookupProperties {
  import opened Util
  import opened Normalize
  import opened Records
  import opened Tables
  import opened PostalCode

  // ---- from_code5 ----

  /** `from_code5` returns None exactly when no general record carries the
      normalised code. */
  lemma Code5AbsentIff(u: Helpers, general: seq<seq<string>>, code5: string)
    requires WellFormed(general)
    ensures var q, gt := NormalizePostalCode(code5), GeneralTable(general);
            Code5Lookup(u, general, code5) == Absent <==> forall i :: 0 <= i < |gt| ==> gt[i].code5 != q
  {
    MatchesEmpty(u, GeneralTable(general), Code5Is(NormalizePostalCode(code5)));
  }

  /** With exactly one general record carrying the code, `from_code5` returns
      that record's dictionary and not a list. */
  lemma Code5SingleMatch(u: Helpers, general: seq<seq<string>>, code5: string, k: nat)
    requires WellFormed(general)
    requires var q, gt := NormalizePostalCode(code5), GeneralTable(general);
             k < |gt| && gt[k].code5 == q
             && forall j :: 0 <= j < |gt| && j != k ==> gt[j].code5 != q
    ensures Code5Lookup(u, general, code5) == Single(GeneralResult(u, GeneralTable(general)[k]))
  {
    MatchesUnique(u, GeneralTable(general), k, Code5Is(NormalizePostalCode(code5)));
  }

  /** With two general records carrying the code, `from_code5` returns a list
      of at least two dictionaries. */
  lemma Code5ManyMatches(u: Helpers, general: seq<seq<string>>, code5: string, i: nat, j: nat)
    requires WellFormed(general)
    requires var q, gt := NormalizePostalCode(code5), GeneralTable(general);
             i < j < |gt| && gt[i].code5 == q && gt[j].code5 == q
    ensures var r := Code5Lookup(u, general, code5); r.Many? && |r.records| >= 2
  {
    var q, gt := NormalizePostalCode(code5), GeneralTable(general);
    var t := Code5Is(q);
    var front, back := gt[..j], gt[j..];
    assert gt == front + back;
    MatchesConcat(u, front, back, t);
    assert front[i] == gt[i] && back[0] == gt[j];
    MatchesEmpty(u, front, t);
    MatchesEmpty(u, back, t);
  }

  /** A dictionary is in the result of `from_code5` exactly when it is the
      conversion of a general record carrying the code. */
  lemma Code5Members(u: Helpers, general: seq<seq<string>>, code5: string, r: ResultRecord)
    requires WellFormed(general)
    ensures var q, gt := NormalizePostalCode(code5), GeneralTable(general);
            r in Code5Matches(u, general, q)
            <==> exists i :: 0 <= i < |gt| && gt[i].code5 == q && GeneralResult(u, gt[i]) == r
  {
    var q, gt := NormalizePostalCode(code5), GeneralTable(general);
    MatchesMembers(u, gt, Code5Is(q), r);
    assert forall i :: 0 <= i < |gt| ==> (GeneralHolds(Code5Is(q), gt[i]) <==> gt[i].code5 == q);
  }

  /** The matches of a table read in two parts are those of the first part
      followed by those of the second: the list keeps file order. */
  lemma Code5TableOrder(u: Helpers, first: seq<seq<string>>, second: seq<seq<string>>, q: string)
    requires WellFormed(first) && WellFormed(second)
    ensures WellFormed(first + second)
    ensures Code5Matches(u, first + second, q) == Code5Matches(u, first, q) + Code5Matches(u, second, q)
  {
    assert WellFormed(first + second) by {
      forall i | 0 <= i < |first + second| ensures HasColumns((first + second)[i]) {
        if i >= |first| { assert (first + second)[i] == second[i - |first|]; }
      }
    }
    assert GeneralTable(first + second) == GeneralTable(first) + GeneralTable(second);
    MatchesConcat(u, GeneralTable(first), GeneralTable(second), Code5Is(q));
  }

  // ---- from_code7 ----

  /** The first large-account record with the code decides `from_code7`,
      whatever the general table holds. */
  lemma Code7LargeWins(u: Helpers, large: seq<seq<string>>, general: seq<seq<string>>, code7: string, k: nat)
    requires WellFormed(large) && WellFormed(general)
    requires var q, lt := NormalizePostalCode(code7), LargeTable(large);
             k < |lt| && lt[k].code7 == q && forall j :: 0 <= j < k ==> lt[j].code7 != q
    ensures Code7Lookup(u, large, general, code7) == Single(ConvertResult(u, Large(LargeTable(large)[k])))
  {
    FirstLargeAt(LargeTable(large), LargeCode7Is(NormalizePostalCode(code7)), k);
  }

  /** Without such a large-account record, the first general record with the
      code decides, however many records begin with it. */
  lemma Code7ExactBeatsPrefix(u: Helpers, large: seq<seq<string>>, general: seq<seq<string>>, code7: string, k: nat)
    requires WellFormed(large) && WellFormed(general)
    requires var q, lt, gt := NormalizePostalCode(code7), LargeTable(large), GeneralTable(general);
             (forall j :: 0 <= j < |lt| ==> lt[j].code7 != q)
             && k < |gt| && gt[k].code7 == q && forall j :: 0 <= j < k ==> gt[j].code7 != q
    ensures Code7Lookup(u, large, general, code7) == Single(GeneralResult(u, GeneralTable(general)[k]))
  {
    var q, lt := NormalizePostalCode(code7), LargeTable(large);
    FirstLargeAt(lt, LargeCode7Is(q), |lt|);
    FirstGeneralAt(GeneralTable(general), Code7Is(q), k);
  }

  /** When the search anchors `^` as a regular expression does (the match is
      a prefix test), and no record carries the code exactly, `from_code7`
      returns the general records whose code begins with it, or None. */
  lemma Code7PrefixCandidates(u: Helpers, large: seq<seq<string>>, general: seq<seq<string>>, code7: string)
    requires WellFormed(large) && WellFormed(general)
    requires var q := NormalizePostalCode(code7); forall t :: u.search(t, "^" + q) <==> q <= t
    requires var q, lt, gt := NormalizePostalCode(code7), LargeTable(large), GeneralTable(general);
             (forall j :: 0 <= j < |lt| ==> lt[j].code7 != q)
             && (forall j :: 0 <= j < |gt| ==> gt[j].code7 != q)
    ensures var q := NormalizePostalCode(code7);
            Code7Lookup(u, large, general, code7)
            == ListOrAbsent(Matches(u, GeneralTable(general), Code7StartsWith(q)))
  {
    var q, lt, gt := NormalizePostalCode(code7), LargeTable(large), GeneralTable(general);
    FirstLargeAt(lt, LargeCode7Is(q), |lt|);
    FirstGeneralAt(gt, Code7Is(q), |gt|);
    MatchesCongruent(u, gt, Code7Search(u, q), Code7StartsWith(q));
  }

  /** One candidate and no exact match: unlike `from_code5`, `from_code7`
      returns a list of one dictionary. */
  lemma Code7SingleCandidateIsList(u: Helpers, large: seq<seq<string>>, general: seq<seq<string>>, code7: string, k: nat)
    requires WellFormed(large) && WellFormed(general)
    requires var q, lt, gt := NormalizePostalCode(code7), LargeTable(large), GeneralTable(general);
             (forall j :: 0 <= j < |lt| ==> lt[j].code7 != q)
             && (forall j :: 0 <= j < |gt| ==> gt[j].code7 != q)
             && k < |gt| && u.search(gt[k].code7, "^" + q)
             && forall j :: 0 <= j < |gt| && j != k ==> !u.search(gt[j].code7, "^" + q)
    ensures Code7Lookup(u, large, general, code7) == Many([GeneralResult(u, GeneralTable(general)[k])])
  {
    var q, lt, gt := NormalizePostalCode(code7), LargeTable(large), GeneralTable(general);
    FirstLargeAt(lt, LargeCode7Is(q), |lt|);
    FirstGeneralAt(gt, Code7Is(q), |gt|);
    MatchesUnique(u, gt, k, Code7Search(u, q));
  }

  // ---- from_addr ----

  /** The first large-account record whose full address normalises to the
      normalised query decides `from_addr`, whatever the general table holds. */
  lemma AddrLargeWins(u: Helpers, large: seq<seq<string>>, general: seq<seq<string>>, addr: string, k: nat)
    requires WellFormed(large) && WellFormed(general)
    requires var a, lt := NormalizeAddress(u, addr), LargeTable(large);
             k < |lt| && NormalizeAddress(u, LargeAddress(lt[k])) == a
             && forall j :: 0 <= j < k ==> NormalizeAddress(u, LargeAddress(lt[j])) != a
    ensures AddrLookup(u, large, general, addr) == Single(ConvertResult(u, Large(LargeTable(large)[k])))
  {
    FirstLargeAt(LargeTable(large), LargeAddressIs(u, NormalizeAddress(u, addr)), k);
  }

  /** Without such a record, the first general record whose address is found
      in the query decides, before any record whose address contains it. */
  lemma AddrEnclosingBeatsCandidates(u: Helpers, large: seq<seq<string>>, general: seq<seq<string>>, addr: string, k: nat)
    requires WellFormed(large) && WellFormed(general)
    requires var a, lt, gt := NormalizeAddress(u, addr), LargeTable(large), GeneralTable(general);
             (forall j :: 0 <= j < |lt| ==> NormalizeAddress(u, LargeAddress(lt[j])) != a)
             && k < |gt| && u.search(a, GeneralAddress(gt[k]))
             && forall j :: 0 <= j < k ==> !u.search(a, GeneralAddress(gt[j]))
    ensures AddrLookup(u, large, general, addr) == Single(GeneralResult(u, GeneralTable(general)[k]))
  {
    var a, lt := NormalizeAddress(u, addr), LargeTable(large);
    FirstLargeAt(lt, LargeAddressIs(u, a), |lt|);
    FirstGeneralAt(GeneralTable(general), AddressInQuery(u, a), k);
  }

  /** Without a record of either kind, `from_addr` returns the list of the
      general records whose address contains the query, or None. */
  lemma AddrNoEnclosing(u: Helpers, large: seq<seq<string>>, general: seq<seq<string>>, addr: string)
    requires WellFormed(large) && WellFormed(general)
    requires var a, lt, gt := NormalizeAddress(u, addr), LargeTable(large), GeneralTable(general);
             (forall j :: 0 <= j < |lt| ==> NormalizeAddress(u, LargeAddress(lt[j])) != a)
             && (forall j :: 0 <= j < |gt| ==> !u.search(a, GeneralAddress(gt[j])))
    ensures AddrLookup(u, large, general, addr)
            == ListOrAbsent(Matches(u, GeneralTable(general), QueryInAddress(u, NormalizeAddress(u, addr))))
  {
    var a, lt, gt := NormalizeAddress(u, addr), LargeTable(large), GeneralTable(general);
    FirstLargeAt(lt, LargeAddressIs(u, a), |lt|);
    FirstGeneralAt(gt, AddressInQuery(u, a), |gt|);
  }

  /** Otherwise the result is never a single dictionary, and it is None
      exactly when no general address contains the query. */
  lemma AddrCandidatesAbsent(u: Helpers, large: seq<seq<string>>, general: seq<seq<string>>, addr: string)
    requires WellFormed(large) && WellFormed(general)
    requires var a, lt, gt := NormalizeAddress(u, addr), LargeTable(large), GeneralTable(general);
             (forall j :: 0 <= j < |lt| ==> NormalizeAddress(u, LargeAddress(lt[j])) != a)
             && (forall j :: 0 <= j < |gt| ==> !u.search(a, GeneralAddress(gt[j])))
    ensures var a, gt := NormalizeAddress(u, addr), GeneralTable(general);
            var res := AddrLookup(u, large, general, addr);
            !res.Single?
            && (res == Absent <==> forall j :: 0 <= j < |gt| ==> !u.search(GeneralAddress(gt[j]), a))
  {
    AddrNoEnclosing(u, large, general, addr);
    MatchesEmpty(u, GeneralTable(general), QueryInAddress(u, NormalizeAddress(u, addr)));
  }

  /** Otherwise a dictionary is in the returned list exactly when it is the
      conversion of a general record whose address contains the query. */
  lemma AddrCandidateMembers(u: Helpers, large: seq<seq<string>>, general: seq<seq<string>>, addr: string, r: ResultRecord)
    requires WellFormed(large) && WellFormed(general)
    requires var a, lt, gt := NormalizeAddress(u, addr), LargeTable(large), GeneralTable(general);
             (forall j :: 0 <= j < |lt| ==> NormalizeAddress(u, LargeAddress(lt[j])) != a)
             && (forall j :: 0 <= j < |gt| ==> !u.search(a, GeneralAddress(gt[j])))
    requires AddrLookup(u, large, general, addr).Many?
    ensures var a, gt := NormalizeAddress(u, addr), GeneralTable(general);
            r in AddrLookup(u, large, general, addr).records
            <==> exists i :: 0 <= i < |gt| && u.search(GeneralAddress(gt[i]), a) && GeneralResult(u, gt[i]) == r
  {
    AddrNoEnclosing(u, large, general, addr);
    MatchesMembers(u, GeneralTable(general), QueryInAddress(u, NormalizeAddress(u, addr)), r);
  }
}
