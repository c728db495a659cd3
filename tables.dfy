/**
 The two tables as the engine reads them, the tests its scans apply to a
 record, and the two shapes of scan: the first record that passes a test, and
 the table-ordered results of every record that passes one.
 */
module Tables {
  import opened Util
  import opened Normalize
  import opened Records

  /** Every row has the nine columns the adapters index. */
  predicate WellFormed(rows: seq<seq<string>>) {
    forall i :: 0 <= i < |rows| ==> HasColumns(rows[i])
  }

  /** The rows of KEN_ALL, each read by `csv_to_dict`. */
  function GeneralTable(rows: seq<seq<string>>): seq<GeneralRecord>
    requires WellFormed(rows)
  {
    seq(|rows|, i requires 0 <= i < |rows| => ParseGeneral(rows[i]))
  }

  /** The rows of JIGYOSYO, each read by `csv_to_dict_jigyosyo`. */
  function LargeTable(rows: seq<seq<string>>): seq<LargeRecord>
    requires WellFormed(rows)
  {
    seq(|rows|, i requires 0 <= i < |rows| => ParseLarge(rows[i]))
  }

  /** pref + city + town + street of a large-account record. */
  function LargeAddress(l: LargeRecord): string {
    l.prefKanji + l.cityKanji + l.townKanji + l.streetAddress
  }

  /** pref + city + town of a general record. */
  function GeneralAddress(g: GeneralRecord): string {
    g.prefKanji + g.cityKanji + g.townKanji
  }

  /** The tests applied to a general record. */
  datatype GeneralTest =
    | Code5Is(q: string)                          // code5 == q
    | Code7Is(q: string)                          // code7 == q
    | Code7Search(u: Helpers, q: string)          // util.match(code7, '^' + q)
    | Code7StartsWith(q: string)                  // q is a prefix of code7
    | AddressInQuery(u: Helpers, a: string)       // util.match(a, address)
    | QueryInAddress(u: Helpers, a: string)       // util.match(address, a)

  predicate GeneralHolds(t: GeneralTest, g: GeneralRecord) {
    match t
    case Code5Is(q) => g.code5 == q
    case Code7Is(q) => g.code7 == q
    case Code7Search(u, q) => u.search(g.code7, "^" + q)
    case Code7StartsWith(q) => q <= g.code7
    case AddressInQuery(u, a) => u.search(a, GeneralAddress(g))
    case QueryInAddress(u, a) => u.search(GeneralAddress(g), a)
  }

  /** The tests applied to a large-account record. */
  datatype LargeTest =
    | LargeCode7Is(q: string)                     // code7 == q
    | LargeAddressIs(u: Helpers, a: string)       // normalize_address(address) == a

  predicate LargeHolds(t: LargeTest, l: LargeRecord) {
    match t
    case LargeCode7Is(q) => l.code7 == q
    case LargeAddressIs(u, a) => NormalizeAddress(u, LargeAddress(l)) == a
  }

  /** The index of the first general record passing `t`, or `|gt|` when none does. */
  function FirstGeneral(gt: seq<GeneralRecord>, t: GeneralTest): (k: nat)
    ensures k <= |gt|
    ensures forall j :: 0 <= j < k ==> !GeneralHolds(t, gt[j])
    ensures k < |gt| ==> GeneralHolds(t, gt[k])
  {
    if gt == [] then 0
    else if GeneralHolds(t, gt[0]) then 0
    else 1 + FirstGeneral(gt[1..], t)
  }

  /** The index of the first large-account record passing `t`, or `|lt|` when none does. */
  function FirstLarge(lt: seq<LargeRecord>, t: LargeTest): (k: nat)
    ensures k <= |lt|
    ensures forall j :: 0 <= j < k ==> !LargeHolds(t, lt[j])
    ensures k < |lt| ==> LargeHolds(t, lt[k])
  {
    if lt == [] then 0
    else if LargeHolds(t, lt[0]) then 0
    else 1 + FirstLarge(lt[1..], t)
  }

  /** The first index passing `t` is the one before which none does: `k`
      itself passes, or `k` is the end of the table. */
  lemma FirstGeneralAt(gt: seq<GeneralRecord>, t: GeneralTest, k: nat)
    requires k <= |gt| && (k < |gt| ==> GeneralHolds(t, gt[k]))
    requires forall j :: 0 <= j < k ==> !GeneralHolds(t, gt[j])
    ensures FirstGeneral(gt, t) == k
  {
  }

  /** FirstGeneralAt for the large-account table. */
  lemma FirstLargeAt(lt: seq<LargeRecord>, t: LargeTest, k: nat)
    requires k <= |lt| && (k < |lt| ==> LargeHolds(t, lt[k]))
    requires forall j :: 0 <= j < k ==> !LargeHolds(t, lt[j])
    ensures FirstLarge(lt, t) == k
  {
  }

  /** The result record of a general record. */
  function GeneralResult(u: Helpers, g: GeneralRecord): ResultRecord {
    ConvertResult(u, General(g))
  }

  /** The result records of the general records passing `t`, in table order. */
  function Matches(u: Helpers, gt: seq<GeneralRecord>, t: GeneralTest): seq<ResultRecord> {
    if gt == [] then []
    else
      var last := gt[|gt| - 1];
      Matches(u, gt[..|gt| - 1], t) + (if GeneralHolds(t, last) then [GeneralResult(u, last)] else [])
  }

  /** One step of a scan: the list for a prefix one record longer. */
  lemma MatchesStep(u: Helpers, gt: seq<GeneralRecord>, i: nat, t: GeneralTest)
    requires i < |gt|
    ensures Matches(u, gt[..i + 1], t)
            == Matches(u, gt[..i], t) + (if GeneralHolds(t, gt[i]) then [GeneralResult(u, gt[i])] else [])
  {
    assert gt[..i + 1][..i] == gt[..i];
  }

  /** Scanning two tables one after the other concatenates the lists: the
      result keeps table order. */
  lemma {:induction false} MatchesConcat(u: Helpers, xs: seq<GeneralRecord>, ys: seq<GeneralRecord>, t: GeneralTest)
    ensures Matches(u, xs + ys, t) == Matches(u, xs, t) + Matches(u, ys, t)
    decreases |ys|
  {
    if ys == [] {
      assert xs + ys == xs;
    } else {
      var zs := xs + ys;
      var last := ys[|ys| - 1];
      assert zs[..|zs| - 1] == xs + ys[..|ys| - 1];
      MatchesConcat(u, xs, ys[..|ys| - 1], t);
      var tail := if GeneralHolds(t, last) then [GeneralResult(u, last)] else [];
      calc {
        Matches(u, zs, t);
        Matches(u, xs + ys[..|ys| - 1], t) + tail;
        (Matches(u, xs, t) + Matches(u, ys[..|ys| - 1], t)) + tail;
        Matches(u, xs, t) + (Matches(u, ys[..|ys| - 1], t) + tail);
      }
    }
  }

  /** A one-record table contributes its result exactly when the record passes. */
  lemma MatchesSingleton(u: Helpers, g: GeneralRecord, t: GeneralTest)
    ensures Matches(u, [g], t) == if GeneralHolds(t, g) then [GeneralResult(u, g)] else []
  {
    assert [g][..0] == [];
  }

  /** The list is empty exactly when no record passes. */
  lemma {:induction false} MatchesEmpty(u: Helpers, gt: seq<GeneralRecord>, t: GeneralTest)
    ensures Matches(u, gt, t) == [] <==> forall i :: 0 <= i < |gt| ==> !GeneralHolds(t, gt[i])
    decreases |gt|
  {
    if gt != [] {
      var init := gt[..|gt| - 1];
      MatchesEmpty(u, init, t);
      if forall i :: 0 <= i < |init| ==> !GeneralHolds(t, init[i]) {
        if !GeneralHolds(t, gt[|gt| - 1]) {
          forall i | 0 <= i < |gt| ensures !GeneralHolds(t, gt[i]) {
            if i < |init| { assert gt[i] == init[i]; }
          }
        }
      } else {
        var i :| 0 <= i < |init| && GeneralHolds(t, init[i]);
        assert gt[i] == init[i];
      }
    }
  }

  /** `r` is in the list exactly when some passing record converts to it. */
  lemma {:induction false} MatchesMembers(u: Helpers, gt: seq<GeneralRecord>, t: GeneralTest, r: ResultRecord)
    ensures r in Matches(u, gt, t)
            <==> exists i :: 0 <= i < |gt| && GeneralHolds(t, gt[i]) && GeneralResult(u, gt[i]) == r
    decreases |gt|
  {
    if gt != [] {
      var n := |gt| - 1;
      var init := gt[..n];
      MatchesMembers(u, init, t, r);
      if exists i :: 0 <= i < |init| && GeneralHolds(t, init[i]) && GeneralResult(u, init[i]) == r {
        var i :| 0 <= i < |init| && GeneralHolds(t, init[i]) && GeneralResult(u, init[i]) == r;
        assert gt[i] == init[i];
      }
      if exists i :: 0 <= i < |gt| && GeneralHolds(t, gt[i]) && GeneralResult(u, gt[i]) == r {
        var i :| 0 <= i < |gt| && GeneralHolds(t, gt[i]) && GeneralResult(u, gt[i]) == r;
        if i < n { assert init[i] == gt[i]; }
      }
    }
  }

  /** When `gt[k]` is the only passing record, the list is its result alone. */
  lemma MatchesUnique(u: Helpers, gt: seq<GeneralRecord>, k: nat, t: GeneralTest)
    requires k < |gt| && GeneralHolds(t, gt[k])
    requires forall j :: 0 <= j < |gt| && j != k ==> !GeneralHolds(t, gt[j])
    ensures Matches(u, gt, t) == [GeneralResult(u, gt[k])]
  {
    var before, after := gt[..k], gt[k + 1..];
    assert gt == before + [gt[k]] + after;
    forall j | 0 <= j < |before| ensures !GeneralHolds(t, before[j]) { assert before[j] == gt[j]; }
    forall j | 0 <= j < |after| ensures !GeneralHolds(t, after[j]) { assert after[j] == gt[k + 1 + j]; }
    MatchesEmpty(u, before, t);
    MatchesEmpty(u, after, t);
    MatchesConcat(u, before + [gt[k]], after, t);
    MatchesConcat(u, before, [gt[k]], t);
    MatchesSingleton(u, gt[k], t);
  }

  /** Two tests that agree on every record select the same list. */
  lemma {:induction false} MatchesCongruent(u: Helpers, gt: seq<GeneralRecord>, s: GeneralTest, t: GeneralTest)
    requires forall i :: 0 <= i < |gt| ==> (GeneralHolds(s, gt[i]) <==> GeneralHolds(t, gt[i]))
    ensures Matches(u, gt, s) == Matches(u, gt, t)
    decreases |gt|
  {
    if gt != [] {
      var init := gt[..|gt| - 1];
      forall i | 0 <= i < |init| ensures GeneralHolds(s, init[i]) <==> GeneralHolds(t, init[i]) {
        assert init[i] == gt[i];
      }
      MatchesCongruent(u, init, s, t);
    }
  }
}
