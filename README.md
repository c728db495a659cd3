# postalcode: a Dafny model of the Japanese postal-code lookup engine

`postalcode.py` answers three kinds of question against two tables published
by Japan Post: the general table KEN_ALL, one row per town area, and the
large-account table JIGYOSYO, one row per office with its own code.

- `from_code5` looks up an old 5-digit code.
- `from_code7` looks up a 7-digit code, or a prefix of one.
- `from_addr` looks up an address.
- `main` picks one of the three, from the first argument that is not empty.

Each lookup:
- normalises the query;
- scans the rows in file order;
- reads every row into a named record (`csv_to_dict`, `csv_to_dict_jigyosyo`);
- converts the records that match into one result shape (`convert_result_dict`).

The result is None, a single dictionary, or a list of dictionaries.

The model is split into modules:

| file | module | contents |
|---|---|---|
| `text.dfy` | `Text` | Python's `str.strip()` and `str.replace()` on strings, with their properties |
| `util.dfy` | `Util` | the two `util` helpers the engine calls, passed in as functions; the trailing-hyphen substitution |
| `normalize.dfy` | `Normalize` | `normalize_postalcode`, `normalize_address`, `normalize_office_name` |
| `records.dfy` | `Records` | the raw rows and the records; `csv_to_dict`, `csv_to_dict_jigyosyo`, `convert_result_dict` |
| `tables.dfy` | `Tables` | the two tables, the per-record tests of the scans, the first-match and all-matches specifications |
| `postalcode.dfy` | `PostalCode` | the result shapes, the specification of every lookup, the scanning methods, `main` |
| `properties.dfy` | `LookupProperties` | what each lookup promises: when it returns None, one record or a list, and which table wins |

**Pure and imperative parts**
- The normalisers, the adapters and the lookup specifications are functions.
- Every loop of the source is a method. Its loop invariants tie the state of the scan to the specification, and its `ensures` states that the method returns exactly what the specification function gives.
- `from_code7` and `from_addr` each have two loops, one per table. Each loop is its own method (`LargeByCode7` and `GeneralByCode7`, `LargeByAddress` and `GeneralByAddress`), and `FromCode7` and `FromAddr` call the two in sequence.
- `main` is the method `Query`, which calls the lookup methods.
- `main(code7, addr='', code5='')` (postalcode.py:248) may be called without `addr` or `code5`. `Query` takes all three arguments, and an omitted one is passed as `""`, its default.

**Inputs and outside helpers**
- The tables are parameters of type `seq<seq<string>>`: one sequence of columns per CSV row.
- `util.to_half_width` and `util.match(target, pattern)` are fields of a `Helpers` value that every operation takes. Nothing is assumed about them, except in two lemmas whose preconditions state the assumption: `Code7PrefixCandidates` (that `search` with `"^" + q` is a prefix test) and `OfficeNameExample` (the value of `toHalfWidth` on the sample office name).

## Model

| member | source | states |
|---|---|---|
| Text.StripInfix | postalcode.py:216 | `strip()` returns the one infix of the input that has only whitespace on either side and neither begins nor ends with whitespace |
| Text.StripTrimmed | postalcode.py:168 | `strip()` leaves text without surrounding whitespace unchanged |
| Text.ReplaceAllRemovesChar | postalcode.py:217 | replacing a one-character pattern by text without that character leaves none of it |
| Text.ReplaceAllAbsent | postalcode.py:234 | `replace` returns the text unchanged when the pattern does not occur in it |
| Text.ReplaceAllShrinks | postalcode.py:217 | a replacement no longer than its pattern never lengthens the text |
| Text.ReplaceAllCharConcat | postalcode.py:223 | a one-character pattern is replaced in each part of a concatenation independently |
| Text.ReplaceAllAt | postalcode.py:234 | the first occurrence after a stretch that lacks the pattern's first character is the one replaced |
| Text.ReplaceAllSplit | postalcode.py:224 | when no occurrence of the pattern straddles the boundary of a concatenation, each part is rewritten on its own |
| Text.ReplaceAllAround | postalcode.py:224 | an occurrence of a pattern whose first character does not recur in it is replaced whole, and the texts on either side are rewritten on their own |
| Text.ReplaceAllJoin | postalcode.py:224 | joining two texts creates no new occurrence of a two-character pattern unless the join spells it |
| Util.DropTrailingHyphen | postalcode.py:228 | `util.replace(s, '-$', '')` removes one final hyphen when there is one; otherwise the result does not end in a hyphen |
| Normalize.PostalCodeNormalized | postalcode.py:215-218 | the normalised code holds no hyphen and is never longer than the input; a code without hyphens or surrounding whitespace comes back unchanged |
| Normalize.PostalCodeNotIdempotent | postalcode.py:215-218 | the code strips before it removes hyphens, so `"- 1"` gives `" 1"`, and only a second pass gives `"1"` |
| Normalize.AddressTokensClean | postalcode.py:223-227 | after the token rewrites no space, no 番 and no 号 is left |
| Normalize.AddressNormalized | postalcode.py:221-229 | a normalised address holds no space, no 番 and no 号; of the hyphens the rewrites leave at the end, exactly one is dropped |
| Normalize.BanchiStepDeletesWhole | postalcode.py:224 | the 番地 rewrite deletes a written 番地 whole, whatever surrounds it, and rewrites the text on either side on its own |
| Normalize.BanchiRemovedWhole | postalcode.py:223-227 | 番地 vanishes as a whole, exactly as if it had not been written, unless the text before it (spaces removed) ends in 番 while the text after it begins with 地 |
| Normalize.BanchiAfterBan | postalcode.py:224-227 | that exception is real: `"番番地地"` normalises to `"-地"`, whereas `"番" + "地"` normalises to `""` |
| Normalize.BanchiAfterEarlierBan | postalcode.py:223-227 | a 番 earlier in the name, as in `"六番町1番地"`, does not stop the 番地 from vanishing: the tokens are those of `"六番町1"` |
| Normalize.AddressNotIdempotent | postalcode.py:221-229 | `"1丁目番"` normalises to `"1-"`, and `"1-"` normalises to `"1"` |
| Normalize.HanedaAddress | postalcode.py:223-228 | `"東京都大田区羽田空港1丁目1番1号"` normalises to `"東京都大田区羽田空港1-1-1"` |
| Normalize.OfficeNameNormalized | postalcode.py:232-235 | the office name is never longer than its half-width form, and a name without a space before 株式会社 is only converted to half width |
| Normalize.OfficeNameCollapses | postalcode.py:234 | the first `" 株式会社"` in a name loses its space, and the rest of the name is rewritten the same way |
| Normalize.OfficeNameInnerSpace | postalcode.py:234 | a space elsewhere in the name stays: `"NTT 東日本 株式会社"` becomes `"NTT 東日本株式会社"` |
| Normalize.OfficeNameExample | postalcode.py:75 | when the half-width helper turns the full-width space into a space, the sample office name `日本システムウエア　株式会社` becomes `日本システムウエア株式会社` |
| Records.GeneralColumnsOfRow | postalcode.py:165-177 | a general record consists of the row's first nine columns in order, with column 1 (the 5-digit code) stripped |
| Records.LargeColumnsOfRow | postalcode.py:180-192 | a large-account record consists of the row's first nine columns in order, with column 8 (the 5-digit code) stripped |
| Records.GeneralRoundTrip | postalcode.py:165-177 | writing a general record out as a row and reading it back gives the record, when its code holds no surrounding whitespace |
| Records.LargeRoundTrip | postalcode.py:180-192 | the same for a large-account record |
| Records.ResultFields | postalcode.py:196-212 | the six common fields are copied; street_address is present, half-width, exactly when the source has it; office_name is present, normalised, exactly when the source has office_name_kanji |
| Records.ResultKeys | postalcode.py:196-212 | a general-table result has exactly the six common keys, and a large-account result has all eight |
| Tables.FirstGeneral | postalcode.py:113-119 | the index of the first general record that passes a test: none before it passes, and it passes unless it is the end |
| Tables.FirstLarge | postalcode.py:104-109 | the same for the large-account table |
| Tables.FirstGeneralAt | postalcode.py:113-119 | the first passing index is the one before which no record passes |
| Tables.MatchesStep | postalcode.py:84-90 | one more row extends the collected list by that row's result exactly when the row passes |
| Tables.MatchesConcat | postalcode.py:84-90 | scanning two tables one after the other concatenates the lists, so the list keeps table order |
| Tables.MatchesEmpty | postalcode.py:92-93 | the collected list is empty exactly when no record passes |
| Tables.MatchesMembers | postalcode.py:84-90 | a result is in the list exactly when a passing record converts to it |
| Tables.MatchesUnique | postalcode.py:94-95 | when exactly one record passes, the list holds only its result |
| Tables.MatchesCongruent | postalcode.py:120-122 | two tests that agree on every record collect the same list |
| PostalCode.Unwrap | postalcode.py:92-97 | `from_code5`'s shape: None for no match, the record for one match, the list for two or more |
| PostalCode.ListOrAbsent | postalcode.py:124-127 | the shape of `from_code7` and `from_addr`: None for an empty list, otherwise the list, even with one element |
| PostalCode.FromCode5 | postalcode.py:78-97 | the scan returns the specification `Code5Lookup`: the unwrapped list of general records whose stripped code5 equals the normalised query |
| PostalCode.LargeByCode7 | postalcode.py:103-109 | the first scan of `from_code7` returns the first large-account record whose code7 equals the query, or nothing |
| PostalCode.GeneralByCode7 | postalcode.py:111-127 | the second scan returns the first general record with that exact code and ignores the candidates already collected; otherwise it returns the table-ordered list of records for which `match(code7, '^' + q)` holds, or None |
| PostalCode.FromCode7 | postalcode.py:100-127 | `from_code7` returns the specification `Code7Lookup`: the large-account table first, then the general table |
| PostalCode.LargeByAddress | postalcode.py:133-142 | the first scan of `from_addr` returns the first large-account record whose pref+city+town+street, normalised, equals the normalised query, or nothing |
| PostalCode.GeneralByAddress | postalcode.py:144-162 | the second scan returns the first general record whose address (not normalised) is found in the query; otherwise it returns the list of records whose address contains the query, or None |
| PostalCode.FromAddr | postalcode.py:130-162 | `from_addr` returns the specification `AddrLookup` |
| PostalCode.Query | postalcode.py:248-258 | `main` runs the code7 lookup when code7 is given; otherwise the address lookup when addr is given; otherwise the code5 lookup when code5 is given; otherwise it returns None |
| LookupProperties.Code5AbsentIff | postalcode.py:78-93 | `from_code5` returns None exactly when no general record has the normalised code |
| LookupProperties.Code5SingleMatch | postalcode.py:94-95 | with exactly one matching record, `from_code5` returns that record's dictionary, not a list |
| LookupProperties.Code5ManyMatches | postalcode.py:97 | with two matching records, `from_code5` returns a list of at least two |
| LookupProperties.Code5Members | postalcode.py:84-90 | a dictionary is among the matches exactly when it is the conversion of a general record that has the code |
| LookupProperties.Code5TableOrder | postalcode.py:84-90 | the matches of a table read in two parts are the first part's followed by the second's |
| LookupProperties.Code7LargeWins | postalcode.py:103-109 | the first large-account record with the code decides `from_code7`, whatever the general table holds |
| LookupProperties.Code7ExactBeatsPrefix | postalcode.py:113-119 | with no such large-account record, the first general record with the exact code decides, however many prefix matches precede it |
| LookupProperties.Code7PrefixCandidates | postalcode.py:120-127 | when `match(t, '^' + q)` is exactly the test "q is a prefix of t" and no record has the exact code, the result is the list of general records whose code begins with the query, or None |
| LookupProperties.Code7SingleCandidateIsList | postalcode.py:124-127 | one prefix match and no exact match gives a list of one, unlike `from_code5` |
| LookupProperties.AddrLargeWins | postalcode.py:133-142 | the first large-account record whose normalised full address equals the normalised query decides `from_addr`, whatever the general table holds |
| LookupProperties.AddrEnclosingBeatsCandidates | postalcode.py:144-154 | otherwise the first general record whose address is found in the query decides |
| LookupProperties.AddrNoEnclosing | postalcode.py:144-162 | with neither kind of record, the result is the list of general records whose address contains the query, or None |
| LookupProperties.AddrCandidatesAbsent | postalcode.py:156-160 | in that case the result is never a single dictionary, and it is None exactly when no general address contains the query |
| LookupProperties.AddrCandidateMembers | postalcode.py:156-162 | in that case a dictionary is in the list exactly when it is the conversion of a general record whose address contains the query |

## Left out

- Reading the CSV files (`util.read_csv` at postalcode.py:81, 103, 111, 133, 144) and the file paths (postalcode.py:14-15). These are I/O; the tables are parameters instead. The model reads each table once per lookup, as the source does. The Shift-JIS decoding of the files is not modelled.
- The `sys.path` set-up and the import of `util` (postalcode.py:9-11).
- `webmain` (postalcode.py:238-245). It reads HTTP request parameters and sends the response, which is HTTP plumbing. It passes `code5, code7, addr` by position to `main`, which is declared as `main(code7, addr, code5)`. The model follows `main` as declared.
- The width table behind `util.to_half_width` is not part of this model; it is the function `toHalfWidth` of `Helpers`.
- The regular-expression semantics of `util.match` are not part of this model; it is the predicate `search` of `Helpers`.
- `util.replace` is modelled only for its one use, `'-$'`, as the removal of one final hyphen. Python's `$` also matches just before a final newline. So for an address ending in hyphen-newline, the source removes that hyphen and the model does not.
- Rows with fewer than nine columns make the source raise `IndexError`. The model instead requires every row of both tables to have nine columns (`WellFormed`). This asks slightly more than the source: a short row after an early return is never read by the source. `Query` asks for only the tables its chosen lookup reads: the large-account table when `code7` or `addr` is given, the general table when any argument is.
- `Text.ReplaceAll` requires a non-empty pattern. Every pattern the engine passes to `str.replace` is a non-empty constant; Python's behaviour for an empty pattern is not modelled.
- Idempotence of `normalize_postalcode` and `normalize_address` is not stated, because the code does not have it. The lemmas `PostalCodeNotIdempotent` and `AddressNotIdempotent` give counter-examples. A second pass can also find a 丁目 that appeared only when a 号 between 丁 and 目 was deleted.
- The kana columns and the columns after the ninth are carried in the records, but nothing downstream reads them, so no property is stated about them.
- Code7PrefixCandidates: `from_code7`'s candidate test is `util.match(code7, '^' + q)`, and the model keeps it as that call. The prefix reading holds only under the lemma's precondition: `search` with `"^" + q` must be a prefix test. This holds for a query without regular-expression metacharacters, such as digits only.
- Text.IsWhitespace follows Python's `str.isspace()` set, which is what `str.strip()` removes. Unicode properties beyond that list are not modelled.
