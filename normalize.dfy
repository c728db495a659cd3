/**
 The three normalisers of postalcode.py: ordered chains of string rewrites that
 bring postal codes, addresses and office names into a comparable form.
 */
module Normalize {
  import opened Text
  import opened Util

  /** `normalize_postalcode`: surrounding whitespace is stripped, then every
      hyphen is removed. */
  function NormalizePostalCode(code: string): string {
    ReplaceAll(Strip(code), "-", "")
  }

  /** The normalised code holds no hyphen and is never longer than the input;
      a code without hyphens or surrounding whitespace is returned as it is. */
  lemma PostalCodeNormalized(code: string)
    ensures '-' !in NormalizePostalCode(code)
    ensures |NormalizePostalCode(code)| <= |code|
    ensures '-' !in code && Trimmed(code) ==> NormalizePostalCode(code) == code
  {
    var stripped := Strip(code);
    StripInfix(code);
    ReplaceAllRemovesChar(stripped, "-", "");
    ReplaceAllShrinks(stripped, "-", "");
    PostalCodeKept(code);
  }

  lemma PostalCodeKept(code: string)
    ensures '-' !in code && Trimmed(code) ==> ReplaceAll(Strip(code), "-", "") == code
  {
    if '-' !in code && Trimmed(code) {
      StripTrimmed(code);
      ReplaceAllSkip(code, [], "-", "");
      assert code + [] == code;
    }
  }

  /** Stripping happens before the hyphens go, so whitespace that a hyphen
      shielded survives one pass and is only removed by a second one. */
  lemma PostalCodeNotIdempotent()
    ensures NormalizePostalCode("- 1") == " 1"
    ensures NormalizePostalCode(" 1") == "1"
  {
    StripTrimmed("- 1");
    ReplaceAllAt([], " 1", "-", "");
    assert [] + "-" + " 1" == "- 1";
    ReplaceAllSkip(" 1", [], "-", "");
    assert " 1" + [] == " 1";
    assert StripLeading(" 1") == "1";
    StripTrimmed("1");
    ReplaceAllSkip("1", [], "-", "");
    assert "1" + [] == "1";
  }

  /** The token rewrites of `normalize_address` after the half-width
      conversion: spaces removed, 番地 removed, 丁目 to a hyphen, 番 to a hyphen,
      号 removed, in this order. */
  function AddressTokens(t: string): string {
    var noSpace := ReplaceAll(t, " ", "");
    var noBanchi := ReplaceAll(noSpace, "番地", "");
    var chome := ReplaceAll(noBanchi, "丁目", "-");
    var ban := ReplaceAll(chome, "番", "-");
    ReplaceAll(ban, "号", "")
  }

  /** After the token rewrites no space, no 番 and no 号 is left. */
  lemma AddressTokensClean(t: string)
    ensures var r := AddressTokens(t); ' ' !in r && '番' !in r && '号' !in r
  {
    var noSpace := ReplaceAll(t, " ", "");
    var noBanchi := ReplaceAll(noSpace, "番地", "");
    var chome := ReplaceAll(noBanchi, "丁目", "-");
    var ban := ReplaceAll(chome, "番", "-");
    ReplaceAllRemovesChar(t, " ", "");
    KeepsOut(noSpace, "番地", "", ' ');
    KeepsOut(noBanchi, "丁目", "-", ' ');
    KeepsOut(chome, "番", "-", ' ');
    KeepsOut(ban, "号", "", ' ');
    ReplaceAllRemovesChar(chome, "番", "-");
    KeepsOut(ban, "号", "", '番');
    ReplaceAllRemovesChar(ban, "号", "");
  }

  /** `normalize_address` once the text is half-width. */
  function AddressRules(t: string): string {
    DropTrailingHyphen(AddressTokens(t))
  }

  /** `normalize_address` */
  function NormalizeAddress(u: Helpers, addr: string): string {
    AddressRules(u.toHalfWidth(addr))
  }

  /** A normalised address holds no space, no 番 and no 号, and of the hyphens
      the token rewrites leave at the end exactly one is dropped. */
  lemma AddressNormalized(u: Helpers, addr: string)
    ensures var r := NormalizeAddress(u, addr);
            ' ' !in r && '番' !in r && '号' !in r
    ensures var r, t := NormalizeAddress(u, addr), AddressTokens(u.toHalfWidth(addr));
            t == r + "-" || (r == t && (t == [] || t[|t| - 1] != '-'))
  {
    AddressTokensClean(u.toHalfWidth(addr));
  }

  /** The 番地 step deletes a written 番地 whole, whatever surrounds it: the
      text on either side is rewritten as if the 番地 were a boundary. */
  lemma BanchiStepDeletesWhole(sa: string, sb: string)
    ensures ReplaceAll(sa + "番地" + sb, "番地", "")
            == ReplaceAll(sa, "番地", "") + ReplaceAll(sb, "番地", "")
  {
    assert "番地"[1..] == "地";
    ReplaceAllAround(sa, sb, "番地", "");
  }

  /** 番地 goes away as a whole, exactly as if it had never been written,
      unless that would join a 番 before it to a 地 after it (spaces aside). */
  lemma BanchiRemovedWhole(a: string, b: string)
    requires var sa, sb := ReplaceAll(a, " ", ""), ReplaceAll(b, " ", "");
             !(sa != [] && sa[|sa| - 1] == '番' && sb != [] && sb[0] == '地')
    ensures AddressTokens(a + "番地" + b) == AddressTokens(a + b)
  {
    var sa, sb := ReplaceAll(a, " ", ""), ReplaceAll(b, " ", "");
    SpacesAroundBanchi(a, b);
    BanchiStepDeletesWhole(sa, sb);
    ReplaceAllJoin(sa, sb, "番地", "");
  }

  /** Removing spaces leaves a written 番地 in place between the two sides. */
  lemma SpacesAroundBanchi(a: string, b: string)
    ensures ReplaceAll(a + "番地" + b, " ", "") == ReplaceAll(a, " ", "") + "番地" + ReplaceAll(b, " ", "")
    ensures ReplaceAll(a + b, " ", "") == ReplaceAll(a, " ", "") + ReplaceAll(b, " ", "")
  {
    ReplaceAllCharConcat(a + "番地", b, " ", "");
    ReplaceAllCharConcat(a, "番地", " ", "");
    ReplaceAllSkip("番地", [], " ", "");
    assert "番地" + [] == "番地";
    ReplaceAllCharConcat(a, b, " ", "");
  }

  /** The condition of BanchiRemovedWhole is needed: with a 番 just before
      番地 and a 地 just after it, deleting the 番地 joins them into a new
      番地, which goes too, and the result is "-地" rather than "". */
  lemma BanchiAfterBan()
    ensures AddressRules("番番地地") == "-地"
    ensures AddressRules("番" + "地") == ""
  {
    BanchiAfterBanFirstPass();
    BanchiAfterBanSecondPass();
    assert "番" + "地" == "番地";
    ReplaceAllSkip("番地", [], " ", "");
    assert "番地" + [] == "番地";
    ReplaceAllAt([], [], "番地", "");
    assert [] + "番地" + [] == "番地";
    ReplaceAllShort([], "丁目", "-");
    ReplaceAllShort([], "番", "-");
    ReplaceAllShort([], "号", "");
  }

  /** A 番 earlier in the street name does not keep the 番地 of the lot number
      from vanishing. */
  lemma BanchiAfterEarlierBan()
    ensures AddressTokens("六番町1番地") == AddressTokens("六番町1")
  {
    ReplaceAllSkip("六番町1", [], " ", "");
    assert "六番町1" + [] == "六番町1";
    ReplaceAllShort([], " ", "");
    BanchiRemovedWhole("六番町1", "");
    assert "六番町1" + "番地" + "" == "六番町1番地";
    assert "六番町1" + "" == "六番町1";
  }

  /** No space, and the one 番地 found is the one starting at the second character. */
  lemma BanchiAfterBanFirstPass()
    ensures ReplaceAll("番番地地", " ", "") == "番番地地"
    ensures ReplaceAll("番番地地", "番地", "") == "番地"
  {
    var t := "番番地地";
    ReplaceAllSkip(t, [], " ", "");
    assert t + [] == t;
    assert t[..2][1] == '番' && "番地"[1] == '地';
    ReplaceAllAt("", "地", "番地", "");
    assert "" + "番地" + "地" == t[1..];
  }

  /** The 番 left over becomes a hyphen that stays, being at the front. */
  lemma BanchiAfterBanSecondPass()
    ensures ReplaceAll("番地", "丁目", "-") == "番地"
    ensures ReplaceAll("番地", "番", "-") == "-地"
    ensures ReplaceAll("-地", "号", "") == "-地"
  {
    var b := "番地";
    ReplaceAllSkip(b, [], "丁目", "");
    assert b + [] == b;
    ReplaceAllAt("", "地", "番", "-");
    assert "" + "番" + "地" == b;
    ReplaceAllSkip("地", [], "番", "-");
    assert "地" + [] == "地";
    ReplaceAllSkip("-地", [], "号", "");
    assert "-地" + [] == "-地";
  }

  /** `normalize_address` is not idempotent: a 番 right after 丁目 leaves two
      hyphens, and only one of them is dropped per pass. */
  lemma AddressNotIdempotent()
    ensures AddressRules("1丁目番") == "1-"
    ensures AddressRules("1-") == "1"
  {
    var t := "1丁目番";
    ReplaceAllSkip(t, [], " ", "");
    assert t + [] == t;
    ReplaceAllSkip("1丁目", "番", "番地", "");
    assert "1丁目" + "番" == t;
    ReplaceAllShort("番", "番地", "");
    ReplaceAllAt("1", "番", "丁目", "-");
    assert "1" + "丁目" + "番" == t;
    ReplaceAllShort("番", "丁目", "-");
    ReplaceAllAt("1-", "", "番", "-");
    assert "1-" + "番" + "" == "1-" + "番";
    assert "1-" + "-" + "" == "1--";
    ReplaceAllSkip("1--", [], "号", "");
    assert "1--" + [] == "1--";
    var h := "1-";
    ReplaceAllSkip(h, [], " ", "");
    ReplaceAllSkip(h, [], "番地", "");
    ReplaceAllSkip(h, [], "丁目", "");
    ReplaceAllSkip(h, [], "番", "-");
    ReplaceAllSkip(h, [], "号", "");
    assert h + [] == h;
  }

  /** The address of Tokyo International Airport in its written form. */
  lemma HanedaAddress()
    ensures AddressRules("東京都大田区羽田空港1丁目1番1号") == "東京都大田区羽田空港1-1-1"
  {
    var t := "東京都大田区羽田空港1丁目1番1号";
    HanedaNoSpace();
    HanedaNoBanchi();
    HanedaChome();
    HanedaBan();
    HanedaGo();
    assert AddressTokens(t) == "東京都大田区羽田空港1-1-1";
  }

  lemma HanedaNoSpace()
    ensures ReplaceAll("東京都大田区羽田空港1丁目1番1号", " ", "") == "東京都大田区羽田空港1丁目1番1号"
  {
    var t := "東京都大田区羽田空港1丁目1番1号";
    ReplaceAllSkip(t, [], " ", "");
    assert t + [] == t;
  }

  lemma HanedaNoBanchi()
    ensures ReplaceAll("東京都大田区羽田空港1丁目1番1号", "番地", "") == "東京都大田区羽田空港1丁目1番1号"
  {
    // the one 番 is followed by 1, so 番地 does not occur
    var a := "東京都大田区羽田空港1丁目1";
    assert a + "番1号" == "東京都大田区羽田空港1丁目1番1号";
    ReplaceAllSkip(a, "番1号", "番地", "");
    HanedaBlockNoBanchi();
  }

  lemma HanedaBlockNoBanchi()
    ensures ReplaceAll("番1号", "番地", "") == "番1号"
  {
    var s := "番1号";
    assert s[..2][1] == '1' && "番地"[1] == '地';
    assert s[1..] == "1号";
    ReplaceAllSkip("1号", [], "番地", "");
    assert "1号" + [] == "1号";
  }

  lemma HanedaChome()
    ensures ReplaceAll("東京都大田区羽田空港1丁目1番1号", "丁目", "-") == "東京都大田区羽田空港1-1番1号"
  {
    assert "東京都大田区羽田空港1" + "丁目" + "1番1号" == "東京都大田区羽田空港1丁目1番1号";
    ReplaceAllAt("東京都大田区羽田空港1", "1番1号", "丁目", "-");
    ReplaceAllSkip("1番1号", [], "丁目", "-");
    assert "1番1号" + [] == "1番1号";
    assert "東京都大田区羽田空港1" + "-" + "1番1号" == "東京都大田区羽田空港1-1番1号";
  }

  lemma HanedaBan()
    ensures ReplaceAll("東京都大田区羽田空港1-1番1号", "番", "-") == "東京都大田区羽田空港1-1-1号"
  {
    assert "東京都大田区羽田空港1-1" + "番" + "1号" == "東京都大田区羽田空港1-1番1号";
    ReplaceAllAt("東京都大田区羽田空港1-1", "1号", "番", "-");
    ReplaceAllSkip("1号", [], "番", "-");
    assert "1号" + [] == "1号";
    assert "東京都大田区羽田空港1-1" + "-" + "1号" == "東京都大田区羽田空港1-1-1号";
  }

  lemma HanedaGo()
    ensures ReplaceAll("東京都大田区羽田空港1-1-1号", "号", "") == "東京都大田区羽田空港1-1-1"
  {
    assert "東京都大田区羽田空港1-1-1" + "号" + "" == "東京都大田区羽田空港1-1-1号";
    ReplaceAllAt("東京都大田区羽田空港1-1-1", "", "号", "");
    assert "東京都大田区羽田空港1-1-1" + "" + "" == "東京都大田区羽田空港1-1-1";
  }

  /** The rewrite of `normalize_office_name` after the half-width conversion. */
  function OfficeNameRule(t: string): string {
    ReplaceAll(t, " 株式会社", "株式会社")
  }

  /** `normalize_office_name`: half-width conversion, then a space before
      株式会社 is removed. */
  function NormalizeOfficeName(u: Helpers, name: string): string {
    OfficeNameRule(u.toHalfWidth(name))
  }

  /** The office name is never longer than its half-width form, and a name
      without a space before 株式会社 is only converted to half width. */
  lemma OfficeNameNormalized(u: Helpers, name: string)
    ensures |NormalizeOfficeName(u, name)| <= |u.toHalfWidth(name)|
    ensures !Occurs(u.toHalfWidth(name), " 株式会社") ==> NormalizeOfficeName(u, name) == u.toHalfWidth(name)
  {
    var t := u.toHalfWidth(name);
    ReplaceAllShrinks(t, " 株式会社", "株式会社");
    if !Occurs(t, " 株式会社") {
      ReplaceAllAbsent(t, " 株式会社", "株式会社");
    }
  }

  /** The first " 株式会社" loses its space, and the rest of the name is
      treated the same way: the pattern's only space is its first character,
      so no occurrence can begin in the text before it. */
  lemma OfficeNameCollapses(x: string, y: string)
    requires !Occurs(x, " 株式会社")
    ensures OfficeNameRule(x + " 株式会社" + y) == x + "株式会社" + OfficeNameRule(y)
  {
    assert " 株式会社"[1..] == "株式会社";
    ReplaceAllAround(x, y, " 株式会社", "株式会社");
    ReplaceAllAbsent(x, " 株式会社", "株式会社");
  }

  /** A space inside the name is kept; only the one before 株式会社 goes. */
  lemma OfficeNameInnerSpace()
    ensures OfficeNameRule("NTT 東日本 株式会社") == "NTT 東日本株式会社"
  {
    var x := "NTT 東日本";
    NotOccursWithoutHead(x, " 株式会社");
    OfficeNameCollapses(x, "");
    ReplaceAllShort([], " 株式会社", "株式会社");
    assert x + " 株式会社" + "" == "NTT 東日本 株式会社";
    assert x + "株式会社" + "" == "NTT 東日本株式会社";
  }

  /** The large-account table writes 株式会社 after a (full-width) space. */
  lemma OfficeNameExample(u: Helpers)
    requires u.toHalfWidth("日本システムウエア\U{3000}株式会社") == "日本システムウエア 株式会社"
    ensures NormalizeOfficeName(u, "日本システムウエア\U{3000}株式会社") == "日本システムウエア株式会社"
  {
    var x := "日本システムウエア";
    NotOccursWithoutHead(x, " 株式会社");
    OfficeNameCollapses(x, "");
    assert "日本システムウエア" + " 株式会社" + "" == "日本システムウエア 株式会社";
    assert "日本システムウエア" + "株式会社" + "" == "日本システムウエア株式会社";
  }
}
