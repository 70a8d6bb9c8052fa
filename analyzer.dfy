/**
 * The product analyser: the signals `analyze_product` derives from a fetched
 * product page and the fixed signals of `analyze_image_locally`.
 *
 * The page itself is not parsed here: a `Page` holds what the regular
 * expressions of `analyze_product` extracted from it, and the outcome of the
 * GET requests is an input.
 */
module Analyzer {
  import opened Wrappers
  import opened Text

  /** The product dictionary shared by the copy generator and both renderers. */
  datatype Signals = Signals(
    title: string,
    description: string,
    price: string,
    platform: string,
    imgUrl: string,
    localImg: Option<string>,
    isKids: bool,
    gender: string,
    ageLabel: string,
    ageKey: string,
    style: string,
    sourceUrl: string)

  /** What the regular expressions of `analyze_product` found in the fetched HTML. */
  datatype Page = Page(
    titleMatch: Option<string>,       // group 1 of the `<title>` search
    descMatch: Option<string>,        // group 1 of the description meta-tag search
    priceMatch: Option<string>,       // group 0 of the currency-marked price search
    structuredPrice: Option<string>,  // group 1 of the `"price":` search
    ogImages: seq<string>,            // every `og:image` content, in document order
    imgTags: seq<string>)             // every `<img src>` with an image extension, in document order

  /** The second GET, for the chosen image: raised, or answered and (maybe) saved. */
  datatype ImageFetch = FetchRaised | Fetched(status: int, size: nat, savedPath: string)

  // ---------------------------------------------------------------------
  // Fixed tables, in declaration order
  // ---------------------------------------------------------------------

  const PlatformHints: seq<(string, string)> := [
    ("shopee.vn", "Shopee"),
    ("lazada.vn", "Lazada"),
    ("tiki.vn", "Tiki"),
    ("tiktok.com", "TikTok Shop"),
    ("sendo.vn", "Sendo"),
    ("zalora.vn", "Zalora")
  ]

  const KidsKeywords: seq<string> := [
    "bé", "trẻ em", "trẻ sơ sinh", "baby", "kids", "children", "infant",
    "toddler", "boy", "girl", "bé trai", "bé gái", "đồ trẻ em",
    "áo trẻ em", "quần trẻ em", "bộ trẻ em", "váy bé"
  ]

  const GirlWords: seq<string> := ["gái", "girl", "váy", "đầm", "hồng", "tím"]
  const BoyWords: seq<string> := ["trai", "boy", "xanh dương", "xe", "robot"]

  // The four (label, key) age brackets.
  const Newborn: (string, string) := ("0–12 tháng", "newborn")
  const Toddler: (string, string) := ("1–3 tuổi", "toddler")
  const Preschool: (string, string) := ("4–6 tuổi", "preschool")
  const School: (string, string) := ("7–10 tuổi", "school")

  /** Keyword to (label, key); the first keyword found wins. */
  const AgeMap: seq<(string, (string, string))> := [
    ("sơ sinh", Newborn),
    ("0-1", Newborn),
    ("1-3", Toddler),
    ("toddler", Toddler),
    ("4-6", Preschool),
    ("mầm non", Preschool),
    ("7-10", School),
    ("tiểu học", School)
  ]

  /** The bracket used when no age keyword is found. */
  const DefaultAge: (string, string) := Toddler

  const LuxuryWords: seq<string> := ["sang", "luxury", "cao cấp"]
  const SportyWords: seq<string> := ["thể thao", "sport", "active"]
  const KawaiiWords: seq<string> := ["dễ thương", "cute", "kawaii"]

  /** The four age keys that select script templates. */
  predicate IsAgeKey(key: string) {
    key == "newborn" || key == "toddler" || key == "preschool" || key == "school"
  }

  // ---------------------------------------------------------------------
  // First match in an ordered keyword table
  // ---------------------------------------------------------------------

  /** No key of `table[..n]` occurs in `text`. */
  ghost predicate NoKeyBefore<V>(table: seq<(string, V)>, text: string, n: int)
    requires n <= |table|
  {
    forall j :: 0 <= j < n ==> !Occurs(table[j].0, text)
  }

  /**
   * The value of the first entry of `table` whose key occurs in `text`, the
   * result of `for key, value in table.items(): if key in text: ...; break`.
   */
  function FirstMatch<V>(table: seq<(string, V)>, text: string): (r: Option<V>)
    ensures r.None? <==> NoKeyBefore(table, text, |table|)
    ensures r.Some? ==> exists k :: 0 <= k < |table| && Occurs(table[k].0, text)
                                  && NoKeyBefore(table, text, k) && r.value == table[k].1
  {
    if table == [] then None
    else if Contains(text, table[0].0) then Some(table[0].1)
    else
      var rest := FirstMatch(table[1..], text);
      FirstMatchShift(table, text, rest);
      rest
  }

  /** Shifting the witness of a match in `table[1..]` by one, when `table[0]` does not match. */
  lemma FirstMatchShift<V>(table: seq<(string, V)>, text: string, rest: Option<V>)
    requires table != [] && !Occurs(table[0].0, text)
    requires rest.None? <==> NoKeyBefore(table[1..], text, |table| - 1)
    requires rest.Some? ==> exists k :: 0 <= k < |table[1..]| && Occurs(table[1..][k].0, text)
                                     && NoKeyBefore(table[1..], text, k) && rest.value == table[1..][k].1
    ensures rest.None? <==> NoKeyBefore(table, text, |table|)
    ensures rest.Some? ==> exists k :: 0 <= k < |table| && Occurs(table[k].0, text)
                                     && NoKeyBefore(table, text, k) && rest.value == table[k].1
  {
    assert forall j :: 1 <= j < |table| ==> table[j] == table[1..][j - 1];
    if rest.Some? {
      var k :| 0 <= k < |table[1..]| && Occurs(table[1..][k].0, text)
               && NoKeyBefore(table[1..], text, k) && rest.value == table[1..][k].1;
      assert Occurs(table[k + 1].0, text) && NoKeyBefore(table, text, k + 1);
    }
  }

  /** When entry `k` matches and no earlier one does, the first match is entry `k`. */
  lemma FirstMatchAt<V>(table: seq<(string, V)>, text: string)
    ensures forall k :: 0 <= k < |table| && Occurs(table[k].0, text) && NoKeyBefore(table, text, k)
                        ==> FirstMatch(table, text) == Some(table[k].1)
  {
    forall k | 0 <= k < |table| && Occurs(table[k].0, text) && NoKeyBefore(table, text, k)
      ensures FirstMatch(table, text) == Some(table[k].1)
    {
      var r := FirstMatch(table, text);
      var k' :| 0 <= k' < |table| && Occurs(table[k'].0, text)
                && NoKeyBefore(table, text, k') && r.value == table[k'].1;
    }
  }

  /**
   * The loop `for key, value in table.items(): if key in text: found = value; break`,
   * starting from `found = default`.
   */
  method ScanFirst<V>(table: seq<(string, V)>, text: string, default: V) returns (found: V)
    ensures found == FirstMatch(table, text).GetOr(default)
  {
    found := default;
    var i := 0;
    while i < |table|
      invariant 0 <= i <= |table|
      invariant NoKeyBefore(table, text, i)
    {
      if Contains(text, table[i].0) {
        found := table[i].1;
        FirstMatchAt(table, text);
        return;
      }
      i := i + 1;
    }
  }

  // ---------------------------------------------------------------------
  // Classification
  // ---------------------------------------------------------------------

  /**
   * The platform label: that of the first `PlatformHints` domain contained in
   * the URL, or "Website" when none is.
   */
  function PlatformOf(url: string): (platform: string)
    ensures NoKeyBefore(PlatformHints, url, |PlatformHints|) ==> platform == "Website"
    ensures forall k :: (0 <= k < |PlatformHints| && Occurs(PlatformHints[k].0, url)
                         && NoKeyBefore(PlatformHints, url, k)) ==> platform == PlatformHints[k].1
  {
    FirstMatchAt(PlatformHints, url);
    FirstMatch(PlatformHints, url).GetOr("Website")
  }

  /**
   * The (label, key) of the first `AgeMap` keyword contained in the text, or
   * ("1–3 tuổi", "toddler") when none is; the key is always one of the four.
   */
  function AgeOf(text: string): (age: (string, string))
    ensures NoKeyBefore(AgeMap, text, |AgeMap|) ==> age == DefaultAge
    ensures forall k :: (0 <= k < |AgeMap| && Occurs(AgeMap[k].0, text)
                         && NoKeyBefore(AgeMap, text, k)) ==> age == AgeMap[k].1
    ensures IsAgeKey(age.1)
  {
    FirstMatchAt(AgeMap, text);
    FirstMatch(AgeMap, text).GetOr(DefaultAge)
  }

  /** Some word of `words` occurs in `text`. */
  ghost predicate Mentions(text: string, words: seq<string>) {
    exists k :: 0 <= k < |words| && Occurs(words[k], text)
  }

  /** `is_kids`: some kids keyword occurs in the text. */
  function IsKids(text: string): (kids: bool)
    ensures kids <==> Mentions(text, KidsKeywords)
  {
    ContainsAny(text, KidsKeywords)
  }

  /** The gender label; a girl word wins over a boy word. */
  function GenderOf(text: string): (gender: string)
    ensures gender == "bé gái" <==> Mentions(text, GirlWords)
    ensures gender == "bé trai" <==> !Mentions(text, GirlWords) && Mentions(text, BoyWords)
    ensures gender == "bé" <==> !Mentions(text, GirlWords) && !Mentions(text, BoyWords)
  {
    if ContainsAny(text, GirlWords) then "bé gái"
    else if ContainsAny(text, BoyWords) then "bé trai"
    else "bé"
  }

  /** The style label, by precedence luxury > sporty > kawaii > "cute & colorful". */
  function StyleOf(text: string): (style: string)
    ensures style == "luxury kids" <==> Mentions(text, LuxuryWords)
    ensures style == "sporty kids" <==> !Mentions(text, LuxuryWords) && Mentions(text, SportyWords)
    ensures style == "cute kawaii" <==> !Mentions(text, LuxuryWords) && !Mentions(text, SportyWords)
                                        && Mentions(text, KawaiiWords)
    ensures style == "cute & colorful" <==> !Mentions(text, LuxuryWords) && !Mentions(text, SportyWords)
                                            && !Mentions(text, KawaiiWords)
  {
    if ContainsAny(text, LuxuryWords) then "luxury kids"
    else if ContainsAny(text, SportyWords) then "sporty kids"
    else if ContainsAny(text, KawaiiWords) then "cute kawaii"
    else "cute & colorful"
  }

  // ---------------------------------------------------------------------
  // Page fields
  // ---------------------------------------------------------------------

  /**
   * The title: the `<title>` text with whitespace runs collapsed, stripped and
   * cut to 100 characters; "Sản phẩm" when the page has no title tag.
   */
  function TitleOf(m: Option<string>): (title: string)
    ensures |title| <= 100
    ensures m.None? ==> title == "Sản phẩm"
    ensures m.Some? ==> SingleSpaced(title) && (title == [] || !IsSpace(title[0]))
    ensures m.Some? ==> Visible(title) <= Visible(m.value)
    ensures m.Some? && |Strip(CollapseSpaces(m.value))| <= 100 ==> Visible(title) == Visible(m.value)
    ensures m.Some? ==> title <= Strip(CollapseSpaces(m.value))
    ensures m.Some? && |Strip(CollapseSpaces(m.value))| > 100 ==> |title| == 100
  {
    match m
    case None => "Sản phẩm"
    case Some(t) =>
      CleanTitle(t);
      Prefix(Strip(CollapseSpaces(t)), 100)
  }

  /**
   * The price: the currency-marked match when there is a non-empty one;
   * otherwise the structured-data price with "đ" appended, or "".
   */
  function PriceOf(primary: Option<string>, structured: Option<string>): (price: string)
    ensures primary.Some? && primary.value != "" ==> price == primary.value
    ensures (primary.None? || primary.value == "") && structured.Some? ==> price == structured.value + "đ"
    ensures (primary.None? || primary.value == "") && structured.None? ==> price == ""
  {
    var price := primary.GetOr("");
    if price == "" && structured.Some? then structured.value + "đ" else price
  }

  /** The image URL: the first `og:image`, else the first matching `<img>`, else "". */
  function ImageUrlOf(ogImages: seq<string>, imgTags: seq<string>): (url: string)
    ensures ogImages != [] ==> url == ogImages[0]
    ensures ogImages == [] && imgTags != [] ==> url == imgTags[0]
    ensures ogImages == [] && imgTags == [] ==> url == ""
  {
    var imgs := if ogImages != [] then ogImages else imgTags;
    if imgs != [] then imgs[0] else ""
  }

  /**
   * The local copy of the product image: kept only when there is an image URL
   * and its GET answered 200 with more than 1000 bytes.
   */
  function LocalImageOf(imgUrl: string, fetch: ImageFetch): (local: Option<string>)
    ensures local.Some? <==> imgUrl != "" && fetch.Fetched? && fetch.status == 200 && fetch.size > 1000
    ensures local.Some? ==> local.value == fetch.savedPath
  {
    if imgUrl != "" && fetch.Fetched? && fetch.status == 200 && fetch.size > 1000
    then Some(fetch.savedPath) else None
  }

  // ---------------------------------------------------------------------
  // The two analysers
  // ---------------------------------------------------------------------

  /** The record returned when fetching or reading the page raised. */
  function FailureSignals(url: string): (p: Signals)
    ensures p.ageKey == "toddler" && p.isKids && p.platform == "Shopee" && p.localImg.None?
  {
    Signals("Sản phẩm thời trang bé", "", "", "Shopee", "", None, true, "bé",
            "1–3 tuổi", "toddler", "cute & colorful", url)
  }

  /** `analyze_image_locally`: fixed signals whose local image is the uploaded one. */
  function ImageOnlySignals(imgPath: string): (p: Signals)
    ensures p.localImg == Some(imgPath) && p.platform == "Upload" && p.price == ""
    ensures p.ageKey == "toddler" && p.isKids && p.sourceUrl == ""
  {
    Signals("Thời trang bé yêu", "Sản phẩm thời trang cho bé chất lượng cao", "", "Upload",
            "", Some(imgPath), true, "bé", "1–3 tuổi", "toddler", "cute & colorful", "")
  }

  /** The lower-cased text the classifiers scan: title, a space, description. */
  function ScanText(title: string, desc: string): (text: string)
    ensures text == Lower(title) + " " + Lower(desc)
    ensures Lower(text) == text
  {
    LowerAppend(title + " ", desc);
    LowerAppend(title, " ");
    LowerIdempotent(title + " " + desc);
    Lower(title + " " + desc)
  }

  /** `analyze_product` on a page that was fetched (`page`) or whose fetch raised (`None`). */
  function Analyzed(url: string, page: Option<Page>, image: ImageFetch): (p: Signals)
    ensures page.None? ==> p == FailureSignals(url)
    ensures IsAgeKey(p.ageKey) && p.sourceUrl == url
    ensures page.Some? ==>
      && p.title == TitleOf(page.value.titleMatch)
      && p.description == (if page.value.descMatch.Some? then Strip(page.value.descMatch.value) else "")
      && p.price == PriceOf(page.value.priceMatch, page.value.structuredPrice)
      && p.platform == PlatformOf(url)
      && p.imgUrl == ImageUrlOf(page.value.ogImages, page.value.imgTags)
      && p.localImg == LocalImageOf(p.imgUrl, image)
    ensures page.Some? ==>
      var text := ScanText(p.title, p.description);
      && p.isKids == IsKids(text) && p.gender == GenderOf(text)
      && (p.ageLabel, p.ageKey) == AgeOf(text) && p.style == StyleOf(text)
  {
    match page
    case None => FailureSignals(url)
    case Some(pg) =>
      var title := TitleOf(pg.titleMatch);
      var desc := if pg.descMatch.Some? then Strip(pg.descMatch.value) else "";
      var imgUrl := ImageUrlOf(pg.ogImages, pg.imgTags);
      var text := ScanText(title, desc);
      var age := AgeOf(text);
      Signals(title, desc, PriceOf(pg.priceMatch, pg.structuredPrice), PlatformOf(url),
              imgUrl, LocalImageOf(imgUrl, image), IsKids(text), GenderOf(text),
              age.0, age.1, StyleOf(text), url)
  }

  /**
   * `analyze_product` once the page is in: its two `for ... break` loops scan
   * the URL for a platform domain and the lower-cased text for an age keyword.
   */
  method AnalyzeProduct(url: string, page: Option<Page>, image: ImageFetch) returns (p: Signals)
    ensures p == Analyzed(url, page, image)
  {
    if page.None? {
      return FailureSignals(url);
    }
    var pg := page.value;

    var platform := ScanFirst(PlatformHints, url, "Website");
    var title := TitleOf(pg.titleMatch);
    var desc := if pg.descMatch.Some? then Strip(pg.descMatch.value) else "";
    var price := PriceOf(pg.priceMatch, pg.structuredPrice);
    var imgUrl := ImageUrlOf(pg.ogImages, pg.imgTags);
    var localImg := LocalImageOf(imgUrl, image);

    var text := ScanText(title, desc);
    var age := ScanFirst(AgeMap, text, DefaultAge);
    p := Signals(title, desc, price, platform, imgUrl, localImg, IsKids(text), GenderOf(text),
                 age.0, age.1, StyleOf(text), url);
  }

  // ---------------------------------------------------------------------
  // Properties
  // ---------------------------------------------------------------------

  /** A girl word decides the gender even when boy words occur too. */
  lemma GirlWordsWin(text: string, g: nat, b: nat)
    requires g < |GirlWords| && Contains(text, GirlWords[g])
    requires b < |BoyWords| && Contains(text, BoyWords[b])
    ensures GenderOf(text) == "bé gái"
  {
  }

  /** The platform label is one of the hint labels or "Website". */
  lemma PlatformLabels(url: string)
    ensures PlatformOf(url) in {"Shopee", "Lazada", "Tiki", "TikTok Shop", "Sendo", "Zalora", "Website"}
  {
    var r := FirstMatch(PlatformHints, url);
    if r.Some? {
      var k :| 0 <= k < |PlatformHints| && Occurs(PlatformHints[k].0, url)
               && NoKeyBefore(PlatformHints, url, k) && r.value == PlatformHints[k].1;
    }
  }

  /** A text mentioning "toddler" and none of the earlier age keywords is a toddler text. */
  lemma ToddlerKeyword(text: string)
    requires Occurs("toddler", text)
    requires !Occurs("sơ sinh", text) && !Occurs("0-1", text) && !Occurs("1-3", text)
    ensures AgeOf(text) == Toddler
  {
    var t := AgeMap;
    assert t[0].0 == "sơ sinh" && t[1].0 == "0-1" && t[2].0 == "1-3" && t[3] == ("toddler", Toddler);
    assert NoKeyBefore(AgeMap, text, 3);
  }
}
