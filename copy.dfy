/**
 * The copy generator: the narrated advertising script (`make_script`) and the
 * captions and hashtags (`make_content`), both built from the product signals.
 */
module Copy {
  import opened Text
  import opened Analyzer

  /** The placeholders of a script template, as `str.format` names them. */
  datatype Slot = TitleSlot | GenderSlot | AgeLabelSlot | StyleSlot | PriceTextSlot | YearSlot

  /** A template is literal text interleaved with placeholders. */
  datatype Piece = Lit(text: string) | Hole(slot: Slot)
  type Template = seq<Piece>

  const NewbornTemplates: seq<Template> := [
      [Lit("Ơi các mẹ ơi! "),
       Hole(TitleSlot),
       Lit(" siêu cute cho bé sơ sinh nhà mình đây! Chất vải 100% cotton mềm mại, an toàn cho làn da nhạy cảm của bé. "),
       Hole(PriceTextSlot),
       Lit("Đặt ngay hôm nay, giao hàng toàn quốc nhé các mẹ!")]
  ]

  const ToddlerTemplates: seq<Template> := [
      [Lit("Các mẹ ơi xem "),
       Hole(TitleSlot),
       Lit(" này xinh không! Phù hợp cho "),
       Hole(GenderSlot),
       Lit(" "),
       Hole(AgeLabelSlot),
       Lit(", chất vải thoáng mát dễ chịu. "),
       Hole(PriceTextSlot),
       Lit("Mẹ nào đang tìm đồ cho bé thì đừng bỏ lỡ nhé!")],
      [Lit("Ồ trời ơi cute quá đi! "),
       Hole(TitleSlot),
       Lit(" – hot trend "),
       Hole(YearSlot),
       Lit(" đây các mẹ! Bé mặc vào là đẹp ngay, chụp ảnh cực kỳ photogenic. "),
       Hole(PriceTextSlot),
       Lit("Bình luận GIÁ để mình báo ngay!")]
  ]

  const PreschoolTemplates: seq<Template> := [
      [Lit("Mẹ bỉm đang tìm đồ cho bé "),
       Hole(AgeLabelSlot),
       Lit("? "),
       Hole(TitleSlot),
       Lit(" là lựa chọn hoàn hảo! Thiết kế "),
       Hole(StyleSlot),
       Lit(", bé mặc vào tự tin hơn hẳn. "),
       Hole(PriceTextSlot),
       Lit("Giao hàng nhanh, đổi trả dễ dàng!")]
  ]

  const SchoolTemplates: seq<Template> := [
      [Lit("Thời trang học đường cực chất! "),
       Hole(TitleSlot),
       Lit(" cho "),
       Hole(GenderSlot),
       Lit(" "),
       Hole(AgeLabelSlot),
       Lit(". Vải bền đẹp, co giãn tốt, bé mặc cả ngày vẫn thoải mái. "),
       Hole(PriceTextSlot),
       Lit("Đặt ngay kẻo hết size nhé!")]
  ]

  /** The year the trend template advertises. */
  const Year: string := "2025"

  /** The template has a `{slot}` placeholder. */
  ghost predicate HasSlot(t: Template, slot: Slot) {
    exists k :: 0 <= k < |t| && t[k] == Hole(slot)
  }

  /** Every template has a title and a price-text placeholder. */
  ghost predicate WellFormed(t: Template) {
    HasSlot(t, TitleSlot) && HasSlot(t, PriceTextSlot)
  }

  /** `SCRIPT_TEMPLATES.get(age_key, SCRIPT_TEMPLATES["toddler"])`. */
  function TemplatesFor(ageKey: string): (ts: seq<Template>)
    ensures |ts| >= 1
    ensures ageKey == "newborn" ==> ts == NewbornTemplates
    ensures ageKey == "toddler" ==> ts == ToddlerTemplates
    ensures ageKey == "preschool" ==> ts == PreschoolTemplates
    ensures ageKey == "school" ==> ts == SchoolTemplates
    ensures !IsAgeKey(ageKey) ==> ts == ToddlerTemplates
    ensures forall k :: 0 <= k < |ts| ==> WellFormed(ts[k])
  {
    TemplatesWellFormed();
    if ageKey == "newborn" then NewbornTemplates
    else if ageKey == "toddler" then ToddlerTemplates
    else if ageKey == "preschool" then PreschoolTemplates
    else if ageKey == "school" then SchoolTemplates
    else ToddlerTemplates
  }

  lemma TemplatesWellFormed()
    ensures WellFormed(NewbornTemplates[0])
    ensures WellFormed(ToddlerTemplates[0]) && WellFormed(ToddlerTemplates[1])
    ensures WellFormed(PreschoolTemplates[0]) && WellFormed(SchoolTemplates[0])
  {
    assert NewbornTemplates[0][1] == Hole(TitleSlot) && NewbornTemplates[0][3] == Hole(PriceTextSlot);
    assert ToddlerTemplates[0][1] == Hole(TitleSlot) && ToddlerTemplates[0][7] == Hole(PriceTextSlot);
    assert ToddlerTemplates[1][1] == Hole(TitleSlot) && ToddlerTemplates[1][5] == Hole(PriceTextSlot);
    assert PreschoolTemplates[0][3] == Hole(TitleSlot) && PreschoolTemplates[0][7] == Hole(PriceTextSlot);
    assert SchoolTemplates[0][1] == Hole(TitleSlot) && SchoolTemplates[0][7] == Hole(PriceTextSlot);
  }

  /** `price_text`: the price sentence when there is a price, a generic one otherwise. */
  function PriceText(price: string): (r: string)
    ensures price != "" ==> r == "Giá chỉ " + price + "! "
    ensures price == "" ==> r == "Giá cực hấp dẫn! "
  {
    if price != "" then "Giá chỉ " + price + "! " else "Giá cực hấp dẫn! "
  }

  /** The `{title}` value: at most 45 characters of the title, "sản phẩm này" when it is empty. */
  function ScriptTitle(title: string): (r: string)
    ensures |r| <= 45
    ensures title == "" ==> r == "sản phẩm này"
    ensures title != "" ==> r <= title && (|title| <= 45 ==> r == title)
    ensures |title| > 45 ==> |r| == 45
  {
    Prefix(if title != "" then title else "sản phẩm này", 45)
  }

  /** The value `tpl.format(...)` gives a placeholder. */
  function SlotValue(p: Signals, slot: Slot): string {
    match slot
    case TitleSlot => ScriptTitle(p.title)
    case GenderSlot => p.gender
    case AgeLabelSlot => p.ageLabel
    case StyleSlot => p.style
    case PriceTextSlot => PriceText(p.price)
    case YearSlot => Year
  }

  function PieceText(piece: Piece, p: Signals): string {
    match piece
    case Lit(s) => s
    case Hole(slot) => SlotValue(p, slot)
  }

  /** `tpl.format(...)`: each piece in turn, placeholders replaced by their values. */
  function Fill(t: Template, p: Signals): (r: string)
    ensures t == [] ==> r == ""
    ensures |t| == 1 ==> r == PieceText(t[0], p)
  {
    if t == [] then "" else PieceText(t[0], p) + Fill(t[1..], p)
  }

  /** Filling a template made of two parts fills each part and joins them. */
  lemma {:induction false} FillConcat(t1: Template, t2: Template, p: Signals)
    ensures Fill(t1 + t2, p) == Fill(t1, p) + Fill(t2, p)
    decreases |t1|
  {
    if t1 != [] {
      assert (t1 + t2)[0] == t1[0];
      assert (t1 + t2)[1..] == t1[1..] + t2;
      FillConcat(t1[1..], t2, p);
      ConcatAssoc(PieceText(t1[0], p), Fill(t1[1..], p), Fill(t2, p));
    } else {
      assert t1 + t2 == t2;
    }
  }

  /** Every piece of the template, filled in, occurs in the result. */
  lemma {:induction false} FillContainsPiece(t: Template, p: Signals, k: nat)
    requires k < |t|
    ensures Occurs(PieceText(t[k], p), Fill(t, p))
  {
    if k == 0 {
      assert PieceText(t[0], p) <= Fill(t, p)[0..];
    } else {
      FillContainsPiece(t[1..], p, k - 1);
      OccursInConcat(PieceText(t[k], p), PieceText(t[0], p), Fill(t[1..], p));
    }
  }

  /**
   * `make_script`, with `random.choice` drawing the template at index
   * `choice % n` from the `n` templates of the age key: the result is one of
   * those templates filled in, and it contains the title value and the price
   * sentence.
   */
  function MakeScript(p: Signals, choice: nat): (script: string)
    ensures exists t :: t in TemplatesFor(p.ageKey) && script == Fill(t, p)
    ensures Occurs(ScriptTitle(p.title), script)
    ensures Occurs(PriceText(p.price), script)
  {
    var ts := TemplatesFor(p.ageKey);
    var t := ts[choice % |ts|];
    var i :| 0 <= i < |t| && t[i] == Hole(TitleSlot);
    var j :| 0 <= j < |t| && t[j] == Hole(PriceTextSlot);
    FillContainsPiece(t, p, i);
    FillContainsPiece(t, p, j);
    Fill(t, p)
  }

  // ---------------------------------------------------------------------
  // Captions and hashtags
  // ---------------------------------------------------------------------

  /** The three captions and three hashtag lines, always in this order. */
  datatype Content = Content(captions: seq<string>, hashtags: seq<string>)

  const FirstHashtags: string :=
    "#thoitrangtreem #mevabe #beyeu #tiktokshop #sanphamhot #muahang #trending #viral #review #cute"
  const LastHashtags: string :=
    "#reviewsanpham #unboxing #haul #recommend #chinhang #giaonhanh #sale #deal #tiktok #fyp"

  /** The caption title: at most 40 characters of the title, "Thời trang bé" when it is empty. */
  function CaptionTitle(title: string): (r: string)
    ensures |r| <= 40
    ensures title == "" ==> r == "Thời trang bé"
    ensures title != "" ==> r <= title && (|title| <= 40 ==> r == title)
    ensures |title| > 40 ==> |r| == 40
  {
    Prefix(if title != "" then title else "Thời trang bé", 40)
  }

  /** `pstr`: a "💰 Chỉ" line with the price when there is one, nothing otherwise. */
  function PriceLine(price: string): (r: string)
    ensures r == "" <==> price == ""
    ensures price != "" ==> r == "\n💰 Chỉ " + price
  {
    if price != "" then "\n💰 Chỉ " + price else ""
  }

  /** The gender hashtag: `#` and the gender with its spaces removed. */
  function GenderTag(gender: string): (r: string)
    ensures |r| >= 1 && r[0] == '#' && ' ' !in r[1..]
    ensures r[1..] == RemoveSpaces(gender)
  {
    "#" + RemoveSpaces(gender)
  }

  /**
   * `make_content`: exactly three captions and three hashtag lines; every
   * caption carries the caption title followed by the price line; the first
   * and last hashtag lines are fixed and the middle one carries the gender tag.
   */
  function MakeContent(p: Signals): (c: Content)
    ensures |c.captions| == 3 && |c.hashtags| == 3
    ensures forall i :: 0 <= i < 3 ==> Occurs(CaptionTitle(p.title) + PriceLine(p.price), c.captions[i])
    ensures c.hashtags[0] == FirstHashtags && c.hashtags[2] == LastHashtags
    ensures Occurs(GenderTag(p.gender) + " ", c.hashtags[1])
  {
    var t := CaptionTitle(p.title);
    var pstr := PriceLine(p.price);
    var g := p.gender;
    var tp := t + pstr;
    var captions := [CareCaption(tp, g), TrendCaption(tp, g, p.ageLabel, p.platform), CuteCaption(tp, p.style)];
    Content(captions, [FirstHashtags, GenderHashtags(g), LastHashtags])
  }

  // The fixed lines and phrases of the captions.
  const CareOpen: string := "👶 "
  const CareFabric: string := "\n✨ Chất vải mềm mại, an toàn cho "
  const CareClose: string := "\n📦 Giao toàn quốc – Đổi trả dễ dàng\n👇 Bình luận GIÁ để đặt hàng ngay!"
  const TrendOpen: string := "🔥 HOT TREND – "
  const TrendFit: string := "\n💕 Phù hợp "
  const TrendShop: string := "\n✅ Chính hãng 100% từ "
  const TrendClose: string := "\n🛒 Link mua trong bio – Đặt ngay kẻo hết!"
  const CuteOpen: string := "😍 Cute quá các mẹ ơi!\n"
  const CuteStyle: string := "\n🌸 Thiết kế "
  const CuteClose: string := "\n💬 Nhắn tin ngay để được tư vấn miễn phí!"
  const GenderTagsOpen: string := "#thoitrangbe #dotreem "
  const GenderTagsClose: string := "#baby #kids #fashion #shopee #lazada #affiliate #mua1tang1"

  /** The middle hashtag line, which carries the gender tag. */
  function GenderHashtags(gender: string): (r: string)
    ensures Occurs(GenderTag(gender) + " ", r)
  {
    OccursInMiddle(GenderTagsOpen, GenderTag(gender) + " ", GenderTagsClose);
    GenderTagsOpen + (GenderTag(gender) + " ") + GenderTagsClose
  }

  /** The first caption: softness and safety for the child. */
  function CareCaption(tp: string, gender: string): (r: string)
    ensures Occurs(tp, r)
  {
    var post := CareFabric + gender + CareClose;
    OccursInMiddle(CareOpen, tp, post);
    CareOpen + tp + post
  }

  /** The second caption: the trend, the fit and the shop the product comes from. */
  function TrendCaption(tp: string, gender: string, ageLabel: string, platform: string): (r: string)
    ensures Occurs(tp, r)
  {
    var post := TrendFit + gender + " " + ageLabel + TrendShop + platform + TrendClose;
    OccursInMiddle(TrendOpen, tp, post);
    TrendOpen + tp + post
  }

  /** The third caption: the design style. */
  function CuteCaption(tp: string, style: string): (r: string)
    ensures Occurs(tp, r)
  {
    var post := CuteStyle + style + CuteClose;
    OccursInMiddle(CuteOpen, tp, post);
    CuteOpen + tp + post
  }
}
