/**
 * The site's language switch: two translation tables keyed by the
 * `data-i18n` attribute values, a current language read from local storage
 * (default 'vi'), a button that flips between 'vi' and 'en' and stores the
 * choice, and a page update that rewrites only the elements whose key has a
 * translation in the current language.
 */
module I18n {
  import opened Wrappers

  type Table = map<string, string>

  const Vi: Table := map[
    "nav.home" := "Trang Chủ",
    "nav.menu" := "Thực Đơn",
    "nav.map" := "Bản Đồ",
    "nav.about" := "Giới Thiệu",
    "nav.contact" := "Liên Hệ",
    "hero.subtitle" := "Khám phá Đảo Ngọc",
    "hero.title" := "Hương Vị <br/> <span class='text-transparent bg-clip-text bg-gradient-to-r from-sand-gold to-yellow-200'>Trăm Năm</span>",
    "hero.desc" := "Hành trình ẩm thực đánh thức mọi giác quan, từ vị mặn mòi của biển cả đến hương thơm nồng nàn của tiêu và rượu sim.",
    "hero.btn" := "Khám Phá Ngay",
    "scroll.down" := "Cuộn xuống",
    "menu.subtitle" := "Thực Đơn",
    "menu.title" := "Tinh Hoa <span class='italic text-ocean-blue'>Ẩm Thực</span>",
    "dish.bunquay" := "Bún Quậy Kiến Xây",
    "dish.bunquay.desc" := "Trải nghiệm tự pha nước chấm và thưởng thức hương vị tươi ngon của hải sản xay nhuyễn.",
    "dish.goicatrich" := "Gỏi Cá Trích",
    "dish.goicatrich.desc" := "Sự kết hợp hoàn hảo giữa cá tươi và dừa.",
    "dish.bunken" := "Bún Kèn",
    "dish.ghe" := "Ghẹ Hàm Ninh",
    "dish.nhum" := "Nhum Biển",
    "dish.garay" := "Gà Rẫy Phú Quốc",
    "dish.garay.desc" := "Thịt chắc, thơm ngon, hương vị núi rừng.",
    "btn.details" := "Xem Chi Tiết",
    "map.title" := "Bản Đồ <span class='text-ocean-blue'>Ẩm Thực</span>",
    "map.desc" := "Khám phá vị trí những quán ăn ngon nức tiếng tại Phú Quốc. Nhấn vào các biểu tượng để xem chi tiết.",
    "footer.desc" := "Dự án quảng bá du lịch và ẩm thực đảo ngọc, lan tỏa hương vị truyền thống đến bạn bè năm châu.",
    "footer.design" := "&copy; 2025-2026 10C1 THPT An Thới. Designed with Khởiisthebad."
  ]

  const En: Table := map[
    "nav.home" := "Home",
    "nav.menu" := "Menu",
    "nav.map" := "Map",
    "nav.about" := "About",
    "nav.contact" := "Contact",
    "hero.subtitle" := "Discover Pearl Island",
    "hero.title" := "Centuries of <br/> <span class='text-transparent bg-clip-text bg-gradient-to-r from-sand-gold to-yellow-200'>Flavor</span>",
    "hero.desc" := "A culinary journey awakening all senses, from the salty sea breeze to the aromatic pepper and sim wine.",
    "hero.btn" := "Explore Now",
    "scroll.down" := "Scroll Down",
    "menu.subtitle" := "The Menu",
    "menu.title" := "Culinary <span class='italic text-ocean-blue'>Essence</span>",
    "dish.bunquay" := "Kien Xay Bun Quay",
    "dish.bunquay.desc" := "Experience making your own dipping sauce and enjoy fresh ground seafood noodles.",
    "dish.goicatrich" := "Herring Salad",
    "dish.goicatrich.desc" := "Perfect combination of fresh fish and coconut.",
    "dish.bunken" := "Bun Ken (Ken Noodles)",
    "dish.ghe" := "Ham Ninh Crab",
    "dish.nhum" := "Sea Urchin",
    "dish.garay" := "Phu Quoc Free-range Chicken",
    "dish.garay.desc" := "Firm meat, delicious taste of the wild forest.",
    "btn.details" := "View Details",
    "map.title" := "Culinary <span class='text-ocean-blue'>Map</span>",
    "map.desc" := "Discover famous local food spots in Phu Quoc. Click markers for details.",
    "footer.desc" := "A project to promote tourism and cuisine of the Pearl Island, spreading traditional flavors to the world.",
    "footer.design" := "&copy; 2025-2026 10C1 High School An Thoi. Designed with Khoiisthebad."
  ]

  const Translations: map<string, Table> := map["vi" := Vi, "en" := En]

  const DefaultLang := "vi"

  /** `localStorage.getItem('lang') || 'vi'`: a missing or empty stored value gives 'vi'. */
  function InitialLang(stored: Option<string>): (lang: string)
    ensures stored.Some? && stored.value != "" ==> lang == stored.value
    ensures stored == None || stored == Some("") ==> lang == DefaultLang
    ensures lang != ""
  {
    match stored
    case Some(s) => if s != "" then s else DefaultLang
    case None => DefaultLang
  }

  /** The language button: 'vi' becomes 'en', anything else becomes 'vi'. */
  function ToggleLang(lang: string): (r: string)
    ensures r == "en" <==> lang == "vi"
    ensures r == "vi" <==> lang != "vi"
  {
    if lang == "vi" then "en" else "vi"
  }

  /** Two clicks restore 'vi' or 'en'; from any other stored value they end at 'en'. */
  lemma ToggleTwice(lang: string)
    ensures lang == "vi" || lang == "en" ==> ToggleLang(ToggleLang(lang)) == lang
    ensures lang != "vi" && lang != "en" ==> ToggleLang(ToggleLang(lang)) == "en"
  {
  }

  /** `translations[lang] && translations[lang][key]`: a missing table, a missing key and an empty text all count as no translation. */
  function Lookup(lang: string, key: string): (r: Option<string>)
    ensures r.Some? <==> lang in Translations && key in Translations[lang] && Translations[lang][key] != ""
    ensures r.Some? ==> r.value == Translations[lang][key]
  {
    if lang in Translations && key in Translations[lang] && Translations[lang][key] != ""
    then Some(Translations[lang][key])
    else None
  }

  /** The two tables translate the same keys. */
  lemma SameKeys()
    ensures Vi.Keys == En.Keys
  {
  }

  /** Every text of both tables is non-empty, so every key of the tables has a translation in both languages. */
  lemma EveryKeyTranslated(lang: string, key: string)
    requires lang == "vi" || lang == "en"
    requires key in Vi
    ensures Lookup(lang, key).Some?
  {
    SameKeys();
  }

  /** A page element: its optional `data-i18n` and `data-i18n-placeholder` keys, its inner HTML and its placeholder. */
  datatype Element = Element(i18nKey: Option<string>, placeholderKey: Option<string>, html: string, placeholder: string)

  /** The first `forEach` of the update, on one element. */
  function LocalizeContent(e: Element, lang: string): (r: Element)
    ensures r.i18nKey == e.i18nKey && r.placeholderKey == e.placeholderKey && r.placeholder == e.placeholder
    ensures e.i18nKey.Some? && Lookup(lang, e.i18nKey.value).Some? ==> r.html == Translations[lang][e.i18nKey.value]
    ensures e.i18nKey.None? || Lookup(lang, e.i18nKey.value).None? ==> r == e
  {
    match e.i18nKey
    case Some(key) =>
      (match Lookup(lang, key)
       case Some(text) => e.(html := text)
       case None => e)
    case None => e
  }

  /** The second `forEach` of the update, on one element. */
  function LocalizePlaceholder(e: Element, lang: string): (r: Element)
    ensures r.i18nKey == e.i18nKey && r.placeholderKey == e.placeholderKey && r.html == e.html
    ensures e.placeholderKey.Some? && Lookup(lang, e.placeholderKey.value).Some? ==> r.placeholder == Translations[lang][e.placeholderKey.value]
    ensures e.placeholderKey.None? || Lookup(lang, e.placeholderKey.value).None? ==> r == e
  {
    match e.placeholderKey
    case Some(key) =>
      (match Lookup(lang, key)
       case Some(text) => e.(placeholder := text)
       case None => e)
    case None => e
  }

  /** What `updateContent` does to one element. */
  function Localize(e: Element, lang: string): Element
  {
    LocalizePlaceholder(LocalizeContent(e, lang), lang)
  }

  /** What `updateContent` does to the page. */
  function LocalizeAll(page: seq<Element>, lang: string): (r: seq<Element>)
    ensures |r| == |page| && forall i :: 0 <= i < |page| ==> r[i] == Localize(page[i], lang)
  {
    seq(|page|, i requires 0 <= i < |page| => Localize(page[i], lang))
  }

  /** A language that is neither 'vi' nor 'en' leaves the page untouched. */
  lemma UnknownLanguageChangesNothing(page: seq<Element>, lang: string)
    requires lang != "vi" && lang != "en"
    ensures LocalizeAll(page, lang) == page
  {
  }

  /**
   * Switching between 'vi' and 'en' leaves no trace of the earlier language:
   * the page after switching to `second` is the page localized to `second`
   * directly.
   */
  lemma LatestLanguageWins(e: Element, first: string, second: string)
    requires first == "vi" || first == "en"
    requires second == "vi" || second == "en"
    ensures Localize(Localize(e, first), second) == Localize(e, second)
  {
    SameKeys();
    if e.i18nKey.Some? && Lookup(first, e.i18nKey.value).Some? {
      EveryKeyTranslated(second, e.i18nKey.value);
    }
    if e.placeholderKey.Some? && Lookup(first, e.placeholderKey.value).Some? {
      EveryKeyTranslated(second, e.placeholderKey.value);
    }
  }

  /** The switch's state: the current language, the stored 'lang' entry and the page's elements. */
  class Switcher {
    var currentLang: string
    var stored: Option<string>
    const page: array<Element>

    /** Page load: read the stored language and localize the page once. */
    constructor (storedLang: Option<string>, page: array<Element>)
      modifies page
      ensures this.page == page
      ensures currentLang == InitialLang(storedLang) && stored == storedLang
      ensures page[..] == LocalizeAll(old(page[..]), currentLang)
    {
      this.page := page;
      currentLang := InitialLang(storedLang);
      stored := storedLang;
      new;
      UpdateContent();
    }

    /** `updateContent`: translated texts first, then translated placeholders. */
    method UpdateContent()
      modifies page
      ensures page[..] == LocalizeAll(old(page[..]), currentLang)
    {
      var i := 0;
      while i < page.Length
        invariant 0 <= i <= page.Length
        invariant forall j :: 0 <= j < i ==> page[j] == LocalizeContent(old(page[j]), currentLang)
        invariant forall j :: i <= j < page.Length ==> page[j] == old(page[j])
      {
        page[i] := LocalizeContent(page[i], currentLang);
        i := i + 1;
      }
      i := 0;
      while i < page.Length
        invariant 0 <= i <= page.Length
        invariant forall j :: 0 <= j < i ==> page[j] == Localize(old(page[j]), currentLang)
        invariant forall j :: i <= j < page.Length ==> page[j] == LocalizeContent(old(page[j]), currentLang)
      {
        page[i] := LocalizePlaceholder(page[i], currentLang);
        i := i + 1;
      }
    }

    /** A language button: flip the language, store it, and update the page. */
    method Click()
      modifies this, page
      ensures currentLang == ToggleLang(old(currentLang))
      ensures stored == Some(currentLang)
      ensures page[..] == LocalizeAll(old(page[..]), currentLang)
    {
      currentLang := if currentLang == "vi" then "en" else "vi";
      stored := Some(currentLang);
      UpdateContent();
    }
  }
}
