/** The translation tables of the three supported languages and the lookup
    that falls back to the key itself when a language has no (or an empty)
    entry for it. */
module LanguageContext {

  datatype Language = Ja | En | Uz

  function Translations(lang: Language): map<string, string> {
    match lang
    case Ja => map[
      "app.title" := "HyMatch",
      "app.subtitle" := "理想のアルバイトを見つけよう",
      "tabs.jobs" := "お仕事",
      "tabs.refused" := "見送り",
      "tabs.chosen" := "応募済み",
      "tabs.profile" := "プロフィール",
      "tabs.settings" := "設定",
      "contact.title" := "お問い合わせ",
      "contact.phone" := "電話",
      "contact.email" := "メール",
      "profile.incomplete" := "プロフィールが未完成です",
      "profile.complete" := "プロフィールを完成させる",
      "filter.title" := "フィルター",
      "filter.jobType" := "職種",
      "filter.wage" := "時給",
      "filter.japanese" := "日本語レベル",
      "filter.workDays" := "勤務日",
      "sort.wage" := "時給順",
      "sort.commute" := "通勤時間順",
      "sort.date" := "投稿日順"]
    case En => map[
      "app.title" := "HyMatch",
      "app.subtitle" := "Find Your Perfect Part-Time Job",
      "tabs.jobs" := "Jobs",
      "tabs.refused" := "Refused",
      "tabs.chosen" := "Chosen",
      "tabs.profile" := "Profile",
      "tabs.settings" := "Settings",
      "contact.title" := "Contact Us",
      "contact.phone" := "Phone",
      "contact.email" := "Email",
      "profile.incomplete" := "Profile is incomplete",
      "profile.complete" := "Complete Profile",
      "filter.title" := "Filter",
      "filter.jobType" := "Job Type",
      "filter.wage" := "Wage",
      "filter.japanese" := "Japanese Level",
      "filter.workDays" := "Work Days",
      "sort.wage" := "By Wage",
      "sort.commute" := "By Commute",
      "sort.date" := "By Date"]
    case Uz => map[
      "app.title" := "HyMatch",
      "app.subtitle" := "Mukammal qisman ish topish",
      "tabs.jobs" := "Ishlar",
      "tabs.refused" := "Rad etilgan",
      "tabs.chosen" := "Tanlangan",
      "tabs.profile" := "Profil",
      "tabs.settings" := "Sozlamalar",
      "contact.title" := "Aloqa",
      "contact.phone" := "Telefon",
      "contact.email" := "Email",
      "profile.incomplete" := "Profil to\'liq emas",
      "profile.complete" := "Profilni to\'ldirish",
      "filter.title" := "Filtr",
      "filter.jobType" := "Ish turi",
      "filter.wage" := "Maosh",
      "filter.japanese" := "Yapon tili darajasi",
      "filter.workDays" := "Ish kunlari",
      "sort.wage" := "Maosh bo\'yicha",
      "sort.commute" := "Yo\'l vaqti bo\'yicha",
      "sort.date" := "Sana bo\'yicha"]
  }

  /** `translations[language][key] || key` */
  function T(lang: Language, key: string): (r: string)
    ensures key in Translations(lang) && Translations(lang)[key] != "" ==> r == Translations(lang)[key]
    ensures !(key in Translations(lang) && Translations(lang)[key] != "") ==> r == key
  {
    var table := Translations(lang);
    if key in table && table[key] != "" then table[key] else key
  }

  /** The keys every table defines, in the tables' order. */
  const KeyList: seq<string> := [
    "app.title", "app.subtitle", "tabs.jobs", "tabs.refused", "tabs.chosen",
    "tabs.profile", "tabs.settings", "contact.title", "contact.phone", "contact.email",
    "profile.incomplete", "profile.complete", "filter.title", "filter.jobType", "filter.wage",
    "filter.japanese", "filter.workDays", "sort.wage", "sort.commute", "sort.date"]

  /** The same keys as a set. */
  function KeySet(): set<string> {
    set k | k in KeyList
  }

  /** The lookup has no entry to give and returns the key itself. */
  predicate FallsBack(lang: Language, key: string) {
    !(key in Translations(lang) && Translations(lang)[key] != "")
  }

  /** The Japanese table defines the twenty keys, none with an empty entry. */
  lemma JaKeys()
    ensures Translations(Ja).Keys == KeySet()
  {
  }

  lemma JaNonEmpty()
    ensures forall k :: k in Translations(Ja) ==> Translations(Ja)[k] != ""
  {
  }

  /** The English table defines the twenty keys, none with an empty entry. */
  lemma EnKeys()
    ensures Translations(En).Keys == KeySet()
  {
  }

  lemma EnNonEmpty()
    ensures forall k :: k in Translations(En) ==> Translations(En)[k] != ""
  {
  }

  /** The Uzbek table defines the twenty keys, none with an empty entry. */
  lemma UzKeys()
    ensures Translations(Uz).Keys == KeySet()
  {
  }

  lemma UzNonEmpty()
    ensures forall k :: k in Translations(Uz) ==> Translations(Uz)[k] != ""
  {
  }

  /** There are twenty keys: the key list has no repeated entry. */
  lemma TwentyKeys()
    ensures |KeySet()| == 20
  {
    var acc: set<string> := {};
    var i := 0;
    while i < |KeyList|
      invariant 0 <= i <= |KeyList|
      invariant acc == set k | k in KeyList[..i]
      invariant |acc| == i
    {
      assert KeyList[i] !in acc;
      assert KeyList[..i + 1] == KeyList[..i] + [KeyList[i]];
      acc := acc + {KeyList[i]};
      i := i + 1;
    }
    assert KeyList[..|KeyList|] == KeyList;
  }

  /** The lookup falls back to the key exactly when the key is not one of
      the twenty, in every language alike: no language falls back on a key
      that another language translates. */
  lemma FallbackIsUniform(l1: Language, l2: Language, key: string)
    ensures FallsBack(l1, key) <==> key !in KeySet()
    ensures FallsBack(l1, key) <==> FallsBack(l2, key)
    ensures FallsBack(l1, key) ==> T(l1, key) == key
  {
    JaKeys(); EnKeys(); UzKeys();
    JaNonEmpty(); EnNonEmpty(); UzNonEmpty();
  }

  /** The provider's state: the current language, Japanese at start. */
  class LanguageProvider {
    var language: Language

    constructor ()
      ensures language == Ja
    {
      language := Ja;
    }

    method SetLanguage(lang: Language)
      modifies this
      ensures language == lang
    {
      language := lang;
    }

    /** `t`: the lookup in the current language. */
    function Translate(key: string): (r: string)
      reads this
      ensures r == T(language, key)
      ensures FallsBack(language, key) <==> key !in KeySet()
      ensures key !in KeySet() ==> r == key
    {
      FallbackIsUniform(language, language, key);
      T(language, key)
    }
  }
}
