/** The phrase tables used to recognise the host page's localized labels, and the two
    ways the variants pick a table from the page's declared language. */
module I18n {
  import opened Common

  /** Accessible-label phrases the classifier and the follow-button handler look for. */
  datatype Aria = Aria(
    listHide: string, listFollowed: string, listLiked: string, listReposted: string,
    feedFollowed: string, avatar: string, follow: string, following: string)

  /** Labels of the three counts in an annotation. */
  datatype Labels = Labels(posts: string, followers: string, following: string)

  datatype Phrases = Phrases(aria: Aria, labels: Labels)

  /** The `i18n` table. */
  const Table: map<string, Phrases> := map[
    "en" := Phrases(
      Aria("Hide user list", "followed you", "liked your post", "reposted your post",
           "followed you", " avatar", "Follow", "Following"),
      Labels("Posts", "Followers", "Following")),
    "fr" := Phrases(
      Aria("Cacher la liste des comptes", "vous ont suivi", "aimé votre post",
           "republié votre post", "suivi votre compte", "avatar de", "Suivre", "Suivi"),
      Labels("Posts", "Abonnés", "Abonnements")),
    "es" := Phrases(
      Aria("Ocultar lista de usuarios", "más te siguieron",
           "más dieron \"me gusta\" a tu publicación", "más republicaron tu publicación",
           "te siguió", "avatar de", "Seguir", "Siguiendo"),
      Labels("Publications", "Seguidores", "Siguiendo"))
  ]

  /** `locale.split('-')[0]`: the part of the locale before its first `-`. */
  function LangCode(locale: string): (r: string)
    ensures StartsWith(locale, r) && '-' !in r
    ensures |r| < |locale| ==> locale[|r|] == '-'
  {
    if locale == [] || locale[0] == '-' then [] else [locale[0]] + LangCode(locale[1..])
  }

  /** `getLang(fallback)`: the table of the page language with its region dropped, else the
      fallback's table, else none. `htmlLang` is `html.lang || ''`. */
  function GetLang(htmlLang: string, fallback: string): Option<Phrases>
  {
    var lang := LangCode(htmlLang);
    if lang in Table then Some(Table[lang])
    else if fallback in Table then Some(Table[fallback])
    else None
  }

  /** A region suffix does not matter: `fr-CA` finds the `fr` table. */
  lemma {:induction false} LangCodeDropsRegion(code: string, region: string)
    requires '-' !in code
    ensures LangCode(code + "-" + region) == code
    decreases |code|
  {
    if code == [] {
      assert (code + "-" + region)[0] == '-';
    } else {
      assert (code + "-" + region)[1..] == code[1..] + "-" + region;
      LangCodeDropsRegion(code[1..], region);
    }
  }

  /** With a supported language code, any region resolves to that language's table. */
  lemma GetLangWithRegion(code: string, region: string, fallback: string)
    requires code in Table
    ensures GetLang(code + "-" + region, fallback) == Some(Table[code])
  {
    assert '-' !in code by {
      assert code == "en" || code == "fr" || code == "es";
    }
    LangCodeDropsRegion(code, region);
  }

  /** An unsupported language with no usable fallback yields no table at all; with the
      `en` fallback (as the renderer asks) there is always one. */
  lemma GetLangUnsupported(htmlLang: string)
    requires LangCode(htmlLang) !in Table
    ensures GetLang(htmlLang, "") == None
    ensures GetLang(htmlLang, "en") == Some(Table["en"])
  {
  }

  /** The older variant: `i18n[html.lang]`, by the exact declared language, no fallback. */
  function LegacyLang(htmlLang: string): Option<Phrases>
  {
    if htmlLang in Table then Some(Table[htmlLang]) else None
  }

  /** A page declared `en-US` is unsupported by the older variant but English to the newer. */
  lemma RegionOnlyInCurrent()
    ensures LegacyLang("en-US") == None
    ensures GetLang("en-US", "") == Some(Table["en"])
  {
    GetLangWithRegion("en", "US", "");
    assert "en-US" == "en" + "-" + "US";
  }
}
