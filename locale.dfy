/**
 * Choice of the interface language from the browser's reported preference
 * (`getBrowserLocale` in src/plugins/i18n.js). The two navigator properties
 * are parameters; `None` stands for `undefined`.
 */
module Locale {
  import opened Wrappers

  /** The languages with a message catalog, in the order the source lists them. */
  const Supported: seq<string> := ["ar", "en", "de"]
  const Fallback: string := "en"

  /** JavaScript truthiness of an optional string: present and non-empty. */
  predicate Truthy(s: Option<string>): (b: bool)
    ensures !b <==> s == None || s == Some("")
  {
    s.Some? && s.value != ""
  }

  /** `navigator.language || navigator.userLanguage || 'en'`. */
  function PreferredTag(language: Option<string>, userLanguage: Option<string>): (tag: string)
    ensures tag != ""
    ensures Truthy(language) ==> tag == language.value
    ensures !Truthy(language) && Truthy(userLanguage) ==> tag == userLanguage.value
    ensures !Truthy(language) && !Truthy(userLanguage) ==> tag == Fallback
  {
    if Truthy(language) then language.value
    else if Truthy(userLanguage) then userLanguage.value
    else Fallback
  }

  /** `s.split('-')[0]`: the part of `s` before its first `-`, or all of `s`. */
  function BeforeDash(s: string): (p: string)
    ensures p <= s
    ensures '-' !in p
    ensures |p| < |s| ==> s[|p|] == '-'
  {
    if s == [] || s[0] == '-' then [] else [s[0]] + BeforeDash(s[1..])
  }

  function LowerChar(c: char): char {
    if 'A' <= c <= 'Z' then (c as int + 32) as char else c
  }

  /** `toLowerCase`, on ASCII letters. */
  function Lower(s: string): (r: string)
    ensures |r| == |s|
    ensures forall i :: 0 <= i < |s| ==> r[i] == LowerChar(s[i])
  {
    if s == [] then [] else [LowerChar(s[0])] + Lower(s[1..])
  }

  /** The lowercased language subtag of a language tag. */
  function LanguageCode(tag: string): (code: string)
    ensures |code| <= |tag|
    ensures code == Lower(tag[..|code|])
    ensures '-' !in code
    ensures |code| < |tag| ==> tag[|code|] == '-'
  {
    var prefix := BeforeDash(tag);
    assert prefix == tag[..|prefix|];
    assert forall i :: 0 <= i < |prefix| ==> Lower(prefix)[i] != '-';
    Lower(prefix)
  }

  /** The supported language the browser asks for, or English. */
  function GetBrowserLocale(language: Option<string>, userLanguage: Option<string>): (locale: string)
    ensures locale in Supported
    ensures LanguageCode(PreferredTag(language, userLanguage)) in Supported ==>
      locale == LanguageCode(PreferredTag(language, userLanguage))
    ensures LanguageCode(PreferredTag(language, userLanguage)) !in Supported ==> locale == Fallback
  {
    var code := LanguageCode(PreferredTag(language, userLanguage));
    if code in Supported then code else Fallback
  }

  /** A string without `-` is its own language subtag. */
  lemma BeforeDashNoDash(s: string)
    requires '-' !in s
    ensures BeforeDash(s) == s
  {
  }

  /** Only the part before the first `-` matters: a region suffix is ignored. */
  lemma {:induction false} BeforeDashIgnoresSuffix(lang: string, region: string)
    requires '-' !in lang
    ensures BeforeDash(lang + "-" + region) == lang
  {
    if lang != [] {
      assert (lang + "-" + region)[1..] == lang[1..] + "-" + region;
      assert forall c :: c in lang[1..] ==> c in lang;
      BeforeDashIgnoresSuffix(lang[1..], region);
    }
  }

  /** Lowercasing twice is lowercasing once. */
  lemma LowerIdempotent(s: string)
    ensures Lower(Lower(s)) == Lower(s)
  {
  }

  /** Lowercasing keeps every `-` where it was and adds none. */
  lemma BeforeDashLower(s: string)
    ensures BeforeDash(Lower(s)) == Lower(BeforeDash(s))
  {
  }

  /** The example from the source comment: `en-US` gives `en`. */
  lemma EnglishUnitedStates()
    ensures GetBrowserLocale(Some("en-US"), None) == "en"
  {
  }

  /** With neither navigator property set, the result is English. */
  lemma NothingReported()
    ensures GetBrowserLocale(None, None) == "en"
  {
  }

  /** `de-AT` and `de` give the same locale; so does any tag with a region suffix. */
  lemma RegionIgnored(lang: string, region: string, userLanguage: Option<string>)
    requires lang != "" && '-' !in lang
    ensures GetBrowserLocale(Some(lang + "-" + region), userLanguage) == GetBrowserLocale(Some(lang), userLanguage)
  {
    BeforeDashIgnoresSuffix(lang, region);
    BeforeDashNoDash(lang);
  }

  /** The letter case of the tag does not matter. */
  lemma CaseIgnored(tag: string, userLanguage: Option<string>)
    ensures GetBrowserLocale(Some(Lower(tag)), userLanguage) == GetBrowserLocale(Some(tag), userLanguage)
  {
    BeforeDashLower(tag);
    LowerIdempotent(BeforeDash(tag));
  }

  /** `userLanguage` is consulted exactly when `language` is absent or empty. */
  lemma UserLanguageWhenLanguageMissing(language: Option<string>, userLanguage: Option<string>)
    requires !Truthy(language)
    ensures GetBrowserLocale(language, userLanguage) == GetBrowserLocale(userLanguage, None)
  {
  }

  /** A present, non-empty `language` decides alone: `userLanguage` is then never consulted. */
  lemma LanguageTakesPrecedence(language: Option<string>, userLanguage: Option<string>)
    requires Truthy(language)
    ensures GetBrowserLocale(language, userLanguage) == GetBrowserLocale(language, None)
  {
  }

  /** Feeding the chosen locale back in gives it again. */
  lemma Idempotent(language: Option<string>, userLanguage: Option<string>, other: Option<string>)
    ensures GetBrowserLocale(Some(GetBrowserLocale(language, userLanguage)), other) == GetBrowserLocale(language, userLanguage)
  {
    var locale := GetBrowserLocale(language, userLanguage);
    BeforeDashNoDash(locale);
    assert Lower(locale) == locale;
  }
}
