/**
 * Lookup of user-facing texts: one table of key/text pairs per language,
 * with a fallback to the default language's table and then to the key itself.
 */
module Localization {

  type TextTable = map<string, string>
  type Translations = map<string, TextTable>

  /** The table a language reads from: its own, or the default language's when it has none. */
  function TableFor(translations: Translations, defaultLanguage: string, language: string): TextTable
    requires defaultLanguage in translations
  {
    if language in translations then translations[language] else translations[defaultLanguage]
  }

  /**
   * The text for `key` in `language`. The default language's table must exist:
   * the lookup of that table is evaluated on every call, whether it is used or not.
   */
  function Localize(translations: Translations, defaultLanguage: string, key: string, language: string): (r: string)
    requires defaultLanguage in translations
    ensures language in translations && key in translations[language] ==> r == translations[language][key]
    ensures language in translations && key !in translations[language] ==> r == key
    ensures language !in translations && key in translations[defaultLanguage] ==> r == translations[defaultLanguage][key]
    ensures language !in translations && key !in translations[defaultLanguage] ==> r == key
  {
    var table := TableFor(translations, defaultLanguage, language);
    if key in table then table[key] else key
  }

  /** An unknown language reads exactly as the default language does. */
  lemma UnknownLanguageReadsAsDefault(translations: Translations, defaultLanguage: string, key: string, language: string)
    requires defaultLanguage in translations
    requires language !in translations
    ensures Localize(translations, defaultLanguage, key, language) == Localize(translations, defaultLanguage, key, defaultLanguage)
  {
  }

  /** Every result is either a text of some table or the key itself. */
  lemma ResultIsTextOrKey(translations: Translations, defaultLanguage: string, key: string, language: string)
    requires defaultLanguage in translations
    ensures var r := Localize(translations, defaultLanguage, key, language);
            r == key || exists l :: l in translations && key in translations[l] && translations[l][key] == r
  {
    var r := Localize(translations, defaultLanguage, key, language);
    if language in translations && key in translations[language] {
      assert translations[language][key] == r;
    } else if language !in translations && key in translations[defaultLanguage] {
      assert translations[defaultLanguage][key] == r;
    }
  }

}
