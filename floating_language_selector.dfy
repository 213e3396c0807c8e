/** src/components/common/FloatingLanguageSelector.tsx: the language list,
    the entry shown for the current code, and the handlers. The i18n layer
    is reduced to what the selector reads and writes: its current language
    and the `hotelAppLanguage` entry of the browser's storage
    (src/i18n/index.ts:57-66). */
module FloatingLanguageSelector {
  import opened Common
  import opened BrowserStorage
  import opened AppStateContext

  datatype Language = Language(code: string, name: string, flag: string)

  const Languages: seq<Language> := [
    Language("en", "English", "\U{1F1EC}\U{1F1E7}"),
    Language("es", "Español", "\U{1F1EA}\U{1F1F8}"),
    Language("fr", "Français", "\U{1F1EB}\U{1F1F7}"),
    Language("de", "Deutsch", "\U{1F1E9}\U{1F1EA}"),
    Language("zh", "中文", "\U{1F1E8}\U{1F1F3}"),
    Language("ja", "日本語", "\U{1F1EF}\U{1F1F5}")
  ]

  const LanguageStorageKey: string := "hotelAppLanguage"

  /** `langs.find(lang => lang.code === code)`: the first entry with that
      code, if any. */
  function Find(langs: seq<Language>, code: string): (r: Option<Language>)
    ensures r.Some? ==> r.value in langs && r.value.code == code
    ensures r.None? <==> forall i :: 0 <= i < |langs| ==> langs[i].code != code
    ensures r.Some? ==> exists i :: 0 <= i < |langs| && langs[i] == r.value
                          && forall j :: 0 <= j < i ==> langs[j].code != code
  {
    if langs == [] then None
    else if langs[0].code == code then Some(langs[0])
    else
      var rest := Find(langs[1..], code);
      if rest.Some? then
        var i :| 0 <= i < |langs[1..]| && langs[1..][i] == rest.value
                 && forall j :: 0 <= j < i ==> langs[1..][j].code != code;
        assert langs[i + 1] == rest.value;
        rest
      else
        assert forall i :: 1 <= i < |langs| ==> langs[i] == langs[1..][i - 1];
        rest
  }

  /** `LANGUAGES.find(...) || LANGUAGES[0]`: a found entry is an object and
      so truthy; otherwise English. */
  function Lookup(code: string): Language
  {
    var found := Find(Languages, code);
    if found.Some? then found.value else Languages[0]
  }

  /** The entry shown is always one of the list; a listed code shows its own
      entry, any other code shows English. */
  lemma LookupLaws(code: string)
    ensures Lookup(code) in Languages
    ensures (exists i :: 0 <= i < |Languages| && Languages[i].code == code) ==> Lookup(code).code == code
    ensures (forall i :: 0 <= i < |Languages| ==> Languages[i].code != code) ==> Lookup(code) == Languages[0]
    ensures Lookup(code).code == code || Lookup(code).code == "en"
  {
  }

  predicate DistinctCodes(langs: seq<Language>)
  {
    forall a, b :: 0 <= a < b < |langs| ==> langs[a].code != langs[b].code
  }

  /** In a list with distinct codes, each entry's code finds that entry. */
  lemma {:induction false} FindDistinct(langs: seq<Language>, i: nat)
    requires DistinctCodes(langs) && i < |langs|
    ensures Find(langs, langs[i].code) == Some(langs[i])
    decreases i
  {
    if i > 0 {
      assert langs[0].code != langs[i].code;
      assert langs[1..][i - 1] == langs[i];
      FindDistinct(langs[1..], i - 1);
    }
  }

  /** The codes are distinct, so a listed code finds exactly its entry. */
  lemma LookupListed(i: nat)
    requires i < |Languages|
    ensures Lookup(Languages[i].code) == Languages[i]
  {
    assert Languages[0].code == "en" && Languages[1].code == "es" && Languages[2].code == "fr";
    assert Languages[3].code == "de" && Languages[4].code == "zh" && Languages[5].code == "ja";
    FindDistinct(Languages, i);
  }

  /** `getCurrentLanguage`: `i18n.language || localStorage.getItem(...) || 'en'`. */
  function CurrentLangCode(i18nLanguage: string, stored: Option<string>): (code: string)
    ensures i18nLanguage != "" ==> code == i18nLanguage
    ensures i18nLanguage == "" ==> code == OrElse(stored, "en")
    ensures i18nLanguage == "" && stored.Some? && stored.value != "" ==> code == stored.value
    ensures code != ""
  {
    OrElse(Some(i18nLanguage), OrElse(stored, "en"))
  }

  /** The i18n instance's current language. */
  class I18n {
    var language: string

    constructor (language: string)
      ensures this.language == language
    {
      this.language := language;
    }
  }

  /** The selector's own state. */
  class Selector {
    var isOpen: bool

    constructor ()
      ensures !isOpen
    {
      isOpen := false;
    }

    /** The flag button. */
    method ToggleOpen()
      modifies this
      ensures isOpen == !old(isOpen)
    {
      isOpen := !isOpen;
    }

    /** The close button. */
    method Close()
      modifies this
      ensures !isOpen
    {
      isOpen := false;
    }

    /** `handleLanguageChange`: the code goes to the i18n layer, to its storage
        entry and to the preference store, and the dropdown closes; nothing
        else in the preference store changes. */
    method HandleLanguageChange(i18n: I18n, storage: LocalStorage, app: AppStateProvider, langCode: string)
      modifies this, i18n, storage, app
      ensures i18n.language == langCode
      ensures storage.entries == old(storage.entries)[LanguageStorageKey := langCode]
      ensures app.State() == WithLanguage(old(app.State()), langCode)
      ensures !isOpen
    {
      storage.SetItem(LanguageStorageKey, langCode);
      i18n.language := langCode;
      app.SetCurrentLanguage(langCode);
      isOpen := false;
    }
  }

  /** After choosing a listed language the selector shows that language,
      and the preference store holds the same code. */
  lemma ChosenLanguageIsShown(i: nat, stored: Option<string>)
    requires i < |Languages|
    ensures Lookup(CurrentLangCode(Languages[i].code, stored)) == Languages[i]
  {
    assert |Languages[i].code| == 2 by {
      assert Languages[0].code == "en" && Languages[1].code == "es" && Languages[2].code == "fr";
      assert Languages[3].code == "de" && Languages[4].code == "zh" && Languages[5].code == "ja";
    }
    assert CurrentLangCode(Languages[i].code, stored) == Languages[i].code;
    LookupListed(i);
  }
}
