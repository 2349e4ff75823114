/**
 * The locale store (src/stores/i18nStore.ts). The browser is represented by
 * whether a window exists and by one `localStorage` entry, `cdb-locale`.
 * The supported locales and the default come from the message tables, which
 * are not part of this model; the two locales the store itself names are
 * "en" and "zh-TW".
 */
module I18nStore {
  import opened Optional
  import opened Strings

  const English := "en"
  const Chinese := "zh-TW"

  /** `navigator.language.toLowerCase().startsWith("zh")`. */
  predicate PrefersChinese(language: string)
  {
    |language| >= 2 && ToLowerChar(language[0]) == 'z' && ToLowerChar(language[1]) == 'h'
  }

  /** The locale `initialize` settles on, and whether it writes it back. */
  function PickLocale(saved: Option<string>, language: string, supported: seq<string>): (r: (string, bool))
    ensures saved.Some? && saved.value != "" && saved.value in supported ==> r == (saved.value, false)
    ensures !(saved.Some? && saved.value != "" && saved.value in supported) ==>
              r == (if PrefersChinese(language) then Chinese else English, true)
  {
    if saved.Some? && saved.value != "" && saved.value in supported then (saved.value, false)
    else (if PrefersChinese(language) then Chinese else English, true)
  }

  class LocaleStore {
    var locale: string
    var initialized: bool
    /** Whether `window` exists: false during server rendering. */
    const hasWindow: bool
    /** The `cdb-locale` entry of `localStorage`. */
    var saved: Option<string>
    /** `SUPPORTED_LOCALES`. */
    const supported: seq<string>

    constructor(defaultLocale: string, supported: seq<string>, hasWindow: bool, saved: Option<string>)
      ensures locale == defaultLocale && !initialized
      ensures this.hasWindow == hasWindow && this.saved == saved && this.supported == supported
    {
      locale := defaultLocale;
      initialized := false;
      this.hasWindow := hasWindow;
      this.saved := saved;
      this.supported := supported;
    }

    /** `setLocale`: the locale is set, and saved when there is a window. */
    method SetLocale(newLocale: string)
      modifies this
      ensures locale == newLocale && initialized == old(initialized)
      ensures saved == if hasWindow then Some(newLocale) else old(saved)
    {
      locale := newLocale;
      if hasWindow {
        saved := Some(newLocale);
      }
    }

    /**
     * `initialize`: nothing happens without a window; a supported saved
     * locale wins and is not written again; otherwise the browser language
     * picks zh-TW or en, which is saved.
     */
    method Initialize(language: string)
      modifies this
      ensures !hasWindow ==> locale == old(locale) && initialized == old(initialized) && saved == old(saved)
      ensures hasWindow ==> initialized && locale == PickLocale(old(saved), language, supported).0
      ensures hasWindow ==> saved == if PickLocale(old(saved), language, supported).1 then Some(locale) else old(saved)
    {
      if !hasWindow {
        return;
      }
      if saved.Some? && saved.value != "" && saved.value in supported {
        locale := saved.value;
        initialized := true;
        return;
      }
      var picked := if PrefersChinese(language) then Chinese else English;
      locale := picked;
      initialized := true;
      saved := Some(picked);
    }
  }

  /**
   * When both named locales are supported, initialization always lands on a
   * supported locale, and a second initialization changes nothing and
   * writes nothing: the first one left a supported locale saved.
   */
  lemma InitializeSettles(saved: Option<string>, language: string, language2: string, supported: seq<string>)
    requires English in supported && Chinese in supported
    ensures PickLocale(saved, language, supported).0 in supported
    ensures var (l, write) := PickLocale(saved, language, supported);
            var after := if write then Some(l) else saved;
            PickLocale(after, language2, supported) == (l, false)
  {
  }
}
