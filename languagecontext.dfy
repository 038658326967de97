/** The application-wide language state (src/contexts/LanguageContext.tsx): the provider
    holds the current language; the bound lookup, the right-to-left flag and the text
    direction of the wrapper are all read from it. */
module LanguageContext {
  import opened Wrappers
  import opened I18n

  class LanguageProvider {
    var lang: Language

    /** The provider starts in Arabic. */
    constructor ()
      ensures lang == Ar
    {
      lang := Ar;
    }

    /** `setLang(x)`: the language becomes `x`, whatever it was; so setting the same value
        twice leaves the state that setting it once does. */
    method SetLang(x: Language)
      modifies this
      ensures lang == x
    {
      lang := x;
    }

    /** `isRTL`: the writing direction is right to left exactly for Arabic. */
    function IsRtl(): (rtl: bool)
      reads this
      ensures rtl <==> Code(lang) == "ar"
    {
      lang == Ar
    }

    /** The `dir` attribute of the wrapper element. */
    function Dir(): (dir: string)
      reads this
      ensures dir == "rtl" <==> IsRtl()
      ensures dir == "ltr" <==> !IsRtl()
    {
      if IsRtl() then "rtl" else "ltr"
    }

    /** The context's `t(key)`: the current language's table entry for the key, looked up
        afresh from `lang` on every call. */
    function T(k: Key): (text: string)
      reads this
      ensures text == Entry(lang, k)
    {
      TranslateIsEntry(k, lang);
      Translate(k, lang)
    }
  }

  const OutsideProviderMessage: string := "useLanguage must be used within a LanguageProvider"

  /** `useLanguage()`: outside any provider (`provider == null`) it throws; inside, it
      returns the provider's value. */
  function UseLanguage(provider: LanguageProvider?): (r: Result<LanguageProvider, string>)
    ensures r.Success? <==> provider != null
    ensures r.Success? ==> r.value == provider
    ensures r.Failure? ==> r.error == OutsideProviderMessage
  {
    if provider == null then Failure(OutsideProviderMessage) else Success(provider)
  }

  /** After a language change every lookup through the context follows the new language. */
  method SetLangThenLookup(p: LanguageProvider, x: Language, k: Key) returns (text: string)
    modifies p
    ensures p.lang == x && text == Translate(k, x) && text == Entry(x, k)
  {
    p.SetLang(x);
    text := p.T(k);
    TranslateIsEntry(k, x);
  }
}
