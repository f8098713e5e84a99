/** The two languages the site is built in, and the language-switch helper. */
module Lang {

  /** The languages the build loop visits, in order. */
  const Languages: seq<string> := ["en", "fr"]

  /** `toggle_lang`: the language the switch link on a page points to. */
  function ToggleLang(current: string): (other: string)
    ensures other in Languages
    ensures other == "fr" <==> current == "en"
  {
    if current == "en" then "fr" else "en"
  }

  /** On the two supported languages the toggle swaps them, so applying it twice is the identity. */
  lemma ToggleIsInvolutionOnLanguages(lang: string)
    requires lang in Languages
    ensures ToggleLang(lang) in Languages
    ensures ToggleLang(lang) != lang
    ensures ToggleLang(ToggleLang(lang)) == lang
  {
  }

  /** Every code other than "en", supported or not, toggles to "en"; outside the pair the toggle is no involution. */
  lemma ToggleOutsideLanguages(code: string)
    requires code !in Languages
    ensures ToggleLang(code) == "en"
    ensures ToggleLang(ToggleLang(code)) == "fr" != code
  {
  }
}
