/** The two-locale language preference, shared by the screens that show a
    flag toggle or read the stored language. */
module Language {
  import opened Wrappers
  import opened Storage

  /** The language the toggle switches to: "en" goes to "ua", and every
      other value, including one that is neither locale, goes to "en". */
  function Toggled(lang: string): (r: string)
    ensures r == "en" || r == "ua"
    ensures r == "ua" <==> lang == "en"
  {
    if lang == "en" then "ua" else "en"
  }

  /** Toggling twice returns a supported locale to itself. */
  lemma ToggledTwice(lang: string)
    requires lang == "en" || lang == "ua"
    ensures Toggled(Toggled(lang)) == lang
    ensures Toggled(lang) != lang
  {
  }

  /** The flag shown for a language: the uk.png image exactly for "ua". */
  function FlagFor(lang: string): (f: Flag)
    ensures f == UkPng <==> lang == "ua"
  {
    if lang == "ua" then UkPng else UkrainePng
  }

  /** The JavaScript `saved || fallback` on a value read from the store:
      an absent key and the empty string are both falsy. */
  function Stored(saved: Option<string>, fallback: string): (r: string)
    ensures saved == None ==> r == fallback
    ensures saved == Some("") ==> r == fallback
    ensures saved.Some? && saved.value != "" ==> r == saved.value
  {
    if saved.Some? && saved.value != "" then saved.value else fallback
  }
}
