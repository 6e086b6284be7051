/** The start screen: the language toggle and the log-in button, whose
    routing depends only on which storage keys are present. */
module Start {
  import opened Wrappers
  import opened Storage
  import opened Language

  /** The log-in decision on the two values read: no user record means no
      navigation; with one, "home" when the "grazingData" value is truthy
      (present and not the empty string) and "hello" otherwise. */
  function LoginRoute(userData: Option<User>, grazingData: Option<string>): (r: Option<Route>)
    ensures r == None <==> userData == None
    ensures r == Some(ToHome) <==> userData.Some? && grazingData.Some? && grazingData.value != ""
    ensures r == Some(ToHello) <==> userData.Some? && (grazingData == None || grazingData == Some(""))
  {
    if userData.Some? then
      if grazingData.Some? && grazingData.value != "" then Some(ToHome) else Some(ToHello)
    else None
  }

  /** The log-in decision as evidently intended: "home" exactly when a user
      is stored and so is a session list under the key it is written to,
      "grazingList" (a stored list is never the empty string: even an empty
      list is the text "[]"); "hello" for a user without one; no navigation
      without a user. */
  function IntendedLoginRoute(userData: Option<User>, grazingList: Option<seq<Record>>): (r: Option<Route>)
    ensures r == Some(ToHome) <==> userData.Some? && grazingList.Some?
    ensures r == Some(ToHello) <==> userData.Some? && grazingList == None
    ensures r == None <==> userData == None
  {
    if userData.Some? then
      if grazingList.Some? then Some(ToHome) else Some(ToHello)
    else None
  }

  /** As written, log-in looks for a key no screen writes: a store that
      holds a user and a saved session list, but no "grazingData" key, sends
      the user to "hello" rather than to the list. */
  lemma LoginIgnoresSavedList(user: User, list: seq<Record>)
    ensures LoginRoute(Some(user), None) == Some(ToHello)
    ensures IntendedLoginRoute(Some(user), Some(list)) == Some(ToHome)
  {
  }

  class StartScreen {
    var language: string
    var flag: Flag

    /** The screen before its mount effect. */
    constructor ()
      ensures language == "en" && flag == UkrainePng
    {
      language, flag := "en", UkrainePng;
    }

    /** The mount effect: after the fonts load, a stored non-empty language
        replaces the default and picks its flag. */
    method LoadFontsAndLanguage(store: Store, fonts: IoOutcome, languageRead: IoOutcome)
      modifies this
      ensures fonts == Resolved && languageRead == Resolved && store.language.Some? && store.language.value != "" ==>
        language == store.language.value && flag == FlagFor(language)
      ensures !(fonts == Resolved && languageRead == Resolved && store.language.Some? && store.language.value != "") ==>
        language == old(language) && flag == old(flag)
    {
      if fonts == Resolved && languageRead == Resolved && store.language.Some? && store.language.value != "" {
        language := store.language.value;
        flag := FlagFor(language);
      }
    }

    /** The flag button: switch locale, show its flag, then persist it. */
    method ToggleLanguage(store: Store, write: IoOutcome)
      modifies this, store
      ensures language == Toggled(old(language)) && flag == FlagFor(language)
      ensures flag == UkPng <==> language == "ua"
      ensures store.language == (if write == Resolved then Some(language) else old(store.language))
      ensures store.grazingList == old(store.grazingList) && store.userData == old(store.userData)
      ensures store.grazingData == old(store.grazingData)
    {
      var newLanguage := Toggled(language);
      language := newLanguage;
      flag := FlagFor(newLanguage);
      var _ := store.WriteLanguage(newLanguage, write);
    }

    /** The log-in button. A read that throws ends the handler with no
        navigation. Every write this app makes leaves "grazingData" absent,
        so a logged-in user is then always sent to "hello". */
    method HandleLogIn(store: Store, read: IoOutcome) returns (nav: Option<Route>)
      ensures read == Rejected ==> nav == None
      ensures read == Resolved ==> nav == LoginRoute(store.userData, store.grazingData)
      ensures store.userData == None ==> nav == None
      ensures store.grazingData == None || store.grazingData == Some("") ==> nav != Some(ToHome)
    {
      if read == Rejected {
        return None;
      }
      var userData := store.userData;
      var grazingList := store.grazingData;
      nav := LoginRoute(userData, grazingList);
    }
  }
}
