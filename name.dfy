/** The account-creation screen: copies the sign-up fields from its route
    parameters once, then creates the account by wiping the session list and
    writing the user record. */
module Name {
  import opened Wrappers
  import opened Storage
  import opened Language

  /** One route parameter as the router hands it over: missing, a string, or
      an array of strings (never empty here). */
  datatype Param = Missing | Text(s: string) | Many(first: string, rest: seq<string>)

  /** The route parameters the screen reads. */
  datatype Params = Params(email: Param, password: Param, repeatPassword: Param, name: Param)

  /** What `if (p) set(Array.isArray(p) ? p[0] : p)` sets: nothing for a
      missing or empty-string parameter (both falsy), the string itself, or
      the first element of an array (an array is truthy even when its first
      element is empty). */
  function ParamValue(p: Param): (r: Option<string>)
    ensures p.Missing? ==> r == None
    ensures p.Text? ==> (r == None <==> p.s == "")
    ensures p.Text? && p.s != "" ==> r == Some(p.s)
    ensures p.Many? ==> r == Some(p.first)
  {
    match p
    case Missing => None
    case Text(s) => if s != "" then Some(s) else None
    case Many(first, _) => Some(first)
  }

  /** A field keeps its value unless the parameter supplies one. */
  function Updated(current: string, p: Param): (r: string)
    ensures ParamValue(p) == None ==> r == current
    ensures ParamValue(p).Some? ==> r == ParamValue(p).value
  {
    var v := ParamValue(p);
    if v.Some? then v.value else current
  }

  class NameScreen {
    var language: string
    var name: string
    var email: string
    var password: string
    var repeatPassword: string
    var agree: bool
    var isInitialized: bool

    /** The screen before its effects have run. */
    constructor ()
      ensures language == "en" && name == "" && email == "" && password == "" && repeatPassword == ""
      ensures !agree && !isInitialized
    {
      language, name, email, password, repeatPassword := "en", "", "", "", "";
      agree, isInitialized := false, false;
    }

    /** The font-and-language effect: a stored non-empty language replaces
        the default once the fonts have loaded. */
    method LoadFontsAndLanguage(store: Store, fonts: IoOutcome, languageRead: IoOutcome)
      modifies this`language
      ensures language ==
        if fonts == Resolved && languageRead == Resolved then Stored(store.language, old(language)) else old(language)
    {
      if fonts == Resolved && languageRead == Resolved {
        language := Stored(store.language, language);
      }
    }

    /** The parameter effect. While the screen is not yet initialised it
        copies every supplied parameter into its field, sets `agree`
        whatever the parameters say, and marks itself initialised; once
        initialised it changes nothing, so it takes effect at most once. */
    method InitFromParams(params: Params)
      modifies this
      ensures isInitialized && language == old(language)
      ensures old(isInitialized) ==>
        && email == old(email) && password == old(password)
        && repeatPassword == old(repeatPassword) && name == old(name) && agree == old(agree)
      ensures !old(isInitialized) ==>
        && email == Updated(old(email), params.email)
        && password == Updated(old(password), params.password)
        && repeatPassword == Updated(old(repeatPassword), params.repeatPassword)
        && name == Updated(old(name), params.name)
        && agree
    {
      if !isInitialized {
        email := Updated(email, params.email);
        password := Updated(password, params.password);
        repeatPassword := Updated(repeatPassword, params.repeatPassword);
        name := Updated(name, params.name);
        agree := true;
        isInitialized := true;
      }
    }

    /** The name field's `onChangeText`. */
    method SetName(text: string)
      modifies this`name
      ensures name == text
    {
      name := text;
    }

    /** "Create account": remove the "grazingList" key, then write the user
        record, then go to the hello screen. A step that throws is caught:
        later steps do not run and there is no navigation. */
    method HandleNext(store: Store, remove: IoOutcome, write: IoOutcome) returns (nav: Option<Route>)
      modifies store
      ensures nav == (if remove == Resolved && write == Resolved then Some(ToHello) else None)
      ensures store.grazingList == (if remove == Resolved then None else old(store.grazingList))
      ensures store.userData ==
        if remove == Resolved && write == Resolved then Some(User(email, password, name)) else old(store.userData)
      ensures store.language == old(store.language) && store.grazingData == old(store.grazingData)
    {
      nav := None;
      var removed := store.RemoveGrazingList(remove);
      if !removed {
        return;
      }
      var userData := User(email, password, name);
      var saved := store.WriteUserData(userData, write);
      if saved {
        nav := Some(ToHello);
      }
    }
  }
}
