/** The create-team form: the observer drone's ID and a growable list of
    shepherd drone IDs, handed on to the create-grazing screen. */
module CreateTeam {
  import opened Wrappers
  import opened Storage
  import opened Language

  /** The `createTeamData` payload passed as a route parameter. */
  datatype TeamData = TeamData(dronePassword: string, shepherdPasswords: seq<string>)

  class CreateTeamForm {
    var language: string
    var fontsLoaded: bool
    var dronePassword: string
    var shepherdPasswords: seq<string>

    /** The form before its mount effect: one empty shepherd slot. */
    constructor ()
      ensures language == "en" && !fontsLoaded
      ensures dronePassword == "" && shepherdPasswords == [""]
    {
      language, fontsLoaded := "en", false;
      dronePassword, shepherdPasswords := "", [""];
    }

    /** The mount effect: load fonts, then the stored language, falling back
        to "en" when none is stored. A step that throws is only logged. */
    method LoadFontsAndLanguage(store: Store, fonts: IoOutcome, languageRead: IoOutcome)
      modifies this`language, this`fontsLoaded
      ensures fonts == Resolved && languageRead == Resolved ==>
        language == Stored(store.language, "en") && fontsLoaded
      ensures store.language == None && fonts == Resolved && languageRead == Resolved ==> language == "en"
      ensures !(fonts == Resolved && languageRead == Resolved) ==>
        language == old(language) && fontsLoaded == old(fontsLoaded)
    {
      if fonts == Resolved && languageRead == Resolved {
        language := Stored(store.language, "en");
        fontsLoaded := true;
      }
    }

    /** The drone-password field's `onChangeText`. */
    method SetDronePassword(text: string)
      modifies this`dronePassword
      ensures dronePassword == text
    {
      dronePassword := text;
    }

    /** "+ Add shepherd": one more empty slot at the end. */
    method AddShepherdPassword()
      modifies this`shepherdPasswords
      ensures shepherdPasswords == old(shepherdPasswords) + [""]
    {
      shepherdPasswords := shepherdPasswords + [""];
    }

    /** Typing into shepherd slot `index` (a rendered slot, so in range):
        a copy of the list with that one slot replaced. */
    method HandleShepherdPasswordChange(text: string, index: nat)
      requires index < |shepherdPasswords|
      modifies this`shepherdPasswords
      ensures |shepherdPasswords| == |old(shepherdPasswords)|
      ensures shepherdPasswords[index] == text
      ensures forall j :: 0 <= j < |shepherdPasswords| && j != index ==>
        shepherdPasswords[j] == old(shepherdPasswords)[j]
    {
      var updatedPasswords := shepherdPasswords[index := text];
      shepherdPasswords := updatedPasswords;
    }

    /** The Next button: the payload carries the drone password and every
        shepherd slot as typed, blank ones included, and the form moves on
        to the create-grazing screen. */
    method HandleNext() returns (payload: TeamData, nav: Route)
      ensures payload.dronePassword == dronePassword
      ensures payload.shepherdPasswords == shepherdPasswords
      ensures nav == ToCreateGrazing
    {
      payload := TeamData(dronePassword, shepherdPasswords);
      nav := ToCreateGrazing;
    }
  }
}
