/** The on-device key-value store shared by all screens, with its
    structured values written out as datatypes instead of JSON text. */
module Storage {
  import opened Wrappers

  /** One grazing session, as stored in the "grazingList" array. */
  datatype Record = Record(
    animal: string,
    quantity: string,
    duration: string,
    location: string,
    droneID: string,
    shepherdIDs: seq<string>)

  /** The "userData" object written when an account is created. */
  datatype User = User(email: string, password: string, name: string)

  /** How one awaited storage call settles: a rejected promise throws at
      the `await`, so nothing after it in the handler runs. */
  datatype IoOutcome = Resolved | Rejected

  /** Navigation targets pushed by the modelled handlers. */
  datatype Route = ToHome | ToHello | ToCreateGrazing

  /** The two flag images shown by the language toggle. */
  datatype Flag = UkPng | UkrainePng

  /** The store as this app sees it: one optional slot per key. `grazingData`
      is a key the start screen reads and that no screen ever writes. */
  class Store {
    var grazingList: Option<seq<Record>>
    var userData: Option<User>
    var language: Option<string>
    var grazingData: Option<string>

    /** A freshly installed app: no key is present. */
    constructor Empty()
      ensures grazingList == None && userData == None
      ensures language == None && grazingData == None
    {
      grazingList, userData := None, None;
      language, grazingData := None, None;
    }

    /** setItem("grazingList", JSON.stringify(list)) */
    method WriteGrazingList(list: seq<Record>, io: IoOutcome) returns (ok: bool)
      modifies this
      ensures ok <==> io == Resolved
      ensures grazingList == (if ok then Some(list) else old(grazingList))
      ensures userData == old(userData) && language == old(language)
      ensures grazingData == old(grazingData)
    {
      ok := io == Resolved;
      if ok {
        grazingList := Some(list);
      }
    }

    /** removeItem("grazingList") */
    method RemoveGrazingList(io: IoOutcome) returns (ok: bool)
      modifies this
      ensures ok <==> io == Resolved
      ensures grazingList == (if ok then None else old(grazingList))
      ensures userData == old(userData) && language == old(language)
      ensures grazingData == old(grazingData)
    {
      ok := io == Resolved;
      if ok {
        grazingList := None;
      }
    }

    /** setItem("userData", JSON.stringify(user)) */
    method WriteUserData(user: User, io: IoOutcome) returns (ok: bool)
      modifies this
      ensures ok <==> io == Resolved
      ensures userData == (if ok then Some(user) else old(userData))
      ensures grazingList == old(grazingList) && language == old(language)
      ensures grazingData == old(grazingData)
    {
      ok := io == Resolved;
      if ok {
        userData := Some(user);
      }
    }

    /** setItem("language", lang) */
    method WriteLanguage(lang: string, io: IoOutcome) returns (ok: bool)
      modifies this
      ensures ok <==> io == Resolved
      ensures language == (if ok then Some(lang) else old(language))
      ensures grazingList == old(grazingList) && userData == old(userData)
      ensures grazingData == old(grazingData)
    {
      ok := io == Resolved;
      if ok {
        language := Some(lang);
      }
    }
  }
}
