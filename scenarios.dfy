/** Whole flows across screens, run against one store. Storage calls
    resolve except where a flow passes `Rejected` to exercise a failed
    write. Their results follow from the screens' contracts alone. */
module Scenarios {
  import opened Wrappers
  import opened Storage
  import Home
  import CreateGrazing
  import Start
  import Name

  /** Fill in the create-grazing form (one shepherd ID, plus one slot left
      blank) and press Next on a store with no session list. */
  method CreateOne(store: Store) returns (record: Record)
    requires store.grazingList == None
    modifies store
    ensures record == Record("Cows", "10", "2 Hours", "My location", "D1", ["S1"])
    ensures store.grazingList == Some([record])
  {
    var form := new CreateGrazing.CreateGrazingForm();
    form.HandleAnimalSelect("Cows");
    form.SetQuantity("10");
    form.HandleDurationSelect("2 Hours");
    form.SetDronePassword("D1");
    form.HandleShepherdPasswordChange("S1", 0);
    form.AddShepherdPassword();
    assert form.shepherdPasswords == ["S1", ""];
    assert form.selectedAnimal == "Cows" && form.quantity == "10";
    assert form.selectedDuration == "2 Hours" && form.dronePassword == "D1";
    record := CreateGrazing.NewGrazing("Cows", "10", "2 Hours", "D1", ["S1", ""]);
    assert record.shepherdIDs == ["S1"] by {
      CreateGrazing.BlankIffAllWhitespace("S1");
      CreateGrazing.BlankIffAllWhitespace("");
      assert !CreateGrazing.AllWhitespace("S1") by { assert "S1"[0] == 'S'; }
      assert ["S1", ""][1..] == [""];
      assert [""][1..] == [];
    }
    var nav := form.HandleNext(store, Resolved, Resolved);
    assert [] + [record] == [record];
  }

  /** Create one session, edit its quantity on the home screen, then delete
      it: the list has one record, then that record with the new quantity
      and its other fields intact, then none. */
  method CreateEditDelete() returns (created: nat, savedQuantity: string, savedLocation: string,
                                     savedShepherds: seq<string>, remaining: nat)
    ensures created == 1 && savedQuantity == "20"
    ensures savedLocation == "My location" && savedShepherds == ["S1"]
    ensures remaining == 0
  {
    var store := new Store.Empty();
    var record := CreateOne(store);

    var home := new Home.HomeScreen();
    home.FetchData(store, Resolved, Resolved);
    created := |home.grazingList|;
    home.HandleEdit(0);
    home.HandleQuantityChange("20");
    assert home.editableGrazing == Some(record.(quantity := "20"));
    home.HandleSave(0, store, Resolved);
    assert home.grazingList == [record.(quantity := "20")];
    savedQuantity := store.grazingList.value[0].quantity;
    savedLocation := store.grazingList.value[0].location;
    savedShepherds := store.grazingList.value[0].shepherdIDs;

    Home.RemoveAtSplice(home.grazingList, 0);
    home.HandleDelete(0, store, Resolved);
    remaining := |store.grazingList.value|;
  }

  /** Create an account, save a session, then log in: the user is sent to
      the hello screen although a session list is stored, because log-in
      looks for a key that nothing writes. */
  method SignUpCreateLogIn() returns (listStored: bool, nav: Option<Route>)
    ensures listStored && nav == Some(ToHello)
  {
    var store := new Store.Empty();
    var account := new Name.NameScreen();
    account.InitFromParams(Name.Params(Name.Text("a@b.c"), Name.Text("pw"), Name.Text("pw"), Name.Missing));
    account.SetName("Olena");
    var toHello := account.HandleNext(store, Resolved, Resolved);

    var form := new CreateGrazing.CreateGrazingForm();
    var toHome := form.HandleNext(store, Resolved, Resolved);
    listStored := store.grazingList.Some?;

    var start := new Start.StartScreen();
    nav := start.HandleLogIn(store, Resolved);
  }

  /** Two sessions that differ in every field the home editor leaves alone. */
  function FirstSession(): Record
  {
    Record("Cows", "10", "1 Hour", "My location", "D1", ["S1"])
  }

  function SecondSession(): Record
  {
    Record("Goats", "5", "2 Hours", "Field", "D2", [])
  }

  /** Home screen on a store holding the two sessions, loaded and editing
      the first one. */
  method EditFirstOfTwo(store: Store) returns (home: Home.HomeScreen)
    modifies store
    ensures fresh(home) && home.Valid() && home.EditsCurrent()
    ensures home.grazingList == [FirstSession(), SecondSession()]
    ensures home.editIndex == Some(0) && home.editableGrazing == Some(FirstSession())
    ensures store.grazingList == Some([FirstSession(), SecondSession()])
  {
    var _ := store.WriteGrazingList([FirstSession(), SecondSession()], Resolved);
    home := new Home.HomeScreen();
    home.FetchData(store, Resolved, Resolved);
    home.HandleEdit(0);
  }

  /** As written: delete the edited first card, the write rejects, and edit
      mode survives on index 0, where the second session now sits. Saving
      that card writes the deleted session back over the second one, whose
      location, drone and shepherds are lost. */
  method RejectedDeleteThenSave() returns (stored: seq<Record>)
    ensures stored == [FirstSession()]
    ensures SecondSession() !in stored
  {
    var store := new Store.Empty();
    var home := EditFirstOfTwo(store);
    home.HandleDelete(0, store, Rejected);
    assert home.grazingList == [SecondSession()] by {
      Home.RemoveAtSplice([FirstSession(), SecondSession()], 0);
    }
    assert home.editIndex == Some(0) && !home.EditsCurrent();
    home.HandleSave(0, store, Resolved);
    assert home.grazingList == [FirstSession()];
    stored := store.grazingList.value;
  }

  /** As intended: the same steps end edit mode with the delete, so the
      save button does nothing and the second session stays intact on the
      screen. The store still holds both, because the delete's write was
      rejected. */
  method RejectedDeleteThenSaveIntended() returns (shown: seq<Record>, stored: seq<Record>)
    ensures shown == [SecondSession()]
    ensures stored == [FirstSession(), SecondSession()]
  {
    var store := new Store.Empty();
    var home := EditFirstOfTwo(store);
    home.HandleDeleteIntended(0, store, Rejected);
    assert home.grazingList == [SecondSession()] by {
      Home.RemoveAtSplice([FirstSession(), SecondSession()], 0);
    }
    home.HandleSave(0, store, Resolved);
    shown := home.grazingList;
    stored := store.grazingList.value;
  }
}
