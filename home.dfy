/** The home screen: the list of saved grazing sessions, edited one card at
    a time. A record is addressed by its position in the list. */
module Home {
  import opened Wrappers
  import opened Storage
  import opened Language

  /** `list.filter((_, i) => i !== index)`: keep every position except
      `index`, in order. The recursion peels off the last element and keeps
      it unless its position is `index`. The result is one shorter when
      `index` is a position of the list, as long otherwise, and holds only
      elements of the list. */
  function RemoveAt<T>(s: seq<T>, index: int): (r: seq<T>)
    ensures |r| == if 0 <= index < |s| then |s| - 1 else |s|
    ensures forall x :: x in r ==> x in s
  {
    if s == [] then []
    else RemoveAt(s[..|s| - 1], index) + (if |s| - 1 == index then [] else [s[|s| - 1]])
  }

  /** The filter removes exactly position `index` when it is in range and
      leaves the list as it was otherwise. */
  lemma {:induction false} RemoveAtSplice<T>(s: seq<T>, index: int)
    ensures RemoveAt(s, index) == if 0 <= index < |s| then s[..index] + s[index + 1..] else s
  {
    if s != [] {
      var init := s[..|s| - 1];
      RemoveAtSplice(init, index);
      if 0 <= index < |s| - 1 {
        assert init[..index] + init[index + 1..] + [s[|s| - 1]] == s[..index] + s[index + 1..];
      } else if index == |s| - 1 {
        assert init == s[..index] + s[index + 1..];
      } else {
        assert init + [s[|s| - 1]] == s;
      }
    }
  }

  /** After removing position `index`, the list is one shorter, every
      earlier record keeps its position and every later record moves down by
      one: a stored position beyond `index` now names a different record. */
  lemma RemoveAtShifts<T>(s: seq<T>, index: int)
    requires 0 <= index < |s|
    ensures |RemoveAt(s, index)| == |s| - 1
    ensures forall j :: 0 <= j < index ==> RemoveAt(s, index)[j] == s[j]
    ensures forall j :: index < j < |s| ==> RemoveAt(s, index)[j - 1] == s[j]
  {
    RemoveAtSplice(s, index);
  }

  /** The fields the home screen's editor never touches. */
  predicate SameFixedFields(a: Record, b: Record)
  {
    a.location == b.location && a.droneID == b.droneID && a.shepherdIDs == b.shepherdIDs
  }

  class HomeScreen {
    var language: string
    var flag: Flag
    var grazingList: seq<Record>
    var isLoading: bool
    var editIndex: Option<nat>
    var editableGrazing: Option<Record>
    var animalDropdownVisible: bool
    var durationDropdownVisible: bool

    /** What every handler keeps, in every state the screen can reach: at
        most one dropdown is open; edit mode has an index and a copy
        together; nothing is loaded or edited before loading ends. */
    ghost predicate Valid()
      reads this
    {
      && !(animalDropdownVisible && durationDropdownVisible)
      && (editIndex.Some? <==> editableGrazing.Some?)
      && (isLoading ==> grazingList == [] && editIndex == None)
    }

    /** Edit mode, if on, is on a record still at its index: the index is in
        range, and the copy differs from that record only in animal,
        quantity or duration. Editing establishes it. A delete of the edited
        card whose write rejects leaves edit mode on a stale index, and the
        screen carries on from there. The screen offers delete only on the
        edited card; a delete at an earlier index, which `HandleDelete` also
        accepts, would leave a stale index too. */
    ghost predicate EditsCurrent()
      reads this
    {
      editIndex.Some? ==>
        && editableGrazing.Some?
        && editIndex.value < |grazingList|
        && SameFixedFields(editableGrazing.value, grazingList[editIndex.value])
    }

    /** The screen's initial state, before its mount effect has run. */
    constructor ()
      ensures Valid() && EditsCurrent()
      ensures language == "en" && flag == UkrainePng && grazingList == []
      ensures isLoading && editIndex == None && editableGrazing == None
      ensures !animalDropdownVisible && !durationDropdownVisible
    {
      language, flag, grazingList := "en", UkrainePng, [];
      isLoading, editIndex, editableGrazing := true, None, None;
      animalDropdownVisible, durationDropdownVisible := false, false;
    }

    /** The mount effect `fetchData`. `languageRead` and `listRead` say how
        the two reads settle (a rejected read, or a stored list that fails to
        parse, throws into the catch). Loading ends whatever happened. */
    method FetchData(store: Store, languageRead: IoOutcome, listRead: IoOutcome)
      requires Valid() && isLoading
      modifies this
      ensures Valid() && EditsCurrent() && !isLoading
      ensures languageRead == Resolved ==>
        language == Stored(store.language, "en") && flag == FlagFor(language)
      ensures languageRead == Resolved ==> (flag == UkPng <==> store.language == Some("ua"))
      ensures languageRead == Rejected ==> language == old(language) && flag == old(flag)
      ensures grazingList ==
        if languageRead == Resolved && listRead == Resolved && store.grazingList.Some?
        then store.grazingList.value else []
      ensures editIndex == None && editableGrazing == None
      ensures animalDropdownVisible == old(animalDropdownVisible)
      ensures durationDropdownVisible == old(durationDropdownVisible)
    {
      if languageRead == Resolved {
        language := Stored(store.language, "en");
        flag := FlagFor(language);
        if listRead == Resolved && store.grazingList.Some? {
          grazingList := store.grazingList.value;
        }
      }
      isLoading := false;
    }

    /** The flag button: switch locale, show its flag, then persist it. */
    method ToggleLanguage(store: Store, write: IoOutcome)
      requires Valid()
      modifies this, store
      ensures Valid() && (old(EditsCurrent()) ==> EditsCurrent())
      ensures language == Toggled(old(language)) && flag == FlagFor(language)
      ensures store.language == (if write == Resolved then Some(language) else old(store.language))
      ensures store.grazingList == old(store.grazingList) && store.userData == old(store.userData)
      ensures store.grazingData == old(store.grazingData)
      ensures grazingList == old(grazingList) && isLoading == old(isLoading)
      ensures editIndex == old(editIndex) && editableGrazing == old(editableGrazing)
      ensures animalDropdownVisible == old(animalDropdownVisible)
      ensures durationDropdownVisible == old(durationDropdownVisible)
    {
      var newLanguage := Toggled(language);
      language := newLanguage;
      flag := FlagFor(newLanguage);
      var _ := store.WriteLanguage(newLanguage, write);
    }

    /** Opening or closing the animal menu always closes the duration menu. */
    method ToggleAnimalDropdown()
      requires Valid()
      modifies this
      ensures Valid() && (old(EditsCurrent()) ==> EditsCurrent())
      ensures animalDropdownVisible == !old(animalDropdownVisible) && !durationDropdownVisible
      ensures language == old(language) && flag == old(flag) && grazingList == old(grazingList)
      ensures isLoading == old(isLoading)
      ensures editIndex == old(editIndex) && editableGrazing == old(editableGrazing)
    {
      animalDropdownVisible := !animalDropdownVisible;
      durationDropdownVisible := false;
    }

    /** Opening or closing the duration menu always closes the animal menu. */
    method ToggleDurationDropdown()
      requires Valid()
      modifies this
      ensures Valid() && (old(EditsCurrent()) ==> EditsCurrent())
      ensures durationDropdownVisible == !old(durationDropdownVisible) && !animalDropdownVisible
      ensures language == old(language) && flag == old(flag) && grazingList == old(grazingList)
      ensures isLoading == old(isLoading)
      ensures editIndex == old(editIndex) && editableGrazing == old(editableGrazing)
    {
      durationDropdownVisible := !durationDropdownVisible;
      animalDropdownVisible := false;
    }

    /** Picking an animal sets it on the copy being edited, if there is one,
        and closes the animal menu. */
    method HandleAnimalSelect(animal: string)
      requires Valid()
      modifies this
      ensures Valid() && (old(EditsCurrent()) ==> EditsCurrent())
      ensures editableGrazing ==
        if old(editableGrazing).Some? then Some(old(editableGrazing).value.(animal := animal)) else None
      ensures !animalDropdownVisible && durationDropdownVisible == old(durationDropdownVisible)
      ensures language == old(language) && flag == old(flag) && grazingList == old(grazingList)
      ensures isLoading == old(isLoading) && editIndex == old(editIndex)
    {
      if editableGrazing.Some? {
        editableGrazing := Some(editableGrazing.value.(animal := animal));
      }
      animalDropdownVisible := false;
    }

    /** Picking a duration sets it on the copy being edited, if there is
        one, and closes the duration menu. */
    method HandleDurationSelect(duration: string)
      requires Valid()
      modifies this
      ensures Valid() && (old(EditsCurrent()) ==> EditsCurrent())
      ensures editableGrazing ==
        if old(editableGrazing).Some? then Some(old(editableGrazing).value.(duration := duration)) else None
      ensures !durationDropdownVisible && animalDropdownVisible == old(animalDropdownVisible)
      ensures language == old(language) && flag == old(flag) && grazingList == old(grazingList)
      ensures isLoading == old(isLoading) && editIndex == old(editIndex)
    {
      if editableGrazing.Some? {
        editableGrazing := Some(editableGrazing.value.(duration := duration));
      }
      durationDropdownVisible := false;
    }

    /** Typing a quantity sets it on the copy being edited, if there is one. */
    method HandleQuantityChange(quantity: string)
      requires Valid()
      modifies this
      ensures Valid() && (old(EditsCurrent()) ==> EditsCurrent())
      ensures editableGrazing ==
        if old(editableGrazing).Some? then Some(old(editableGrazing).value.(quantity := quantity)) else None
      ensures animalDropdownVisible == old(animalDropdownVisible)
      ensures durationDropdownVisible == old(durationDropdownVisible)
      ensures language == old(language) && flag == old(flag) && grazingList == old(grazingList)
      ensures isLoading == old(isLoading) && editIndex == old(editIndex)
    {
      if editableGrazing.Some? {
        editableGrazing := Some(editableGrazing.value.(quantity := quantity));
      }
    }

    /** The pencil button of card `index`: enter edit mode on a copy of that
        record. Only a rendered card calls it, so `index` is in range. This
        is also how the user leaves a stale edit mode. */
    method HandleEdit(index: nat)
      requires Valid() && index < |grazingList|
      modifies this
      ensures Valid() && EditsCurrent()
      ensures editIndex == Some(index) && editableGrazing == Some(grazingList[index])
      ensures grazingList == old(grazingList)
      ensures language == old(language) && flag == old(flag) && isLoading == old(isLoading)
      ensures animalDropdownVisible == old(animalDropdownVisible)
      ensures durationDropdownVisible == old(durationDropdownVisible)
    {
      editIndex := Some(index);
      editableGrazing := Some(grazingList[index]);
    }

    /** The tick button of card `index`. Without a copy being edited nothing
        happens. Otherwise a copy of the list gets the edited record at
        `index`, becomes the screen's list and is written whole to the store;
        edit mode ends once the write has settled. A rejected write throws
        before edit mode ends, and the store keeps its old list. The copy's
        location, drone and shepherds reach position `index` unchanged only
        when edit mode was current; from a stale edit mode the copy of some
        other record overwrites the one at `index`. */
    method HandleSave(index: nat, store: Store, write: IoOutcome)
      requires Valid() && index < |grazingList|
      modifies this, store
      ensures Valid() && (old(EditsCurrent()) ==> EditsCurrent())
      ensures old(editableGrazing) == None ==> grazingList == old(grazingList)
      ensures old(editableGrazing) == None ==>
        store.grazingList == old(store.grazingList)
        && editIndex == old(editIndex) && editableGrazing == old(editableGrazing)
      ensures old(editableGrazing).Some? ==>
        && |grazingList| == |old(grazingList)|
        && grazingList[index] == old(editableGrazing).value
        && (forall j :: 0 <= j < |grazingList| && j != index ==> grazingList[j] == old(grazingList)[j])
        && store.grazingList == (if write == Resolved then Some(grazingList) else old(store.grazingList))
        && (write == Resolved ==> editIndex == None && editableGrazing == None)
        && (write == Rejected ==> editIndex == old(editIndex) && editableGrazing == old(editableGrazing))
      ensures old(EditsCurrent()) && old(editIndex) == Some(index) ==>
        SameFixedFields(grazingList[index], old(grazingList)[index])
      ensures store.userData == old(store.userData) && store.language == old(store.language)
      ensures store.grazingData == old(store.grazingData)
      ensures language == old(language) && flag == old(flag) && isLoading == old(isLoading)
      ensures animalDropdownVisible == old(animalDropdownVisible)
      ensures durationDropdownVisible == old(durationDropdownVisible)
    {
      if editableGrazing == None {
        return;
      }
      var updatedGrazingList := grazingList[index := editableGrazing.value];
      grazingList := updatedGrazingList;
      var ok := store.WriteGrazingList(updatedGrazingList, write);
      if ok {
        editIndex := None;
        editableGrazing := None;
      }
    }

    /** The minus button: drop position `index` from the list (any other
        index, in range or not, leaves the list as it is), write the new list
        whole to the store, and leave edit mode only if the write resolved
        and the deleted card was the one being edited. The edit mode stays
        current only when the deleted position lies after it, or when edit
        mode actually ended; otherwise the kept index names a shifted record
        (see RemoveAtShifts) or none at all. */
    method HandleDelete(index: int, store: Store, write: IoOutcome)
      requires Valid()
      modifies this, store
      ensures Valid()
      ensures grazingList == RemoveAt(old(grazingList), index)
      ensures store.grazingList == (if write == Resolved then Some(grazingList) else old(store.grazingList))
      ensures write == Resolved && old(editIndex) == Some(index) ==>
        editIndex == None && editableGrazing == None
      ensures !(write == Resolved && old(editIndex) == Some(index)) ==>
        editIndex == old(editIndex) && editableGrazing == old(editableGrazing)
      ensures (&& old(EditsCurrent())
               && (|| old(editIndex) == None || index < 0 || index > old(editIndex).value
                   || (write == Resolved && old(editIndex) == Some(index)))) ==> EditsCurrent()
      ensures store.userData == old(store.userData) && store.language == old(store.language)
      ensures store.grazingData == old(store.grazingData)
      ensures language == old(language) && flag == old(flag) && isLoading == old(isLoading)
      ensures animalDropdownVisible == old(animalDropdownVisible)
      ensures durationDropdownVisible == old(durationDropdownVisible)
    {
      var updatedGrazingList := RemoveAt(grazingList, index);
      RemoveAtSplice(grazingList, index);
      grazingList := updatedGrazingList;
      var ok := store.WriteGrazingList(updatedGrazingList, write);
      if ok && editIndex == Some(index) {
        editIndex := None;
        editableGrazing := None;
      }
    }

    /** The delete handler as its comment says it should behave ("if the
        deleted scenario was in edit mode, exit edit mode"): edit mode on the
        deleted card ends whether or not the write resolves, so a later save
        cannot write the deleted record's copy over the one that moved into
        its place. */
    method HandleDeleteIntended(index: int, store: Store, write: IoOutcome)
      requires Valid()
      modifies this, store
      ensures Valid()
      ensures grazingList == RemoveAt(old(grazingList), index)
      ensures store.grazingList == (if write == Resolved then Some(grazingList) else old(store.grazingList))
      ensures old(editIndex) == Some(index) ==> editIndex == None && editableGrazing == None
      ensures old(editIndex) != Some(index) ==>
        editIndex == old(editIndex) && editableGrazing == old(editableGrazing)
      ensures (&& old(EditsCurrent())
               && (|| old(editIndex) == None || index < 0 || index >= old(editIndex).value)) ==> EditsCurrent()
      ensures store.userData == old(store.userData) && store.language == old(store.language)
      ensures store.grazingData == old(store.grazingData)
      ensures language == old(language) && flag == old(flag) && isLoading == old(isLoading)
      ensures animalDropdownVisible == old(animalDropdownVisible)
      ensures durationDropdownVisible == old(durationDropdownVisible)
    {
      var updatedGrazingList := RemoveAt(grazingList, index);
      RemoveAtSplice(grazingList, index);
      grazingList := updatedGrazingList;
      if editIndex == Some(index) {
        editIndex := None;
        editableGrazing := None;
      }
      var _ := store.WriteGrazingList(updatedGrazingList, write);
    }
  }
}
