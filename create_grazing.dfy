/** The create-grazing form: a new session record is built from the form's
    fields and appended to the stored list. */
module CreateGrazing {
  import opened Wrappers
  import opened Storage
  import opened Language

  /** The code points JavaScript's String.prototype.trim removes: the
      ECMAScript WhiteSpace characters (tab, vertical tab, form feed, the
      byte-order mark and every space separator) and the line terminators. */
  predicate IsJsWhitespace(c: char)
  {
    || c == '\t' || c == '\n' || c == '\U{B}' || c == '\U{C}' || c == '\r'
    || c == ' ' || c == '\U{A0}' || c == '\U{1680}'
    || ('\U{2000}' <= c <= '\U{200A}')
    || c == '\U{2028}' || c == '\U{2029}' || c == '\U{202F}' || c == '\U{205F}'
    || c == '\U{3000}' || c == '\U{FEFF}'
  }

  predicate AllWhitespace(s: string)
  {
    forall i :: 0 <= i < |s| ==> IsJsWhitespace(s[i])
  }

  function TrimStart(s: string): string
  {
    if |s| > 0 && IsJsWhitespace(s[0]) then TrimStart(s[1..]) else s
  }

  function TrimEnd(s: string): string
  {
    if |s| > 0 && IsJsWhitespace(s[|s| - 1]) then TrimEnd(s[..|s| - 1]) else s
  }

  /** `s.trim()` */
  function Trim(s: string): string
  {
    TrimEnd(TrimStart(s))
  }

  /** Dropping leading whitespace leaves a suffix of `s` that is empty or
      starts with a character that is not whitespace; what it drops is all
      whitespace. */
  lemma {:induction false} TrimStartShape(s: string)
    ensures |TrimStart(s)| <= |s| && TrimStart(s) == s[|s| - |TrimStart(s)|..]
    ensures AllWhitespace(s[..|s| - |TrimStart(s)|])
    ensures TrimStart(s) != "" ==> !IsJsWhitespace(TrimStart(s)[0])
  {
    if |s| > 0 && IsJsWhitespace(s[0]) {
      var tail := s[1..];
      TrimStartShape(tail);
      assert TrimStart(s) == TrimStart(tail);
      var k := |s| - |TrimStart(s)|;
      var dropped := tail[..k - 1];
      assert AllWhitespace(dropped);
      assert s[..k] == [s[0]] + dropped;
      forall i | 0 <= i < k ensures IsJsWhitespace(s[..k][i]) {
        if i > 0 {
          assert s[..k][i] == dropped[i - 1];
        }
      }
    }
  }

  /** Dropping trailing whitespace leaves a prefix of `s` that is empty or
      ends with a character that is not whitespace; what it drops is all
      whitespace. */
  lemma {:induction false} TrimEndShape(s: string)
    ensures |TrimEnd(s)| <= |s| && TrimEnd(s) == s[..|TrimEnd(s)|]
    ensures AllWhitespace(s[|TrimEnd(s)|..])
    ensures TrimEnd(s) != "" ==> !IsJsWhitespace(TrimEnd(s)[|TrimEnd(s)| - 1])
  {
    if |s| > 0 && IsJsWhitespace(s[|s| - 1]) {
      var init := s[..|s| - 1];
      TrimEndShape(init);
      assert TrimEnd(s) == TrimEnd(init);
      var k := |TrimEnd(s)|;
      var dropped := init[k..];
      assert AllWhitespace(dropped);
      assert s[k..] == dropped + [s[|s| - 1]];
      forall i | 0 <= i < |s| - k ensures IsJsWhitespace(s[k..][i]) {
        if i < |dropped| {
          assert s[k..][i] == dropped[i];
        }
      }
    }
  }

  /** `s.trim()` is the piece of `s` left when the whitespace before it and
      after it is cut off, and it neither starts nor ends with whitespace:
      it runs from the first character that is not whitespace to the last. */
  lemma TrimShape(s: string)
    ensures exists i, j :: && 0 <= i <= j <= |s| && Trim(s) == s[i..j]
                           && AllWhitespace(s[..i]) && AllWhitespace(s[j..])
    ensures Trim(s) != "" ==> !IsJsWhitespace(Trim(s)[0]) && !IsJsWhitespace(Trim(s)[|Trim(s)| - 1])
  {
    var t := TrimStart(s);
    var r := Trim(s);
    TrimStartShape(s);
    TrimEndShape(t);
    var i := |s| - |t|;
    var j := i + |r|;
    assert r == s[i..j];
    assert s[j..] == t[|r|..];
    if r != "" {
      assert r[0] == t[0];
    }
  }

  /** An entry the form discards: `id.trim() === ""`. */
  predicate IsBlank(id: string)
  {
    Trim(id) == ""
  }

  lemma {:induction false} TrimStartEmpty(s: string)
    ensures TrimStart(s) == "" <==> AllWhitespace(s)
    ensures TrimStart(s) != "" ==> !IsJsWhitespace(TrimStart(s)[0])
  {
    if |s| > 0 && IsJsWhitespace(s[0]) {
      TrimStartEmpty(s[1..]);
      assert AllWhitespace(s[1..]) ==> AllWhitespace(s) by {
        if AllWhitespace(s[1..]) {
          forall i | 0 <= i < |s| ensures IsJsWhitespace(s[i]) {
            if i > 0 { assert s[i] == s[1..][i - 1]; }
          }
        }
      }
    }
  }

  lemma {:induction false} TrimEndEmpty(s: string)
    ensures TrimEnd(s) == "" <==> AllWhitespace(s)
  {
    if |s| > 0 && IsJsWhitespace(s[|s| - 1]) {
      var init := s[..|s| - 1];
      TrimEndEmpty(init);
      assert AllWhitespace(init) ==> AllWhitespace(s) by {
        if AllWhitespace(init) {
          forall i | 0 <= i < |s| ensures IsJsWhitespace(s[i]) {
            if i < |s| - 1 { assert s[i] == init[i]; }
          }
        }
      }
    }
  }

  /** An entry is blank exactly when every character of it is whitespace;
      in particular the empty string is blank. */
  lemma BlankIffAllWhitespace(id: string)
    ensures IsBlank(id) <==> AllWhitespace(id)
  {
    var t := TrimStart(id);
    TrimStartEmpty(id);
    TrimEndEmpty(t);
  }

  /** `shepherdPasswords.filter((id) => id.trim() !== "")` */
  function NonBlank(ids: seq<string>): (r: seq<string>)
    ensures |r| <= |ids|
    ensures forall x :: x in r ==> x in ids && !IsBlank(x)
  {
    if ids == [] then []
    else (if IsBlank(ids[0]) then [] else [ids[0]]) + NonBlank(ids[1..])
  }

  /** Filtering a concatenation filters each part and keeps them in order:
      an entry before another in the input stays before it in the result. */
  lemma {:induction false} NonBlankAppend(a: seq<string>, b: seq<string>)
    ensures NonBlank(a + b) == NonBlank(a) + NonBlank(b)
  {
    if a == [] {
      assert a + b == b;
    } else {
      assert (a + b)[1..] == a[1..] + b;
      NonBlankAppend(a[1..], b);
    }
  }

  /** Filtering keeps each entry that is not blank as often as it occurs and
      drops every blank one. */
  lemma {:induction false} NonBlankCounts(ids: seq<string>, x: string)
    ensures multiset(NonBlank(ids))[x] == if IsBlank(x) then 0 else multiset(ids)[x]
  {
    if ids != [] {
      NonBlankCounts(ids[1..], x);
      assert ids == [ids[0]] + ids[1..];
    }
  }

  /** A list with no blank entry passes through unchanged, so filtering twice
      is filtering once. */
  lemma {:induction false} NonBlankKeepsFilled(ids: seq<string>)
    requires forall i :: 0 <= i < |ids| ==> !IsBlank(ids[i])
    ensures NonBlank(ids) == ids
  {
    if ids != [] {
      NonBlankKeepsFilled(ids[1..]);
    }
  }

  lemma NonBlankIdempotent(ids: seq<string>)
    ensures NonBlank(NonBlank(ids)) == NonBlank(ids)
  {
    var r := NonBlank(ids);
    assert forall i :: 0 <= i < |r| ==> r[i] in r;
    NonBlankKeepsFilled(r);
  }

  /** The worked example: ["A", "", "  ", "B"] keeps "A" and "B". */
  lemma NonBlankExample()
    ensures NonBlank(["A", "", "  ", "B"]) == ["A", "B"]
  {
  }

  /** The record the Next button appends: the form's fields copied as they
      are (empty strings included), the fixed placeholder location, and the
      shepherd IDs without their blank entries. */
  function NewGrazing(animal: string, quantity: string, duration: string,
                      dronePassword: string, shepherdPasswords: seq<string>): (r: Record)
    ensures r.location == "My location"
    ensures r.animal == animal && r.quantity == quantity && r.duration == duration
    ensures r.droneID == dronePassword
    ensures |r.shepherdIDs| <= |shepherdPasswords|
    ensures forall x :: x in r.shepherdIDs ==> x in shepherdPasswords && !IsBlank(x)
  {
    Record(animal, quantity, duration, "My location", dronePassword, NonBlank(shepherdPasswords))
  }

  /** The persisted record: its location is the placeholder, its other
      scalar fields are the inputs verbatim, and its shepherd list holds
      exactly the non-blank inputs and no blank entry. */
  lemma NewGrazingFields(animal: string, quantity: string, duration: string,
                         dronePassword: string, shepherdPasswords: seq<string>, x: string)
    ensures var r := NewGrazing(animal, quantity, duration, dronePassword, shepherdPasswords);
      && r.location == "My location"
      && r.animal == animal && r.quantity == quantity && r.duration == duration
      && r.droneID == dronePassword
      && (forall i :: 0 <= i < |r.shepherdIDs| ==> !IsBlank(r.shepherdIDs[i]))
      && multiset(r.shepherdIDs)[x] == if IsBlank(x) then 0 else multiset(shepherdPasswords)[x]
  {
    var r := NewGrazing(animal, quantity, duration, dronePassword, shepherdPasswords);
    assert forall i :: 0 <= i < |r.shepherdIDs| ==> r.shepherdIDs[i] in r.shepherdIDs;
    NonBlankCounts(shepherdPasswords, x);
  }

  class CreateGrazingForm {
    var animalDropdownVisible: bool
    var durationDropdownVisible: bool
    var selectedAnimal: string
    var selectedDuration: string
    var quantity: string
    var dronePassword: string
    var shepherdPasswords: seq<string>
    var language: string
    var fontsLoaded: bool
    var backButtonDestination: Route

    /** The form's invariant: at most one of its two menus is open, and the
        back button leads to one of the two screens it can lead to. */
    ghost predicate Valid()
      reads this
    {
      && !(animalDropdownVisible && durationDropdownVisible)
      && (backButtonDestination == ToHome || backButtonDestination == ToHello)
    }

    /** The form before its mount effect: one empty shepherd slot, and the
        back button leading to the hello screen. */
    constructor ()
      ensures Valid()
      ensures shepherdPasswords == [""] && backButtonDestination == ToHello
      ensures selectedAnimal == "" && selectedDuration == "" && quantity == "" && dronePassword == ""
      ensures language == "en" && !fontsLoaded
      ensures !animalDropdownVisible && !durationDropdownVisible
    {
      animalDropdownVisible, durationDropdownVisible := false, false;
      selectedAnimal, selectedDuration, quantity, dronePassword := "", "", "", "";
      shepherdPasswords := [""];
      language, fontsLoaded := "en", false;
      backButtonDestination := ToHello;
    }

    /** The mount effect `initialize`: load fonts, then the stored language,
        then check whether the "grazingList" key exists. Any step that
        throws sends the back button to the hello screen. */
    method Initialize(store: Store, fonts: IoOutcome, languageRead: IoOutcome, listRead: IoOutcome)
      requires Valid()
      modifies this
      ensures Valid()
      ensures backButtonDestination == ToHome <==>
        fonts == Resolved && languageRead == Resolved && listRead == Resolved && store.grazingList.Some?
      ensures fontsLoaded == ((fonts == Resolved && languageRead == Resolved && listRead == Resolved) || old(fontsLoaded))
      ensures language ==
        if fonts == Resolved && languageRead == Resolved then Stored(store.language, old(language)) else old(language)
      ensures shepherdPasswords == old(shepherdPasswords)
      ensures selectedAnimal == old(selectedAnimal) && selectedDuration == old(selectedDuration)
      ensures quantity == old(quantity) && dronePassword == old(dronePassword)
      ensures animalDropdownVisible == old(animalDropdownVisible)
      ensures durationDropdownVisible == old(durationDropdownVisible)
    {
      if fonts == Rejected || languageRead == Rejected {
        backButtonDestination := ToHello;
        return;
      }
      language := Stored(store.language, language);
      if listRead == Rejected {
        backButtonDestination := ToHello;
        return;
      }
      if store.grazingList != None {
        backButtonDestination := ToHome;
      } else {
        backButtonDestination := ToHello;
      }
      fontsLoaded := true;
    }

    /** Opening or closing the animal menu always closes the duration menu. */
    method ToggleAnimalDropdown()
      requires Valid()
      modifies this`animalDropdownVisible, this`durationDropdownVisible
      ensures Valid()
      ensures animalDropdownVisible == !old(animalDropdownVisible) && !durationDropdownVisible
    {
      animalDropdownVisible := !animalDropdownVisible;
      durationDropdownVisible := false;
    }

    /** Opening or closing the duration menu always closes the animal menu. */
    method ToggleDurationDropdown()
      requires Valid()
      modifies this`animalDropdownVisible, this`durationDropdownVisible
      ensures Valid()
      ensures durationDropdownVisible == !old(durationDropdownVisible) && !animalDropdownVisible
    {
      durationDropdownVisible := !durationDropdownVisible;
      animalDropdownVisible := false;
    }

    /** Picking an animal records it and closes the animal menu. */
    method HandleAnimalSelect(animal: string)
      requires Valid()
      modifies this`selectedAnimal, this`animalDropdownVisible
      ensures Valid()
      ensures selectedAnimal == animal && !animalDropdownVisible
    {
      selectedAnimal := animal;
      animalDropdownVisible := false;
    }

    /** Picking a duration records it and closes the duration menu. */
    method HandleDurationSelect(duration: string)
      requires Valid()
      modifies this`selectedDuration, this`durationDropdownVisible
      ensures Valid()
      ensures selectedDuration == duration && !durationDropdownVisible
    {
      selectedDuration := duration;
      durationDropdownVisible := false;
    }

    /** The quantity field's `onChangeText`. */
    method SetQuantity(text: string)
      modifies this`quantity
      ensures quantity == text
    {
      quantity := text;
    }

    /** The observer-drone field's `onChangeText`. */
    method SetDronePassword(text: string)
      modifies this`dronePassword
      ensures dronePassword == text
    {
      dronePassword := text;
    }

    /** "+ Add shepherd": one more empty slot at the end. */
    method AddShepherdPassword()
      modifies this`shepherdPasswords
      ensures shepherdPasswords == old(shepherdPasswords) + [""]
    {
      shepherdPasswords := shepherdPasswords + [""];
    }

    /** Typing into shepherd slot `index` (a rendered slot, so in range):
        a copy of the list with that one slot replaced. */
    method HandleShepherdPasswordChange(text: string, index: nat)
      requires index < |shepherdPasswords|
      modifies this`shepherdPasswords
      ensures |shepherdPasswords| == |old(shepherdPasswords)|
      ensures shepherdPasswords[index] == text
      ensures forall j :: 0 <= j < |shepherdPasswords| && j != index ==>
        shepherdPasswords[j] == old(shepherdPasswords)[j]
    {
      var updatedPasswords := shepherdPasswords[index := text];
      shepherdPasswords := updatedPasswords;
    }

    /** The Next button: read the stored list (an absent key is the empty
        list), push the new record, write the list back whole and go home.
        A read or write that throws is caught: no navigation, and the store
        keeps what it had. */
    method HandleNext(store: Store, read: IoOutcome, write: IoOutcome) returns (nav: Option<Route>)
      modifies store
      ensures var before := if old(store.grazingList).Some? then old(store.grazingList).value else [];
        store.grazingList ==
          if read == Resolved && write == Resolved
          then Some(before + [NewGrazing(selectedAnimal, quantity, selectedDuration, dronePassword, shepherdPasswords)])
          else old(store.grazingList)
      ensures nav == (if read == Resolved && write == Resolved then Some(ToHome) else None)
      ensures store.userData == old(store.userData) && store.language == old(store.language)
      ensures store.grazingData == old(store.grazingData)
    {
      nav := None;
      if read == Rejected {
        return;
      }
      var grazingList := if store.grazingList.Some? then store.grazingList.value else [];
      var newGrazing := NewGrazing(selectedAnimal, quantity, selectedDuration, dronePassword, shepherdPasswords);
      grazingList := grazingList + [newGrazing];
      var ok := store.WriteGrazingList(grazingList, write);
      if ok {
        nav := Some(ToHome);
      }
    }
  }
}
