/** The availability calendar: the set of dates a user marks as available,
    loaded from and saved to the user's document in the `availability`
    collection as a list of date strings. On screen the selection is an
    object keyed by date (every value is `{ selected: true, marked: true }`),
    so it is modelled by its keys in insertion order. */
module Availability {
  import opened Common

  /** `formatted[date] = ...` for each date in turn: a repeated date keeps
      the place of its first occurrence. */
  function Dedup(dates: seq<string>): (r: seq<string>)
    ensures Distinct(r)
    ensures |r| <= |dates|
    ensures forall x :: x in r <==> x in dates
  {
    if dates == [] then []
    else
      var init, x := dates[..|dates| - 1], dates[|dates| - 1];
      assert dates == init + [x];
      var p := Dedup(init);
      if x in p then p else p + [x]
  }

  /** Keys that are already distinct come back unchanged. */
  lemma {:induction false} DedupOfDistinct(dates: seq<string>)
    requires Distinct(dates)
    ensures Dedup(dates) == dates
  {
    if dates != [] {
      var init, x := dates[..|dates| - 1], dates[|dates| - 1];
      assert Distinct(init);
      DedupOfDistinct(init);
      assert x !in init;
      assert init + [x] == dates;
    }
  }

  /** The `forEach` of `loadAvailability`; it changes nothing. */
  method FormatDates(dates: seq<string>) returns (formatted: seq<string>)
    ensures formatted == Dedup(dates)
  {
    formatted := [];
    for n := 0 to |dates|
      invariant formatted == Dedup(dates[..n])
    {
      assert dates[..n + 1][..n] == dates[..n];
      if dates[n] !in formatted {
        formatted := formatted + [dates[n]];
      }
    }
    assert dates[..|dates|] == dates;
  }

  /** `delete newDates[date]`. */
  function Remove(sel: seq<string>, date: string): (r: seq<string>)
    ensures forall x :: x in r <==> x in sel && x != date
    ensures Distinct(sel) ==> Distinct(r)
  {
    if sel == [] then []
    else if sel[0] == date then Remove(sel[1..], date)
    else
      assert sel == [sel[0]] + sel[1..];
      assert Distinct(sel) ==> sel[0] !in sel[1..];
      [sel[0]] + Remove(sel[1..], date)
  }

  /** Removing the last key of a distinct selection gives back the rest. */
  lemma {:induction false} RemoveAppended(sel: seq<string>, date: string)
    requires date !in sel
    ensures Remove(sel + [date], date) == sel
    decreases |sel|
  {
    if sel == [] {
      assert Remove([date], date) == Remove([], date);
    } else {
      var t := sel + [date];
      assert t[0] == sel[0] && t[0] != date;
      assert t[1..] == sel[1..] + [date];
      RemoveAppended(sel[1..], date);
      assert Remove(t, date) == [sel[0]] + Remove(t[1..], date);
      assert sel == [sel[0]] + sel[1..];
    }
  }

  /** `toggleDate` on a copy of the selection. */
  function Toggle(sel: seq<string>, date: string): (r: seq<string>)
  {
    if date in sel then Remove(sel, date) else sel + [date]
  }

  /** A tap removes a selected date and adds an unselected one, and changes
      no other date. */
  lemma ToggleMembership(sel: seq<string>, date: string)
    requires Distinct(sel)
    ensures Distinct(Toggle(sel, date))
    ensures date in Toggle(sel, date) <==> date !in sel
    ensures forall x :: x != date ==> (x in Toggle(sel, date) <==> x in sel)
  {
  }

  /** Two taps on the same date give back the same set of dates; when the
      date was not selected, even the same key order. */
  lemma ToggleTwice(sel: seq<string>, date: string)
    requires Distinct(sel)
    ensures forall x :: x in Toggle(Toggle(sel, date), date) <==> x in sel
    ensures date !in sel ==> Toggle(Toggle(sel, date), date) == sel
  {
    if date !in sel {
      RemoveAppended(sel, date);
    }
  }

  /** The selection a loaded document gives: `data?.dates || []`; a truthy
      value that is not a list makes `forEach` throw. */
  function Loaded(doc: Fields): Option<seq<string>>
  {
    var v := Get(doc, "dates");
    if v.Some? && v.value.List? then Some(Dedup(v.value.items))
    else if !Truthy(v) then Some([])
    else None
  }

  /** `saveAvailability`'s document. */
  function Saved(sel: seq<string>): (doc: Fields)
    ensures doc.Keys == {"dates"}
  {
    map["dates" := List(sel)]
  }

  /** Saving then loading gives back the selection; loading then saving
      keeps the saved set of dates. */
  lemma SaveLoadRoundTrip(sel: seq<string>, doc: Fields)
    requires Distinct(sel)
    ensures Loaded(Saved(sel)) == Some(sel)
    ensures Get(doc, "dates").Some? && Get(doc, "dates").value.List? ==>
      forall x :: x in Loaded(doc).value <==> x in Get(doc, "dates").value.items
  {
    DedupOfDistinct(sel);
  }

  /** The `availability` collection. */
  class AvailabilityStore {
    var docs: map<Uid, Fields>

    constructor (docs: map<Uid, Fields>)
      ensures this.docs == docs
    {
      this.docs := docs;
    }
  }

  /** The calendar of the signed-in user `uid`. */
  class AvailabilityCalendar {
    const uid: Uid
    var selectedDates: seq<string>

    constructor (uid: Uid)
      ensures this.uid == uid && selectedDates == []
    {
      this.uid := uid;
      selectedDates := [];
    }

    /** `loadAvailability`: a missing document, a rejected read or a
        malformed `dates` value leaves the selection as it was. */
    method LoadAvailability(store: AvailabilityStore, readOk: bool)
      modifies this
      ensures selectedDates ==
        if readOk && uid in store.docs && Loaded(store.docs[uid]).Some?
        then Loaded(store.docs[uid]).value else old(selectedDates)
    {
      if !readOk || uid !in store.docs {
        return;
      }
      var v := Get(store.docs[uid], "dates");
      if v.Some? && v.value.List? {
        selectedDates := FormatDates(v.value.items);
      } else if !Truthy(v) {
        selectedDates := [];
      }
    }

    method ToggleDate(date: string)
      modifies this
      ensures selectedDates == Toggle(old(selectedDates), date)
    {
      var newDates := selectedDates;
      if date in newDates {
        newDates := Remove(newDates, date);
      } else {
        newDates := newDates + [date];
      }
      selectedDates := newDates;
    }

    /** `saveAvailability`: overwrites the document with exactly the selected
        dates; the confirmation shows only once the write resolves. */
    method SaveAvailability(store: AvailabilityStore, writeOk: bool) returns (confirmed: bool)
      modifies store
      ensures confirmed == writeOk
      ensures store.docs == if writeOk then old(store.docs)[uid := Saved(selectedDates)] else old(store.docs)
    {
      if !writeOk {
        return false;
      }
      store.docs := store.docs[uid := Saved(selectedDates)];
      confirmed := true;
    }
  }
}
