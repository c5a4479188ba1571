/** The matches screen: the viewer's match records projected to list
    entries (match id, counterpart profile, time of the match), sorted most
    recent first, and the count label above the list. */
module MatchList {
  import opened Common
  import Swipe

  /** A match document as the query returns it. */
  datatype MatchSnap = MatchSnap(id: string, doc: Swipe.MatchDoc)

  /** One list entry `{ id, profile, matchedAt }`. */
  datatype Entry = Entry(id: string, profile: Fields, matchedAt: Time)

  /** `where('users', 'array-contains', viewer)`: the records naming the
      viewer, in store order. */
  function ViewerRecords(viewer: Uid, all: seq<MatchSnap>): (mine: seq<MatchSnap>)
    ensures |mine| <= |all|
    ensures forall m :: m in mine <==> m in all && viewer in m.doc.users
  {
    if all == [] then []
    else
      var rest := ViewerRecords(viewer, all[1..]);
      assert forall m :: m in all <==> m == all[0] || m in all[1..];
      if viewer in all[0].doc.users then [all[0]] + rest else rest
  }

  /** `users.find(id => id !== viewer)`: the first member other than the
      viewer, if any. */
  function Counterpart(users: seq<Uid>, viewer: Uid): (c: Option<Uid>)
    ensures c.None? <==> forall i :: 0 <= i < |users| ==> users[i] == viewer
    ensures c.Some? ==>
      exists i :: 0 <= i < |users| && users[i] == c.value && c.value != viewer &&
                  forall j :: 0 <= j < i ==> users[j] == viewer
  {
    if users == [] then None
    else if users[0] != viewer then Some(users[0])
    else
      var c := Counterpart(users[1..], viewer);
      if c.Some? then
        ghost var i :| 0 <= i < |users[1..]| && users[1..][i] == c.value && c.value != viewer &&
                       forall j :: 0 <= j < i ==> users[1..][j] == viewer;
        assert users[i + 1] == c.value && forall j :: 0 <= j < i + 1 ==> users[j] == viewer;
        c
      else
        c
  }

  /** The entry a record yields: its counterpart is a non-empty id (an empty
      one is falsy and skipped) whose profile exists. */
  predicate Yields(viewer: Uid, m: MatchSnap, lookup: Uid -> Read<Fields>, e: Entry)
  {
    var c := Counterpart(m.doc.users, viewer);
    && c.Some? && c.value != ""
    && lookup(c.value).Found?
    && e == Entry(m.id, lookup(c.value).data, m.doc.matchedAt)
  }

  /** The entries the loop pushes for `snaps`, in order; a rejected profile
      read aborts the whole load. */
  function Entries(viewer: Uid, snaps: seq<MatchSnap>, lookup: Uid -> Read<Fields>): (r: Result<seq<Entry>, string>)
    ensures r.Success? ==> |r.value| <= |snaps|
  {
    if snaps == [] then Success([])
    else
      var prev := Entries(viewer, snaps[..|snaps| - 1], lookup);
      if prev.Failure? then prev
      else
        var m := snaps[|snaps| - 1];
        var c := Counterpart(m.doc.users, viewer);
        if c.None? || c.value == "" then prev
        else
          match lookup(c.value)
          case ReadFailed => Failure("profile read failed")
          case Missing => prev
          case Found(p) => Success(prev.value + [Entry(m.id, p, m.doc.matchedAt)])
  }

  /** An entry is listed exactly when some record yields it: records with no
      usable counterpart or a missing profile are dropped, nothing else. */
  lemma {:induction false} EntriesMembership(viewer: Uid, snaps: seq<MatchSnap>, lookup: Uid -> Read<Fields>, e: Entry)
    requires Entries(viewer, snaps, lookup).Success?
    ensures e in Entries(viewer, snaps, lookup).value <==>
      exists i :: 0 <= i < |snaps| && Yields(viewer, snaps[i], lookup, e)
  {
    if snaps != [] {
      var init := snaps[..|snaps| - 1];
      var last := |snaps| - 1;
      EntriesStep(viewer, snaps, lookup, e);
      EntriesMembership(viewer, init, lookup, e);
      if e in Entries(viewer, snaps, lookup).value {
        if e in Entries(viewer, init, lookup).value {
          var i :| 0 <= i < |init| && Yields(viewer, init[i], lookup, e);
          assert snaps[i] == init[i];
        }
      } else {
        forall i | 0 <= i < |snaps|
          ensures !Yields(viewer, snaps[i], lookup, e)
        {
          if i < last {
            assert snaps[i] == init[i];
          }
        }
      }
    }
  }

  /** One more record adds at most the entry it yields. */
  lemma EntriesStep(viewer: Uid, snaps: seq<MatchSnap>, lookup: Uid -> Read<Fields>, e: Entry)
    requires snaps != [] && Entries(viewer, snaps, lookup).Success?
    ensures Entries(viewer, snaps[..|snaps| - 1], lookup).Success?
    ensures e in Entries(viewer, snaps, lookup).value <==>
      e in Entries(viewer, snaps[..|snaps| - 1], lookup).value || Yields(viewer, snaps[|snaps| - 1], lookup, e)
  {
  }

  /** Each record yields at most one entry: distinct record ids give
      distinct entry ids, and every entry id is a record id. */
  lemma {:induction false} EntriesDistinct(viewer: Uid, snaps: seq<MatchSnap>, lookup: Uid -> Read<Fields>)
    requires forall i, j :: 0 <= i < j < |snaps| ==> snaps[i].id != snaps[j].id
    requires Entries(viewer, snaps, lookup).Success?
    ensures var es := Entries(viewer, snaps, lookup).value;
      && (forall k :: 0 <= k < |es| ==> exists i :: 0 <= i < |snaps| && es[k].id == snaps[i].id)
      && (forall k, l :: 0 <= k < l < |es| ==> es[k].id != es[l].id)
  {
    if snaps != [] {
      var init := snaps[..|snaps| - 1];
      EntriesDistinct(viewer, init, lookup);
      var es0 := Entries(viewer, init, lookup).value;
      var es := Entries(viewer, snaps, lookup).value;
      forall k | 0 <= k < |es0|
        ensures es0[k].id != snaps[|snaps| - 1].id
        ensures exists i :: 0 <= i < |snaps| && es0[k].id == snaps[i].id
      {
        var i :| 0 <= i < |init| && es0[k].id == init[i].id;
        assert snaps[i] == init[i];
      }
      if es != es0 {
        assert es == es0 + [es[|es| - 1]];
        assert es[|es| - 1].id == snaps[|snaps| - 1].id;
      }
    }
  }

  /** The profile-lookup loop of `loadMatches`; it changes nothing. */
  method CollectEntries(viewer: Uid, snaps: seq<MatchSnap>, lookup: Uid -> Read<Fields>)
    returns (r: Result<seq<Entry>, string>)
    ensures r == Entries(viewer, snaps, lookup)
  {
    var matchesData: seq<Entry> := [];
    for i := 0 to |snaps|
      invariant Entries(viewer, snaps[..i], lookup) == Success(matchesData)
    {
      assert snaps[..i + 1][..i] == snaps[..i];
      var m := snaps[i];
      var otherUserId := Counterpart(m.doc.users, viewer);
      if otherUserId.Some? && otherUserId.value != "" {
        var userDoc := lookup(otherUserId.value);
        if userDoc.ReadFailed? {
          assert snaps[..i + 1][..i] == snaps[..i];
          EntriesAbortKeeps(viewer, snaps, i + 1, lookup);
          assert snaps[..|snaps|] == snaps;
          return Failure("profile read failed");
        }
        if userDoc.Found? {
          matchesData := matchesData + [Entry(m.id, userDoc.data, m.doc.matchedAt)];
        }
      }
    }
    assert snaps[..|snaps|] == snaps;
    r := Success(matchesData);
  }

  /** Once a prefix fails the whole load fails. */
  lemma {:induction false} EntriesAbortKeeps(viewer: Uid, snaps: seq<MatchSnap>, n: nat, lookup: Uid -> Read<Fields>)
    requires n <= |snaps|
    requires Entries(viewer, snaps[..n], lookup).Failure?
    ensures Entries(viewer, snaps, lookup) == Entries(viewer, snaps[..n], lookup)
    decreases |snaps| - n
  {
    if n < |snaps| {
      assert snaps[..n + 1][..n] == snaps[..n];
      EntriesAbortKeeps(viewer, snaps, n + 1, lookup);
    } else {
      assert snaps[..n] == snaps;
    }
  }

  // ---------------------------------------------------------------------
  // Most recent first
  // ---------------------------------------------------------------------

  predicate RecentFirst(s: seq<Entry>)
  {
    forall i, j :: 0 <= i < j < |s| ==> s[i].matchedAt >= s[j].matchedAt
  }

  /** The sort key of the comparator `b - a` on `matchedAt`. */
  function Recency(e: Entry): int
  {
    -e.matchedAt
  }

  /** The list order: most recent match first. */
  function SortByRecency(s: seq<Entry>): seq<Entry>
  {
    SortByKey(Recency, s)
  }

  /** Sorting puts the most recent match first and keeps every entry, as
      often as it occurs. */
  lemma SortByRecencyOrders(s: seq<Entry>)
    ensures RecentFirst(SortByRecency(s))
    ensures multiset(SortByRecency(s)) == multiset(s)
  {
    SortByKeyAscending(Recency, s);
  }

  /** `sort((a, b) => b.matchedAt?.toDate() - a.matchedAt?.toDate())` as
      written, on the `matchedAt` values the swipe screen stores: those are
      ISO-8601 text, which has no `toDate`, so the comparator throws as soon
      as it is called, that is, whenever there are two entries or more. */
  function SortAsWritten(s: seq<Entry>): (r: Result<seq<Entry>, string>)
    ensures r.Failure? <==> |s| >= 2
    ensures r.Success? ==> r.value == s
  {
    if |s| >= 2 then Failure("matchedAt?.toDate is not a function") else Success(s)
  }

  /** With the sort as written, a viewer whose records yield two entries
      sees an empty list: the error is caught and nothing is stored. */
  lemma TwoMatchesListedAsNone()
    ensures var a := Entry("a_b", map[], 1);
      var b := Entry("a_c", map[], 2);
      SortAsWritten([a, b]).Failure? && SortByRecency([a, b]) == [b, a]
  {
    var a := Entry("a_b", map[], 1);
    var b := Entry("a_c", map[], 2);
    assert SortByRecency([b]) == [b] by {
      assert [b][1..] == [];
    }
    assert [a, b][1..] == [b];
  }

  /** The header's noun: "match" for exactly one entry. */
  function CountNoun(n: nat): (w: string)
    ensures w == "match" <==> n == 1
    ensures w == "matches" <==> n != 1
  {
    if n == 1 then "match" else "matches"
  }

  /** What `loadMatches` leaves on screen. */
  function Loaded(user: Option<Uid>, query: Result<seq<MatchSnap>, string>, lookup: Uid -> Read<Fields>): Option<seq<Entry>>
  {
    if user.None? || query.Failure? then None
    else
      var r := Entries(user.value, ViewerRecords(user.value, query.value), lookup);
      if r.Failure? then None else Some(SortByRecency(r.value))
  }

  /** Every listed entry comes from a record that names the viewer, and the
      list is sorted most recent first. */
  lemma LoadedFromViewerRecords(user: Option<Uid>, all: seq<MatchSnap>, lookup: Uid -> Read<Fields>, e: Entry)
    requires Loaded(user, Success(all), lookup).Some?
    requires e in Loaded(user, Success(all), lookup).value
    ensures exists m :: m in all && user.value in m.doc.users && Yields(user.value, m, lookup, e)
    ensures RecentFirst(Loaded(user, Success(all), lookup).value)
  {
    var mine := ViewerRecords(user.value, all);
    var es := Entries(user.value, mine, lookup).value;
    SortByRecencyOrders(es);
    assert e in multiset(SortByRecency(es));
    EntriesMembership(user.value, mine, lookup, e);
    var i :| 0 <= i < |mine| && Yields(user.value, mine[i], lookup, e);
    assert mine[i] in mine;
  }

  /** What `loadMatches` leaves on screen with the sort as written: a
      load with two entries or more throws in the sort, and the error is
      caught before the list is set. */
  function LoadedAsWritten(user: Option<Uid>, query: Result<seq<MatchSnap>, string>, lookup: Uid -> Read<Fields>): Option<seq<Entry>>
  {
    if user.None? || query.Failure? then None
    else
      var r := Entries(user.value, ViewerRecords(user.value, query.value), lookup);
      if r.Failure? then None
      else
        var sorted := SortAsWritten(r.value);
        if sorted.Failure? then None else Some(sorted.value)
  }

  /** A sort leaves a list of at most one entry as it is. */
  lemma SortShortList(s: seq<Entry>)
    requires |s| <= 1
    ensures SortByRecency(s) == s
  {
    SortByRecencyOrders(s);
    var t := SortByRecency(s);
    assert |t| == |multiset(t)| == |multiset(s)| == |s|;
    if |s| == 1 {
      assert t[0] in multiset(s);
      assert t == [s[0]];
    }
  }

  /** As written, the screen lists something exactly when the intended load
      gives at most one entry, and then it lists the same; two entries or
      more leave the list as it was. */
  lemma AsWrittenListsAtMostOne(user: Option<Uid>, query: Result<seq<MatchSnap>, string>, lookup: Uid -> Read<Fields>)
    ensures LoadedAsWritten(user, query, lookup).Some? <==>
      Loaded(user, query, lookup).Some? && |Loaded(user, query, lookup).value| <= 1
    ensures LoadedAsWritten(user, query, lookup).Some? ==> LoadedAsWritten(user, query, lookup) == Loaded(user, query, lookup)
  {
    if user.Some? && query.Success? {
      var r := Entries(user.value, ViewerRecords(user.value, query.value), lookup);
      if r.Success? {
        SortByRecencyOrders(r.value);
        assert |SortByRecency(r.value)| == |multiset(r.value)| == |r.value|;
        if |r.value| <= 1 {
          SortShortList(r.value);
        }
      }
    }
  }

  class MatchesScreen {
    var matches: seq<Entry>
    var isLoading: bool

    constructor ()
      ensures matches == [] && isLoading
    {
      matches, isLoading := [], true;
    }

    /** `loadMatches` with the sort by recency; without a user, or on any
        error, the list is kept, and loading ends in every case. */
    method LoadMatches(user: Option<Uid>, query: Result<seq<MatchSnap>, string>, lookup: Uid -> Read<Fields>)
      modifies this
      ensures !isLoading
      ensures matches == if Loaded(user, query, lookup).Some? then Loaded(user, query, lookup).value else old(matches)
    {
      if user.Some? && query.Success? {
        var r := CollectEntries(user.value, ViewerRecords(user.value, query.value), lookup);
        if r.Success? {
          matches := SortByRecency(r.value);
        }
      }
      isLoading := false;
    }
  }
}
