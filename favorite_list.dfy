/** The favourites screen: every key of the viewer's favourites document,
    joined to the user documents that exist, in key order. */
module FavoriteList {
  import opened Common
  import opened FavoriteToggle

  /** The keys whose user document exists, in order. */
  function ExistingIds(ids: seq<Uid>, lookup: Uid -> Read<Fields>): (r: seq<Uid>)
    ensures |r| <= |ids|
    ensures forall x :: x in r <==> x in ids && lookup(x).Found?
  {
    if ids == [] then []
    else
      var init := ids[..|ids| - 1];
      var x := ids[|ids| - 1];
      assert ids == init + [x];
      if lookup(x).Found? then ExistingIds(init, lookup) + [x] else ExistingIds(init, lookup)
  }

  /** The list `fetchFavorites` builds from the keys `ids`: `{ id, ...data }`
      for each existing user document, in key order; a rejected read leaves
      it unset. */
  function Listed(ids: seq<Uid>, lookup: Uid -> Read<Fields>): (r: Option<seq<Fields>>)
    ensures r.None? <==> exists i :: 0 <= i < |ids| && lookup(ids[i]).ReadFailed?
  {
    if ids == [] then Some([])
    else
      var init := ids[..|ids| - 1];
      var id := ids[|ids| - 1];
      assert forall i :: 0 <= i < |init| ==> ids[i] == init[i];
      var prev := Listed(init, lookup);
      if prev.None? then None
      else
        match lookup(id)
        case ReadFailed => None
        case Missing => prev
        case Found(data) => Some(prev.value + [Attach(id, data)])
  }

  /** The list holds, position by position, the profiles of the existing
      ids. */
  lemma {:induction false} ListedIsExistingProfiles(ids: seq<Uid>, lookup: Uid -> Read<Fields>)
    requires Listed(ids, lookup).Some?
    ensures var l, e := Listed(ids, lookup).value, ExistingIds(ids, lookup);
      |l| == |e| && forall k :: 0 <= k < |l| ==> lookup(e[k]).Found? && l[k] == Attach(e[k], lookup(e[k]).data)
  {
    if ids != [] {
      var init, x := ids[..|ids| - 1], ids[|ids| - 1];
      ListedIsExistingProfiles(init, lookup);
      var l0, e0 := Listed(init, lookup).value, ExistingIds(init, lookup);
      if lookup(x).Found? {
        assert Listed(ids, lookup).value == l0 + [Attach(x, lookup(x).data)];
        assert ExistingIds(ids, lookup) == e0 + [x];
      } else {
        assert Listed(ids, lookup).value == l0;
        assert ExistingIds(ids, lookup) == e0;
      }
    }
  }

  /** Keys are listed in key order: the filter distributes over
      concatenation. */
  lemma {:induction false} ExistingIdsConcat(front: seq<Uid>, back: seq<Uid>, lookup: Uid -> Read<Fields>)
    ensures ExistingIds(front + back, lookup) == ExistingIds(front, lookup) + ExistingIds(back, lookup)
    decreases |back|
  {
    if back == [] {
      assert front + back == front;
    } else {
      var init := back[..|back| - 1];
      assert (front + back)[..|front + back| - 1] == front + init;
      assert (front + back)[|front + back| - 1] == back[|back| - 1];
      ExistingIdsConcat(front, init, lookup);
    }
  }

  /** No id is listed twice when the keys are distinct. */
  lemma {:induction false} ExistingIdsDistinct(ids: seq<Uid>, lookup: Uid -> Read<Fields>)
    requires Distinct(ids)
    ensures Distinct(ExistingIds(ids, lookup))
  {
    if ids != [] {
      var init := ids[..|ids| - 1];
      var x := ids[|ids| - 1];
      assert ids == init + [x];
      assert Distinct(init);
      ExistingIdsDistinct(init, lookup);
      var r0 := ExistingIds(init, lookup);
      assert x !in init;
      assert x !in r0;
      if lookup(x).Found? {
        var r := ExistingIds(ids, lookup);
        assert r == r0 + [x];
        forall k, l | 0 <= k < l < |r|
          ensures r[k] != r[l]
        {
          if l == |r0| {
            assert r[k] == r0[k] && r[l] == x;
          } else {
            assert r[k] == r0[k] && r[l] == r0[l];
          }
        }
      }
    }
  }

  /** The loop of `fetchFavorites`; it changes nothing. */
  method CollectFavorites(ids: seq<Uid>, lookup: Uid -> Read<Fields>) returns (r: Option<seq<Fields>>)
    ensures r == Listed(ids, lookup)
  {
    var users: seq<Fields> := [];
    for n := 0 to |ids|
      invariant Listed(ids[..n], lookup) == Some(users)
    {
      assert ids[..n + 1][..n] == ids[..n];
      var id := ids[n];
      var userDoc := lookup(id);
      if userDoc.ReadFailed? {
        assert Listed(ids, lookup).None? by {
          assert ids[n] == id;
        }
        return None;
      }
      if userDoc.Found? {
        users := users + [Attach(id, userDoc.data)];
      }
    }
    assert ids[..|ids|] == ids;
    r := Some(users);
  }

  /** A key whose value was set to `null` by unfavouriting is still listed
      as long as its user document exists. */
  lemma UnfavoritedStillListed(docs: map<Uid, FavDoc>, owner: Uid, target: Uid, lookup: Uid -> Read<Fields>)
    requires owner in docs
    requires lookup(target).Found?
    ensures var (docs', _) := Toggled(docs, owner, target, true, true);
      target in ExistingIds(Keys(docs'[owner]), lookup)
  {
    UnfavoriteKeepsKey(docs, owner, target);
  }

  /** The favourites screen's list. */
  class FavoritesScreen {
    var favorites: seq<Fields>

    constructor ()
      ensures favorites == []
    {
      favorites := [];
    }

    /** `fetchFavorites` for the signed-in user `currentUser`, whose
        favourites document reads as `favDocs(uid)`: without a user, reading
        its `uid` throws and nothing is read; a missing document lists
        nothing; a rejected read leaves the list as it was. */
    method FetchFavorites(currentUser: Option<Uid>, favDocs: Uid -> Read<FavDoc>, lookup: Uid -> Read<Fields>)
      modifies this
      ensures currentUser.None? ==> favorites == old(favorites)
      ensures currentUser.Some? ==>
        var favDoc := favDocs(currentUser.value);
        && (favDoc.ReadFailed? ==> favorites == old(favorites))
        && (favDoc.Missing? ==> favorites == [])
        && (favDoc.Found? ==>
              favorites == (var l := Listed(Keys(favDoc.data), lookup); if l.Some? then l.value else old(favorites)))
    {
      if currentUser.None? {
        return;
      }
      var favDoc := favDocs(currentUser.value);
      if favDoc.ReadFailed? {
        return;
      }
      var userIds := if favDoc.Found? then Keys(favDoc.data) else [];
      var users := CollectFavorites(userIds, lookup);
      if users.Some? {
        favorites := users.value;
      }
    }
  }
}
