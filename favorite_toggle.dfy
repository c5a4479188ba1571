/** The favourite button on a swipe card. Each owner has one document in the
    `favorites` collection mapping target user ids to a value: `true` once
    favourited, `null` once unfavourited (the key is never deleted). This
    collection is separate from the `likes` that form matches. */
module FavoriteToggle {
  import opened Common

  /** One field `target: value` of a favourites document. */
  datatype FavField = FavField(target: Uid, value: Value)

  /** A favourites document, its fields in key order. */
  type FavDoc = seq<FavField>

  /** `Object.keys` of a favourites document. */
  function Keys(d: FavDoc): (ks: seq<Uid>)
    ensures |ks| == |d|
    ensures forall i :: 0 <= i < |d| ==> ks[i] == d[i].target
  {
    if d == [] then [] else [d[0].target] + Keys(d[1..])
  }

  predicate DistinctKeys(d: FavDoc)
  {
    forall i, j :: 0 <= i < j < |d| ==> d[i].target != d[j].target
  }

  /** `data[target]`. */
  function Lookup(d: FavDoc, target: Uid): (v: Option<Value>)
    ensures v.Some? <==> target in Keys(d)
    ensures v.Some? ==> FavField(target, v.value) in d
  {
    if d == [] then None
    else if d[0].target == target then Some(d[0].value)
    else Lookup(d[1..], target)
  }

  /** Writing one field: an existing key keeps its place, a new key goes
      last. */
  function Put(d: FavDoc, target: Uid, v: Value): (r: FavDoc)
    ensures target in Keys(d) ==> Keys(r) == Keys(d)
    ensures target !in Keys(d) ==> Keys(r) == Keys(d) + [target]
  {
    if d == [] then [FavField(target, v)]
    else if d[0].target == target then
      var r := [FavField(target, v)] + d[1..];
      assert Keys(r) == Keys(d) by {
        assert Keys(r) == [target] + Keys(d[1..]);
      }
      r
    else
      var t := Put(d[1..], target, v);
      var r := [d[0]] + t;
      assert Keys(r) == [d[0].target] + Keys(t);
      assert Keys(d) == [d[0].target] + Keys(d[1..]);
      r
  }

  /** After the write the target reads `v` and every other key reads what
      it read before. */
  lemma {:induction false} PutLookup(d: FavDoc, target: Uid, v: Value)
    ensures Lookup(Put(d, target, v), target) == Some(v)
    ensures forall u :: u != target ==> Lookup(Put(d, target, v), u) == Lookup(d, u)
  {
    PutLookupAt(d, target, v, target);
    forall u | u != target
      ensures Lookup(Put(d, target, v), u) == Lookup(d, u)
    {
      PutLookupAt(d, target, v, u);
    }
  }

  /** `PutLookup` for one key `u`. */
  lemma {:induction false} PutLookupAt(d: FavDoc, target: Uid, v: Value, u: Uid)
    ensures Lookup(Put(d, target, v), u) == if u == target then Some(v) else Lookup(d, u)
  {
    if d != [] && d[0].target != target {
      PutLookupAt(d[1..], target, v, u);
      assert Put(d, target, v)[1..] == Put(d[1..], target, v);
    } else if d != [] {
      assert Put(d, target, v)[1..] == d[1..];
    }
  }

  /** Distinct keys stay distinct. */
  lemma PutKeepsKeysDistinct(d: FavDoc, target: Uid, v: Value)
    requires DistinctKeys(d)
    ensures DistinctKeys(Put(d, target, v))
  {
    var r := Put(d, target, v);
    forall i, j | 0 <= i < j < |r|
      ensures r[i].target != r[j].target
    {
      assert Keys(r)[i] == r[i].target && Keys(r)[j] == r[j].target;
      assert forall a, b :: 0 <= a < b < |Keys(d)| ==> Keys(d)[a] != Keys(d)[b];
    }
  }

  /** `set({ [target]: v }, { merge: true })`: creates the document if
      needed, changes one field. */
  function MergeField(docs: map<Uid, FavDoc>, owner: Uid, target: Uid, v: Value): (r: map<Uid, FavDoc>)
    ensures r.Keys == docs.Keys + {owner}
    ensures forall o :: o in docs && o != owner ==> r[o] == docs[o]
  {
    docs[owner := Put(if owner in docs then docs[owner] else [], target, v)]
  }

  /** `update({ [target]: v })`: rejected when the document does not
      exist. */
  function UpdateField(docs: map<Uid, FavDoc>, owner: Uid, target: Uid, v: Value): (r: Option<map<Uid, FavDoc>>)
    ensures r.None? <==> owner !in docs
    ensures r.Some? ==> r.value.Keys == docs.Keys
  {
    if owner !in docs then None else Some(docs[owner := Put(docs[owner], target, v)])
  }

  /** The effect of one press of the button: the store and the new flag.
      The flag flips only once the write has resolved. */
  function Toggled(docs: map<Uid, FavDoc>, owner: Uid, target: Uid, favorited: bool, writeOk: bool)
    : (map<Uid, FavDoc>, bool)
  {
    if !writeOk then (docs, favorited)
    else if favorited then
      var u := UpdateField(docs, owner, target, Null);
      if u.None? then (docs, favorited) else (u.value, false)
    else (MergeField(docs, owner, target, Bool(true)), true)
  }

  /** The flag shows what the store holds. */
  predicate Consistent(docs: map<Uid, FavDoc>, owner: Uid, target: Uid, favorited: bool)
  {
    favorited <==> owner in docs && Truthy(Lookup(docs[owner], target))
  }

  /** A press keeps the flag in step with the store, whether the write
      resolves or is rejected, and touches no other target and no other
      owner's document. */
  lemma ToggleKeepsConsistent(docs: map<Uid, FavDoc>, owner: Uid, target: Uid, favorited: bool, writeOk: bool)
    requires Consistent(docs, owner, target, favorited)
    ensures var (docs', f') := Toggled(docs, owner, target, favorited, writeOk);
      && Consistent(docs', owner, target, f')
      && (writeOk <==> f' != favorited)
      && (forall o :: o in docs && o != owner ==> o in docs' && docs'[o] == docs[o])
      && (forall u :: u != target && owner in docs ==> Lookup(docs'[owner], u) == Lookup(docs[owner], u))
  {
    PutLookup(if owner in docs then docs[owner] else [], target, if favorited then Null else Bool(true));
  }

  /** Two resolved presses give the flag back. */
  lemma ToggleTwiceRestoresFlag(docs: map<Uid, FavDoc>, owner: Uid, target: Uid, favorited: bool)
    requires Consistent(docs, owner, target, favorited)
    ensures var (docs1, f1) := Toggled(docs, owner, target, favorited, true);
      Toggled(docs1, owner, target, f1, true).1 == favorited
  {
    PutLookup(if owner in docs then docs[owner] else [], target, if favorited then Null else Bool(true));
  }

  /** Unfavouriting stores `null` and keeps the key in the document. */
  lemma UnfavoriteKeepsKey(docs: map<Uid, FavDoc>, owner: Uid, target: Uid)
    requires owner in docs
    ensures var (docs', f') := Toggled(docs, owner, target, true, true);
      && !f'
      && Lookup(docs'[owner], target) == Some(Null)
      && target in Keys(docs'[owner])
      && (target in Keys(docs[owner]) ==> Keys(docs'[owner]) == Keys(docs[owner]))
  {
    PutLookup(docs[owner], target, Null);
  }

  /** Favouriting merges `true` in and leaves every other field as it was. */
  lemma FavoriteMergesTrue(docs: map<Uid, FavDoc>, owner: Uid, target: Uid)
    ensures var (docs', f') := Toggled(docs, owner, target, false, true);
      && f'
      && Lookup(docs'[owner], target) == Some(Bool(true))
      && (owner in docs ==> forall u :: u != target ==> Lookup(docs'[owner], u) == Lookup(docs[owner], u))
  {
    PutLookup(if owner in docs then docs[owner] else [], target, Bool(true));
  }

  /** The button title. */
  function ButtonTitle(favorited: bool): (t: string)
    ensures t == "Unfavorite" <==> favorited
    ensures t == "Favorite" <==> !favorited
  {
    if favorited then "Unfavorite" else "Favorite"
  }

  /** The `favorites` collection. */
  class FavoritesCollection {
    var docs: map<Uid, FavDoc>

    constructor (docs: map<Uid, FavDoc>)
      ensures this.docs == docs
    {
      this.docs := docs;
    }
  }

  /** A swipe card's favourite state for the profile `target` it shows. */
  class SwipeCard {
    const target: Uid
    var isFavorited: bool

    constructor (target: Uid)
      ensures this.target == target && !isFavorited
    {
      this.target := target;
      isFavorited := false;
    }

    /** `checkFavorite`: turns the flag on when the owner's document holds a
        truthy value for the target; it never turns it off. Without a user
        or a target id, or when the read is rejected, nothing changes. */
    method CheckFavorite(uid: Option<Uid>, store: FavoritesCollection, readOk: bool)
      modifies this
      ensures isFavorited <==>
        old(isFavorited) ||
        (uid.Some? && uid.value != "" && target != "" && readOk &&
         uid.value in store.docs && Truthy(Lookup(store.docs[uid.value], target)))
    {
      if uid.None? || uid.value == "" || target == "" {
        return;
      }
      if !readOk {
        return;
      }
      if uid.value in store.docs && Truthy(Lookup(store.docs[uid.value], target)) {
        isFavorited := true;
      }
    }

    /** `toggleFavorite` by the signed-in `uid`. */
    method ToggleFavorite(uid: Uid, store: FavoritesCollection, writeOk: bool)
      modifies this, store
      ensures (store.docs, isFavorited) == Toggled(old(store.docs), uid, target, old(isFavorited), writeOk)
    {
      if isFavorited {
        if !writeOk || uid !in store.docs {
          return;
        }
        store.docs := store.docs[uid := Put(store.docs[uid], target, Null)];
        isFavorited := false;
      } else {
        if !writeOk {
          return;
        }
        store.docs := MergeField(store.docs, uid, target, Bool(true));
        isFavorited := true;
      }
    }
  }
}
