/** The venue's own profile editor. The form is one record, `profileData`,
    which loading replaces by the whole stored document; the equipment
    checkboxes and the details box edit its `equipment` object; saving
    checks the required fields and updates the existing document. */
module VenueProfile {
  import opened Common

  /** The record the editor starts from. */
  function DefaultProfileData(): (p: Fields)
    ensures Get(p, "name") == Some(Str("")) && Get(p, "address") == Some(Str("")) && Get(p, "capacity") == Some(Str(""))
    ensures Get(p, "equipment") == Some(Object(DefaultEquipment()))
  {
    map["name" := Str(""), "address" := Str(""), "capacity" := Str(""), "description" := Str(""),
        "profileImage" := Null, "headerImage" := Null, "equipment" := Object(DefaultEquipment())]
  }

  function DefaultEquipment(): Fields
  {
    map["availableToUse" := Bool(false), "availableToRent" := Bool(false), "notIncluded" := Bool(false),
        "details" := Str("")]
  }

  /** The three equipment checkboxes. */
  datatype Flag = AvailableToUse | AvailableToRent | NotIncluded

  function FlagKey(f: Flag): (k: string)
    ensures k != "details" && k != "equipment"
  {
    match f
    case AvailableToUse => "availableToUse"
    case AvailableToRent => "availableToRent"
    case NotIncluded => "notIncluded"
  }

  /** `...prev.equipment`: an object spreads its fields; a missing or
      `null` equipment, like any other non-object here, spreads to nothing. */
  function SpreadOf(v: Option<Value>): (e: Fields)
    ensures v.Some? && v.value.Object? ==> e == v.value.fields
    ensures v.None? || v == Some(Null) ==> e == map[]
  {
    match v
    case Some(Object(fields)) => fields
    case _ => map[]
  }

  /** `prev.equipment.<flag>` throws exactly when the equipment is missing
      or `null`. */
  predicate EquipmentMissing(p: Fields)
  {
    Get(p, "equipment") == None || Get(p, "equipment") == Some(Null)
  }

  /** The equipment the handlers start from. */
  function EquipmentOf(p: Fields): Fields
  {
    SpreadOf(Get(p, "equipment"))
  }

  /** A checkbox press: the flag becomes the negation of its truthiness;
      reading the flag of a missing equipment throws. */
  function ToggleFlag(p: Fields, f: Flag): (r: Result<Fields, string>)
    ensures r.Failure? <==> EquipmentMissing(p)
    ensures r.Success? ==> Get(r.value, "equipment").Some? && Get(r.value, "equipment").value.Object?
  {
    if EquipmentMissing(p) then Failure("TypeError")
    else
      var eq := EquipmentOf(p);
      Success(p["equipment" := Object(eq[FlagKey(f) := Bool(!Truthy(Get(eq, FlagKey(f))))])])
  }

  /** Typing in the details box; it reads no field of the equipment, so it
      never throws. */
  function EditDetails(p: Fields, text: string): Fields
  {
    p["equipment" := Object(EquipmentOf(p)["details" := Str(text)])]
  }

  /** A press flips exactly its own flag: every other field of the record,
      the other flags and the details stay as they were. */
  lemma ToggleFlipsOnlyItsFlag(p: Fields, f: Flag)
    requires ToggleFlag(p, f).Success?
    ensures var q, e, e' := ToggleFlag(p, f).value, EquipmentOf(p), EquipmentOf(ToggleFlag(p, f).value);
      && q.Keys == p.Keys
      && (forall k :: k in p && k != "equipment" ==> q[k] == p[k])
      && Get(e', FlagKey(f)) == Some(Bool(!Truthy(Get(e, FlagKey(f)))))
      && (forall k :: k in e && k != FlagKey(f) ==> Get(e', k) == Get(e, k))
      && Get(e', "details") == Get(e, "details")
  {
  }

  /** Two presses of the same box give the record back when the flag held a
      boolean, and in any case leave the flag as truthy as it was. */
  lemma ToggleTwiceRestores(p: Fields, f: Flag)
    requires ToggleFlag(p, f).Success?
    ensures ToggleFlag(ToggleFlag(p, f).value, f).Success?
    ensures var e, e2 := EquipmentOf(p), EquipmentOf(ToggleFlag(ToggleFlag(p, f).value, f).value);
      Truthy(Get(e2, FlagKey(f))) == Truthy(Get(e, FlagKey(f)))
    ensures Get(p, "equipment").value.Object? && Get(EquipmentOf(p), FlagKey(f)).Some?
            && Get(EquipmentOf(p), FlagKey(f)).value.Bool? ==>
      ToggleFlag(ToggleFlag(p, f).value, f).value == p
  {
    var e := EquipmentOf(p);
    var q := ToggleFlag(p, f).value;
    var e1 := e[FlagKey(f) := Bool(!Truthy(Get(e, FlagKey(f))))];
    assert EquipmentOf(q) == e1;
    var e2 := e1[FlagKey(f) := Bool(Truthy(Get(e, FlagKey(f))))];
    assert EquipmentOf(ToggleFlag(q, f).value) == e2;
    if Get(p, "equipment").value.Object? && Get(e, FlagKey(f)).Some? && Get(e, FlagKey(f)).value.Bool? {
      assert e2 == e;
      assert ToggleFlag(q, f).value == p["equipment" := Object(e)];
    }
  }

  /** Editing the details replaces only `equipment.details`; a missing or
      `null` equipment becomes an object holding only the details. */
  lemma EditDetailsOnlyDetails(p: Fields, text: string)
    ensures var q, e, e' := EditDetails(p, text), EquipmentOf(p), EquipmentOf(EditDetails(p, text));
      && q.Keys == p.Keys + {"equipment"}
      && (forall k :: k in p && k != "equipment" ==> q[k] == p[k])
      && Get(q, "equipment").Some? && Get(q, "equipment").value.Object?
      && Get(e', "details") == Some(Str(text))
      && (forall k :: k in e && k != "details" ==> Get(e', k) == Get(e, k))
      && (EquipmentMissing(p) ==> Get(q, "equipment") == Some(Object(map["details" := Str(text)])))
  {
  }

  /** Typing into one of the record's text inputs. */
  function EditField(p: Fields, key: string, text: string): (q: Fields)
    ensures Get(q, key) == Some(Str(text))
    ensures forall k :: k in p && k != key ==> Get(q, k) == Get(p, k)
  {
    p[key := Str(text)]
  }

  /** The required-field check of `handleSaveProfile`. */
  predicate MissingRequired(p: Fields)
  {
    !Truthy(Get(p, "name")) || !Truthy(Get(p, "address")) || !Truthy(Get(p, "capacity"))
  }

  /** The untouched form is refused, and a record whose name, address and
      capacity were typed in is accepted exactly when none of the three is
      empty. */
  lemma RequiredFields(p: Fields, name: string, address: string, capacity: string)
    ensures MissingRequired(DefaultProfileData())
    ensures var q := EditField(EditField(EditField(p, "name", name), "address", address), "capacity", capacity);
      MissingRequired(q) <==> name == "" || address == "" || capacity == ""
  {
  }

  /** The patch `update` sends: the whole record plus `updatedAt`. */
  function SavePatch(p: Fields): (patch: Fields)
    ensures patch.Keys == p.Keys + {"updatedAt"}
    ensures patch["updatedAt"] == ServerTimestamp
    ensures forall k :: k in p && k != "updatedAt" ==> patch[k] == p[k]
  {
    p["updatedAt" := ServerTimestamp]
  }

  /** The record the first load creates for a user without a document. */
  function InitialRecord(uid: Uid): (doc: Fields)
    ensures doc.Keys == {"publicId", "role", "createdAt"}
    ensures doc["publicId"] == Str(PublicId(uid)) && doc["role"] == Str("venue")
  {
    map["publicId" := Str(PublicId(uid)), "role" := Str("venue"), "createdAt" := ServerTimestamp]
  }

  const SaveOk := "Profile saved successfully"
  const SaveFailed := "Failed to save profile"
  const FillRequired := "Please fill in all required fields"
  const MustLogIn := "You must be logged in to save your profile"

  class VenueProfileScreen {
    var uid: Option<Uid>
    var name: string
    var bio: string
    var venueType: string
    var profileImage: string
    var headerImages: seq<string>
    var profileData: Fields
    var isLoading: bool

    constructor (uid: Option<Uid>)
      ensures this.uid == uid && profileData == DefaultProfileData()
      ensures name == "" && bio == "" && venueType == "" && profileImage == "" && headerImages == [] && !isLoading
    {
      this.uid := uid;
      name, bio, venueType, profileImage, headerImages := "", "", "", "", [];
      profileData := DefaultProfileData();
      isLoading := false;
    }

    /** `loadProfile`: an existing document fills the separate fields with
        defaults and becomes the whole record; a missing one gets the
        initial record and leaves the form alone; loading ends in every
        case. */
    method LoadProfile(store: UserStore, readOk: bool, writeOk: bool) returns (alerted: bool)
      modifies this, store
      ensures uid == old(uid)
      ensures (uid.None? || uid.value == "") ==>
        && profileData == old(profileData) && name == old(name) && bio == old(bio) && venueType == old(venueType)
        && profileImage == old(profileImage) && headerImages == old(headerImages) && isLoading == old(isLoading)
        && store.docs == old(store.docs) && !alerted
      ensures uid.Some? && uid.value != "" ==>
        var id := uid.value;
        var found := readOk && id in old(store.docs);
        && !isLoading
        && (found ==>
              var d := old(store.docs)[id];
              && profileData == d && name == TextOr(Get(d, "name")) && bio == TextOr(Get(d, "bio"))
              && venueType == TextOr(Get(d, "venueType")) && profileImage == TextOr(Get(d, "profileImage"))
              && headerImages == ListOr(Get(d, "headerImages")))
        && (!found ==>
              && profileData == old(profileData) && name == old(name) && bio == old(bio) && venueType == old(venueType)
              && profileImage == old(profileImage) && headerImages == old(headerImages))
        && store.docs == (if readOk && id !in old(store.docs) && writeOk
                          then old(store.docs)[id := InitialRecord(id)] else old(store.docs))
        && (alerted <==> !readOk || (id !in old(store.docs) && !writeOk))
    {
      alerted := false;
      if uid.None? || uid.value == "" {
        return;
      }
      isLoading := true;
      var id := uid.value;
      if !readOk {
        alerted := true;
      } else if id in store.docs {
        var data := store.docs[id];
        name := TextOr(Get(data, "name"));
        bio := TextOr(Get(data, "bio"));
        venueType := TextOr(Get(data, "venueType"));
        profileImage := TextOr(Get(data, "profileImage"));
        headerImages := ListOr(Get(data, "headerImages"));
        profileData := data;
      } else if writeOk {
        store.docs := store.docs[id := InitialRecord(id)];
      } else {
        alerted := true;
      }
      isLoading := false;
    }

    /** A checkbox press; a record whose equipment is missing or `null`
        makes it throw and nothing changes. */
    method PressFlag(f: Flag) returns (threw: bool)
      modifies this
      ensures threw <==> ToggleFlag(old(profileData), f).Failure?
      ensures profileData == if threw then old(profileData) else ToggleFlag(old(profileData), f).value
      ensures uid == old(uid) && name == old(name) && bio == old(bio) && venueType == old(venueType)
      ensures profileImage == old(profileImage) && headerImages == old(headerImages) && isLoading == old(isLoading)
    {
      var r := ToggleFlag(profileData, f);
      threw := r.Failure?;
      if r.Success? {
        profileData := r.value;
      }
    }

    /** Typing in the details box. */
    method TypeDetails(text: string)
      modifies this
      ensures profileData == EditDetails(old(profileData), text)
      ensures uid == old(uid) && name == old(name) && bio == old(bio) && venueType == old(venueType)
      ensures profileImage == old(profileImage) && headerImages == old(headerImages) && isLoading == old(isLoading)
    {
      profileData := EditDetails(profileData, text);
    }

    /** `handleSaveProfile` with the signed-in user `currentUser`: the
        required fields first, then the user, then `update`, which fails on
        a missing document. The separately held `bio` and `venueType` are
        not written. */
    method HandleSaveProfile(store: UserStore, currentUser: Option<Uid>, writeOk: bool) returns (alert: string)
      modifies store
      ensures MissingRequired(profileData) ==> alert == FillRequired && store.docs == old(store.docs)
      ensures !MissingRequired(profileData) && currentUser.None? ==> alert == MustLogIn && store.docs == old(store.docs)
      ensures !MissingRequired(profileData) && currentUser.Some? ==>
        var id := currentUser.value;
        if writeOk && id in old(store.docs)
        then alert == SaveOk && store.docs == old(store.docs)[id := MergeInto(Some(old(store.docs)[id]), SavePatch(profileData))]
        else alert == SaveFailed && store.docs == old(store.docs)
    {
      if MissingRequired(profileData) {
        return FillRequired;
      }
      if currentUser.None? {
        return MustLogIn;
      }
      var id := currentUser.value;
      if !writeOk || id !in store.docs {
        return SaveFailed;
      }
      store.docs := store.docs[id := MergeInto(Some(store.docs[id]), SavePatch(profileData))];
      alert := SaveOk;
    }
  }
}
