/** The artist's own profile editor: loading the user document with
    defaults, creating the first record, the header-image cap, saving with
    its guards and error messages, and the public share link. */
module ArtistProfile {
  import opened Common

  const MaxHeaderImages: nat := 5

  /** `addHeaderImage`: appends while fewer than five images are held;
      otherwise the alert text. */
  function AddHeaderImage(images: seq<string>, url: string): (r: Result<seq<string>, string>)
    ensures r.Success? <==> |images| < MaxHeaderImages
    ensures r.Success? ==> r.value == images + [url]
    ensures r.Failure? ==> r.error == "Max 5 header images allowed."
  {
    if |images| < MaxHeaderImages then Success(images + [url]) else Failure("Max 5 header images allowed.")
  }

  /** The list after adding each of `urls` in turn; a refused addition
      leaves it as it was. */
  function AddAll(images: seq<string>, urls: seq<string>): seq<string>
    decreases |urls|
  {
    if urls == [] then images
    else
      var r := AddHeaderImage(images, urls[0]);
      AddAll(if r.Success? then r.value else images, urls[1..])
  }

  function Min(a: int, b: int): int
  {
    if a <= b then a else b
  }

  /** From at most five images, additions keep the first urls that fit and
      drop the rest, so the list never holds more than five. */
  lemma {:induction false} AddAllKeepsCap(images: seq<string>, urls: seq<string>)
    requires |images| <= MaxHeaderImages
    ensures AddAll(images, urls) == images + urls[..Min(|urls|, MaxHeaderImages - |images|)]
    ensures |AddAll(images, urls)| <= MaxHeaderImages
    decreases |urls|
  {
    if urls != [] {
      if |images| < MaxHeaderImages {
        AddAllKeepsCap(images + [urls[0]], urls[1..]);
        var n := Min(|urls[1..]|, MaxHeaderImages - |images| - 1);
        assert urls[1..][..n] == urls[1..n + 1];
        assert images + [urls[0]] + urls[1..n + 1] == images + urls[..n + 1];
      } else {
        AddAllKeepsCap(images, urls[1..]);
      }
    }
  }

  /** The editable fields of the screen. */
  datatype Form = Form(name: string, bio: string, genre: string, profileImage: string,
                       headerImages: seq<string>, audioUrl: string)

  /** Loading: each field from the document, `''` or `[]` when missing. */
  function FormOf(data: Fields): Form
  {
    Form(TextOr(Get(data, "name")), TextOr(Get(data, "bio")), TextOr(Get(data, "genre")),
         TextOr(Get(data, "profileImage")), ListOr(Get(data, "headerImages")), TextOr(Get(data, "audioUrl")))
  }

  /** The record written when the user has no document yet. */
  function InitialRecord(uid: Uid): (doc: Fields)
    ensures doc.Keys == {"publicId", "role", "createdAt"}
    ensures doc["publicId"] == Str(PublicId(uid)) && doc["role"] == Str("artist")
  {
    map["publicId" := Str(PublicId(uid)), "role" := Str("artist"), "createdAt" := ServerTimestamp]
  }

  /** The form with its text fields trimmed, as `saveProfile` sends them. */
  function TrimmedText(f: Form): Form
  {
    f.(name := Trim(f.name), bio := Trim(f.bio), genre := Trim(f.genre))
  }

  /** The record built from a form's fields, which `saveProfile` fills
      with the trimmed text. */
  function RecordOf(uid: Uid, f: Form): Fields
  {
    map["profileImage" := Str(f.profileImage), "headerImages" := List(f.headerImages),
        "audioUrl" := Str(f.audioUrl), "publicId" := Str(PublicId(uid)), "role" := Str("artist"),
        "profileUpdatedAt" := ServerTimestamp,
        "name" := Str(f.name), "bio" := Str(f.bio), "genre" := Str(f.genre)]
  }

  /** The record `saveProfile` merges into the user document. */
  function ProfileRecord(uid: Uid, f: Form): Fields
  {
    RecordOf(uid, TrimmedText(f))
  }

  /** A field the patch holds reads as the patch's value after the merge. */
  lemma MergedField(existing: Option<Fields>, patch: Fields, k: string)
    requires k in patch
    ensures Get(MergeInto(existing, patch), k) == Some(patch[k])
  {
  }

  /** The record holds the form's name, bio and genre. */
  lemma RecordText(uid: Uid, f: Form)
    ensures var p := RecordOf(uid, f);
      && "name" in p && p["name"] == Str(f.name)
      && "bio" in p && p["bio"] == Str(f.bio)
      && "genre" in p && p["genre"] == Str(f.genre)
  {
  }

  /** The record holds the form's media fields as they are. */
  lemma RecordMedia(uid: Uid, f: Form)
    ensures var p := RecordOf(uid, f);
      && "profileImage" in p && p["profileImage"] == Str(f.profileImage)
      && "headerImages" in p && p["headerImages"] == List(f.headerImages)
      && "audioUrl" in p && p["audioUrl"] == Str(f.audioUrl)
  {
  }

  /** The record names the artist role, the public id and a server time. */
  lemma RecordIdentity(uid: Uid, f: Form)
    ensures var p := RecordOf(uid, f);
      && "role" in p && p["role"] == Str("artist")
      && "publicId" in p && p["publicId"] == Str(PublicId(uid))
      && "profileUpdatedAt" in p && p["profileUpdatedAt"] == ServerTimestamp
  {
  }

  /** Saving and loading again gives the form back with its text fields
      trimmed, whatever the document held before; the document then also
      names the artist role and the public id. */
  lemma SaveLoadRoundTrip(uid: Uid, f: Form, existing: Option<Fields>)
    ensures FormOf(MergeInto(existing, ProfileRecord(uid, f))) ==
      Form(Trim(f.name), Trim(f.bio), Trim(f.genre), f.profileImage, f.headerImages, f.audioUrl)
    ensures var d := MergeInto(existing, ProfileRecord(uid, f));
      Get(d, "role") == Some(Str("artist")) && Get(d, "publicId") == Some(Str(PublicId(uid)))
      && Get(d, "profileUpdatedAt") == Some(ServerTimestamp)
  {
    var t := TrimmedText(f);
    var p := RecordOf(uid, t);
    RecordText(uid, t);
    RecordMedia(uid, t);
    RecordIdentity(uid, t);
    MergedField(existing, p, "name");
    MergedField(existing, p, "bio");
    MergedField(existing, p, "genre");
    MergedField(existing, p, "profileImage");
    MergedField(existing, p, "headerImages");
    MergedField(existing, p, "audioUrl");
    MergedField(existing, p, "role");
    MergedField(existing, p, "publicId");
    MergedField(existing, p, "profileUpdatedAt");
  }

  /** A rejected save: the store's error code, if any, and its message. */
  datatype SaveError = SaveError(code: Option<string>, message: string)

  const TimeoutMessage := "Save operation timed out"
  const PermissionText := "You do not have permission to save this profile. Please make sure you are signed in."
  const NetworkText := "Network error. Please check your connection and try again"
  const SlowText := "Save operation took too long. Please try again"
  const GenericText := "Failed to save profile"

  /** The alert text for a failed save. */
  function ErrorMessage(e: SaveError): (m: string)
    ensures m == PermissionText <==> e.code == Some("permission-denied")
    ensures m == NetworkText <==> e.code == Some("unavailable")
    ensures m == SlowText <==>
      e.code != Some("permission-denied") && e.code != Some("unavailable") && e.message == TimeoutMessage
    ensures m == GenericText <==>
      e.code != Some("permission-denied") && e.code != Some("unavailable") && e.message != TimeoutMessage
  {
    if e.code == Some("permission-denied") then PermissionText
    else if e.code == Some("unavailable") then NetworkText
    else if e.message == TimeoutMessage then SlowText
    else GenericText
  }

  /** The public link to an artist's profile. */
  function ShareUrl(uid: Uid): string
  {
    "https://jamfinder.app/public/artist/" + PublicId(uid)
  }

  /** The link ends in the first eight characters of the user id, and two
      users whose ids share those characters share the link. */
  lemma ShareUrlNamesPublicId(u: Uid, v: Uid)
    ensures |ShareUrl(u)| <= |"https://jamfinder.app/public/artist/"| + 8
    ensures ShareUrl(u)[|"https://jamfinder.app/public/artist/"|..] == PublicId(u)
    ensures ShareUrl(u) == ShareUrl(v) <==> PublicId(u) == PublicId(v)
  {
    var p := "https://jamfinder.app/public/artist/";
    if ShareUrl(u) == ShareUrl(v) {
      assert PublicId(u) == ShareUrl(u)[|p|..];
      assert PublicId(v) == ShareUrl(v)[|p|..];
    }
  }

  /** How the awaited merge write ends: it resolves, it is rejected, or the
      ten-second timer wins the race (the write may still land). */
  datatype WriteOutcome = Resolved | Rejected(error: SaveError) | TimedOut(writeLands: bool)

  /** What a press of the save button starts. */
  datatype SaveStart = Ignored | Refused(alert: string) | Writing(target: Uid, record: Fields)

  /** A signed-in id: `uid` is set and not empty. */
  predicate SignedIn(uid: Option<Uid>)
  {
    uid.Some? && uid.value != ""
  }

  class ArtistProfileScreen {
    var uid: Option<Uid>
    var form: Form
    var isLoading: bool
    var isSaving: bool

    constructor (uid: Option<Uid>)
      ensures this.uid == uid && form == Form("", "", "", "", [], "") && !isLoading && !isSaving
    {
      this.uid := uid;
      form := Form("", "", "", "", [], "");
      isLoading, isSaving := false, false;
    }

    /** `loadProfile`: without a user nothing happens; an existing document
        fills the form; a missing one gets the initial record; any rejected
        await is reported; loading ends in every case. */
    method LoadProfile(store: UserStore, readOk: bool, writeOk: bool) returns (alerted: bool)
      modifies this, store
      ensures uid == old(uid) && isSaving == old(isSaving)
      ensures !SignedIn(uid) ==> form == old(form) && isLoading == old(isLoading) && store.docs == old(store.docs) && !alerted
      ensures SignedIn(uid) ==> !isLoading
      ensures SignedIn(uid) ==>
        && form == (if readOk && uid.value in old(store.docs) then FormOf(old(store.docs)[uid.value]) else old(form))
        && store.docs == (if readOk && uid.value !in old(store.docs) && writeOk
                          then old(store.docs)[uid.value := InitialRecord(uid.value)] else old(store.docs))
        && (alerted <==> !readOk || (uid.value !in old(store.docs) && !writeOk))
    {
      alerted := false;
      if !SignedIn(uid) {
        return;
      }
      isLoading := true;
      var id := uid.value;
      if !readOk {
        alerted := true;
      } else if id in store.docs {
        form := FormOf(store.docs[id]);
      } else if writeOk {
        store.docs := store.docs[id := InitialRecord(id)];
      } else {
        alerted := true;
      }
      isLoading := false;
    }

    method AddImage(url: string) returns (alert: Option<string>)
      modifies this
      ensures var r := AddHeaderImage(old(form.headerImages), url);
        && form == old(form).(headerImages := if r.Success? then r.value else old(form.headerImages))
        && (alert.Some? <==> r.Failure?)
        && (r.Failure? ==> alert.value == r.error)
      ensures uid == old(uid) && isLoading == old(isLoading) && isSaving == old(isSaving)
    {
      var r := AddHeaderImage(form.headerImages, url);
      if r.Success? {
        form := form.(headerImages := r.value);
        alert := None;
      } else {
        alert := Some(r.error);
      }
    }

    /** The synchronous part of `saveProfile`, up to the awaited write: a
        save in progress ignores the press; a blank name, then a missing
        user, is refused before the flag is set. */
    method SaveProfile() returns (start: SaveStart)
      modifies this
      ensures old(isSaving) ==> start == Ignored && isSaving
      ensures !old(isSaving) && Trim(form.name) == "" ==> start == Refused("Please enter your name") && !isSaving
      ensures !old(isSaving) && Trim(form.name) != "" && !SignedIn(uid) ==>
        start == Refused("Please sign in to save your profile") && !isSaving
      ensures !old(isSaving) && Trim(form.name) != "" && SignedIn(uid) ==>
        start == Writing(uid.value, ProfileRecord(uid.value, form)) && isSaving
      ensures uid == old(uid) && form == old(form) && isLoading == old(isLoading)
    {
      if isSaving {
        return Ignored;
      }
      if Trim(form.name) == "" {
        return Refused("Please enter your name");
      }
      if !SignedIn(uid) {
        return Refused("Please sign in to save your profile");
      }
      isSaving := true;
      start := Writing(uid.value, ProfileRecord(uid.value, form));
    }

    /** The rest of `saveProfile` once the race settles: the flag is reset
        on success and on failure, and the alert says which. */
    method FinishSave(store: UserStore, target: Uid, record: Fields, outcome: WriteOutcome) returns (alert: string)
      modifies this, store
      ensures !isSaving
      ensures uid == old(uid) && form == old(form) && isLoading == old(isLoading)
      ensures store.docs ==
        if outcome.Resolved? || (outcome.TimedOut? && outcome.writeLands)
        then old(store.docs)[target := MergeInto(if target in old(store.docs) then Some(old(store.docs)[target]) else None, record)]
        else old(store.docs)
      ensures alert ==
        match outcome
        case Resolved => "Profile saved successfully!"
        case Rejected(e) => ErrorMessage(e)
        case TimedOut(_) => SlowText
    {
      if outcome.Resolved? || (outcome.TimedOut? && outcome.writeLands) {
        var existing := if target in store.docs then Some(store.docs[target]) else None;
        store.docs := store.docs[target := MergeInto(existing, record)];
      }
      isSaving := false;
      match outcome
      case Resolved =>
        alert := "Profile saved successfully!";
      case Rejected(e) =>
        alert := ErrorMessage(e);
      case TimedOut(_) =>
        alert := ErrorMessage(SaveError(None, TimeoutMessage));
    }
  }
}
