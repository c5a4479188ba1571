/** Account creation: the input checks in their order, the e-mail pattern
    `^[^\s@]+@[^\s@]+\.[^\s@]+$`, and the user document written for the new
    account. */
module Signup {
  import opened Common
  import ArtistProfile
  import VenueProfile

  /** A character the class `[^\s@]` admits. */
  predicate Plain(c: char)
  {
    !IsSpace(c) && c != '@'
  }

  /** Every character admitted by `[^\s@]`. */
  predicate AllPlain(x: string)
  {
    forall i :: 0 <= i < |x| ==> Plain(x[i])
  }

  /** The position of the first `@`, or the length when there is none. */
  function AtIndex(s: string): (k: nat)
    ensures k <= |s|
    ensures k < |s| ==> s[k] == '@'
    ensures forall i :: 0 <= i < k ==> s[i] != '@'
  {
    if s == [] then 0
    else if s[0] == '@' then 0
    else 1 + AtIndex(s[1..])
  }

  /** A dot that is neither the first nor the last character. */
  predicate HasInnerDot(d: string)
  {
    exists j :: 0 < j < |d| - 1 && d[j] == '.'
  }

  /** `validateEmail`: a plain, non-empty part, one `@`, then a plain part
      with an inner dot. */
  predicate IsValidEmail(s: string)
  {
    var k := AtIndex(s);
    0 < k < |s| && AllPlain(s[..k]) && AllPlain(s[k + 1..]) && HasInnerDot(s[k + 1..])
  }

  /** The pattern read literally: three non-empty runs of `[^\s@]` joined by
      an `@` at `i` and a dot at `j`. */
  ghost predicate MatchesAt(s: string, i: int, j: int)
  {
    && 0 < i && i + 1 < j && j + 1 < |s|
    && s[i] == '@' && s[j] == '.'
    && AllPlain(s[..i]) && AllPlain(s[i + 1..j]) && AllPlain(s[j + 1..])
  }

  ghost predicate MatchesPattern(s: string)
  {
    exists i, j :: MatchesAt(s, i, j)
  }

  /** `validateEmail` accepts exactly the strings the pattern matches. */
  lemma ValidEmailMatchesPattern(s: string)
    ensures IsValidEmail(s) <==> MatchesPattern(s)
  {
    if IsValidEmail(s) {
      ValidEmailMatches(s);
    }
    if MatchesPattern(s) {
      MatchedEmailValid(s);
    }
  }

  /** Every address `validateEmail` accepts matches the pattern. */
  lemma ValidEmailMatches(s: string)
    requires IsValidEmail(s)
    ensures MatchesPattern(s)
  {
    var k := AtIndex(s);
    var d := s[k + 1..];
    var j' :| 0 < j' < |d| - 1 && d[j'] == '.';
    var j := k + 1 + j';
    assert s[j] == '.';
    var b, c := s[k + 1..j], s[j + 1..];
    assert AllPlain(b) by {
      forall t | 0 <= t < |b| ensures Plain(b[t]) {
        assert b[t] == d[t];
      }
    }
    assert AllPlain(c) by {
      forall t | 0 <= t < |c| ensures Plain(c[t]) {
        assert c[t] == d[j' + 1 + t];
      }
    }
    assert MatchesAt(s, k, j);
  }

  /** Every string the pattern matches is accepted by `validateEmail`. */
  lemma MatchedEmailValid(s: string)
    requires MatchesPattern(s)
    ensures IsValidEmail(s)
  {
    var i, j :| MatchesAt(s, i, j);
    assert forall t :: 0 <= t < i ==> s[t] == s[..i][t] && Plain(s[..i][t]);
    assert AtIndex(s) == i;
    var d := s[i + 1..];
    assert AllPlain(d) by {
      forall t | 0 <= t < |d| ensures Plain(d[t]) {
        if t < j - i - 1 {
          assert d[t] == s[i + 1..j][t];
        } else if t > j - i - 1 {
          assert d[t] == s[j + 1..][t - (j - i)];
        } else {
          assert d[t] == s[j] == '.';
        }
      }
    }
    assert d[j - i - 1] == '.';
    assert HasInnerDot(d);
  }

  /** A valid address has no white space, so it is its own trim and never
      blank. */
  lemma ValidEmailIsTrimmed(s: string)
    ensures IsValidEmail(s) ==> Trim(s) == s && Trim(s) != ""
  {
    if IsValidEmail(s) {
      var k := AtIndex(s);
      assert Plain(s[..k][0]);
      assert !IsSpace(s[0]);
      assert Plain(s[k + 1..][|s| - k - 2]);
      assert !IsSpace(s[|s| - 1]);
      TrimRemovesOnlySpaces(s);
      assert LeadingSpaces(s) == 0;
    }
  }

  /** White space before or after an address makes it invalid. */
  lemma PaddedEmailInvalid(s: string, c: char)
    requires IsSpace(c)
    ensures !IsValidEmail([c] + s) && !IsValidEmail(s + [c])
  {
    var p := [c] + s;
    if AtIndex(p) > 0 {
      assert p[..AtIndex(p)][0] == c;
    }
    var q := s + [c];
    var k := AtIndex(q);
    if 0 < k < |q| {
      assert q[k + 1..][|q| - k - 2] == c;
    }
  }

  const BlankEmail := "Please enter your email"
  const BadEmail := "Please enter a valid email address"
  const ShortPassword := "Password must be at least 6 characters"

  /** The input checks of `handleSignup`, in order: the first that fails
      gives its alert. */
  function SignupCheck(email: string, password: string): (r: Option<string>)
    ensures r.None? <==> IsValidEmail(email) && |password| >= 6
    ensures r == Some(BlankEmail) <==> Trim(email) == ""
    ensures r == Some(BadEmail) <==> Trim(email) != "" && !IsValidEmail(email)
    ensures r == Some(ShortPassword) <==> IsValidEmail(email) && |password| < 6
  {
    ValidEmailIsTrimmed(email);
    if Trim(email) == "" then Some(BlankEmail)
    else if !IsValidEmail(email) then Some(BadEmail)
    else if |password| < 6 then Some(ShortPassword)
    else None
  }

  /** The document written for a new account. */
  function InitialUserDoc(uid: Uid, email: string, role: string): Fields
  {
    var base := map["email" := Str(email), "role" := Str(role), "publicId" := Str(PublicId(uid)),
                     "createdAt" := ServerTimestamp, "profileUpdatedAt" := ServerTimestamp,
                     "name" := Str(""), "bio" := Str(""), "genre" := Str(""), "audioUrl" := Str(""),
                     "profileImage" := Str(""), "headerImages" := List([])];
    if role == "venue" then
      base + map["address" := Str(""), "capacity" := Str(""), "venueType" := Str(""),
                 "equipment" := Object(VenueProfile.DefaultEquipment())]
    else base
  }

  /** The new document carries the role, the public id and the e-mail. */
  lemma InitialDocIdentity(uid: Uid, email: string, role: string)
    ensures var d := InitialUserDoc(uid, email, role);
      && Get(d, "role") == Some(Str(role)) && Get(d, "publicId") == Some(Str(PublicId(uid)))
      && Get(d, "email") == Some(Str(email))
  {
  }

  /** The venue fields are there exactly for a venue. */
  lemma VenueFieldsOnlyForVenues(uid: Uid, email: string, role: string)
    ensures var d := InitialUserDoc(uid, email, role);
      && ("address" in d <==> role == "venue")
      && ("capacity" in d <==> role == "venue")
      && ("venueType" in d <==> role == "venue")
      && ("equipment" in d <==> role == "venue")
  {
  }

  /** A new document loads as an empty artist form. */
  lemma NewDocumentLoadsEmptyForm(uid: Uid, email: string, role: string)
    ensures ArtistProfile.FormOf(InitialUserDoc(uid, email, role)) == ArtistProfile.Form("", "", "", "", [], "")
  {
    NewDocumentText(uid, email, role);
    NewDocumentMedia(uid, email, role);
  }

  /** The new document's text fields are empty. */
  lemma NewDocumentText(uid: Uid, email: string, role: string)
    ensures var d := InitialUserDoc(uid, email, role);
      Get(d, "name") == Some(Str("")) && Get(d, "bio") == Some(Str("")) && Get(d, "genre") == Some(Str(""))
  {
  }

  /** The new document has no images and no audio. */
  lemma NewDocumentMedia(uid: Uid, email: string, role: string)
    ensures var d := InitialUserDoc(uid, email, role);
      && Get(d, "profileImage") == Some(Str("")) && Get(d, "headerImages") == Some(List([]))
      && Get(d, "audioUrl") == Some(Str(""))
  {
  }

  /** A venue's new document has equipment the checkboxes can toggle, all
      off, but still lacks the required venue fields. */
  lemma NewVenueDocumentEditable(uid: Uid, email: string)
    ensures VenueProfile.EquipmentOf(InitialUserDoc(uid, email, "venue")) == VenueProfile.DefaultEquipment()
    ensures forall f :: VenueProfile.ToggleFlag(InitialUserDoc(uid, email, "venue"), f).Success?
    ensures VenueProfile.MissingRequired(InitialUserDoc(uid, email, "venue"))
  {
  }

  /** What account creation returns: the new user's id and e-mail. */
  datatype Account = Account(uid: Uid, email: string)

  class SignupScreen {
    const role: string
    var email: string
    var password: string
    var isLoading: bool

    constructor (role: string)
      ensures this.role == role && email == "" && password == "" && !isLoading
    {
      this.role := role;
      email, password := "", "";
      isLoading := false;
    }

    /** `handleSignup`: a failed check alerts and creates nothing; otherwise
        the account is created (`created`), its document written (`writeError`
        is the rejection, if any), and the screen navigates on success. */
    method HandleSignup(store: UserStore, created: Result<Account, string>, writeError: Option<string>)
      returns (alert: Option<string>, navigated: bool)
      modifies this, store
      ensures email == old(email) && password == old(password)
      ensures SignupCheck(email, password).Some? ==>
        alert == SignupCheck(email, password) && !navigated && store.docs == old(store.docs) && isLoading == old(isLoading)
      ensures SignupCheck(email, password).None? ==>
        && !isLoading
        && (created.Failure? ==> alert == Some(created.error) && !navigated && store.docs == old(store.docs))
        && (created.Success? && writeError.Some? ==> alert == writeError && !navigated && store.docs == old(store.docs))
        && (created.Success? && writeError.None? ==>
              alert.None? && navigated
              && store.docs == old(store.docs)[created.value.uid := InitialUserDoc(created.value.uid, created.value.email, role)])
    {
      alert, navigated := SignupCheck(email, password), false;
      if alert.Some? {
        return;
      }
      isLoading := true;
      if created.Failure? {
        alert := Some(created.error);
      } else if writeError.Some? {
        alert := writeError;
      } else {
        var user := created.value;
        store.docs := store.docs[user.uid := InitialUserDoc(user.uid, user.email, role)];
        navigated := true;
      }
      isLoading := false;
    }
  }
}
