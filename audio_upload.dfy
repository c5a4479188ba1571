/** The audio uploader: the size limit, the storage path with its sanitised
    file name, the two retried steps around the upload, and the uploading
    flag and progress that are reset however the attempt ends. */
module AudioUpload {
  import opened Common
  import opened Retry

  /** The largest accepted file, in bytes (10 MB). */
  const MaxAudioBytes: int := 10 * 1024 * 1024

  /** Both retried steps use three attempts. */
  const MaxRetries: nat := 3

  predicate SizeAccepted(size: int)
  {
    !(size > MaxAudioBytes)
  }

  /** The limit is inclusive: a file of exactly 10 MB is accepted and one
      byte more is refused. */
  lemma SizeLimitInclusive()
    ensures SizeAccepted(10485760) && !SizeAccepted(10485761)
  {
  }

  /** The characters `[a-zA-Z0-9.-]` that the file name keeps. */
  predicate SafeChar(c: char)
  {
    ('a' <= c <= 'z') || ('A' <= c <= 'Z') || ('0' <= c <= '9') || c == '.' || c == '-'
  }

  /** `name.replace(/[^a-zA-Z0-9.-]/g, '_')`. */
  function Sanitize(name: string): (safe: string)
    ensures |safe| == |name|
    ensures forall i :: 0 <= i < |name| && SafeChar(name[i]) ==> safe[i] == name[i]
    ensures forall i :: 0 <= i < |name| && !SafeChar(name[i]) ==> safe[i] == '_'
  {
    if name == [] then []
    else [if SafeChar(name[0]) then name[0] else '_'] + Sanitize(name[1..])
  }

  /** A sanitised name holds only kept characters and underscores, and
      sanitising it again changes nothing. */
  lemma SanitizeIdempotent(name: string)
    ensures forall i :: 0 <= i < |Sanitize(name)| ==> SafeChar(Sanitize(name)[i]) || Sanitize(name)[i] == '_'
    ensures Sanitize(Sanitize(name)) == Sanitize(name)
  {
    var s := Sanitize(name);
    assert forall i :: 0 <= i < |s| ==> Sanitize(s)[i] == s[i];
  }

  /** Decimal digits of a natural number. */
  function DecimalString(n: nat): (s: string)
    ensures |s| >= 1
    ensures forall i :: 0 <= i < |s| ==> '0' <= s[i] <= '9'
  {
    var d := [(n % 10) as char + '0'];
    if n < 10 then d else DecimalString(n / 10) + d
  }

  /** `audio/<uid>/<timestamp>_<safe name>`. */
  function AudioPath(uid: Uid, timestamp: nat, name: string): string
  {
    "audio/" + uid + "/" + DecimalString(timestamp) + "_" + Sanitize(name)
  }

  /** The path lies under the user's folder and ends in the sanitised name,
      after an underscore that follows the digits of the timestamp. */
  lemma AudioPathShape(uid: Uid, timestamp: nat, name: string)
    ensures var p, pre := AudioPath(uid, timestamp, name), "audio/" + uid + "/";
      && p[..|pre|] == pre
      && |p| == |pre| + |DecimalString(timestamp)| + 1 + |name|
      && p[|p| - |name|..] == Sanitize(name)
      && p[|p| - |name| - 1] == '_'
      && forall i :: |pre| <= i < |p| - |name| - 1 ==> '0' <= p[i] <= '9'
  {
    var pre := "audio/" + uid + "/";
    var t := DecimalString(timestamp);
    var p := AudioPath(uid, timestamp, name);
    assert p == pre + t + "_" + Sanitize(name);
    forall i | |pre| <= i < |p| - |name| - 1
      ensures '0' <= p[i] <= '9'
    {
      assert p[i] == t[i - |pre|];
    }
  }

  /** The file the picker returns. */
  datatype PickedFile = PickedFile(name: string, size: int, uri: string)

  const SignInText := "Please sign in to upload audio"
  const TooLargeText := "Please select an MP3 file under 10MB"
  const UploadFailedText := "There was an error uploading your audio. Please check your internet connection and try again."

  /** What one press of the button leads to: nothing, an alert, or a URL
      handed to `onUploaded` for the file stored at `path`. */
  datatype AudioResult = Nothing | Alert(message: string) | Delivered(path: string, url: string)

  /** The outcome of `pickAudio` once the guards pass: `fetchAt` and
      `urlAt` are the blob fetch and the download-URL request by attempt,
      `uploadOk` says whether the upload task resolves. */
  function PickOutcome(currentUser: Option<Uid>, picked: Option<PickedFile>, timestamp: nat,
                       fetchAt: nat -> Result<string, string>, uploadOk: bool,
                       urlAt: nat -> Result<string, string>): (r: AudioResult)
    ensures currentUser.None? ==> r == Alert(SignInText)
    ensures currentUser.Some? && picked.None? ==> r == Nothing
    ensures r.Delivered? ==>
      && currentUser.Some? && picked.Some? && SizeAccepted(picked.value.size)
      && r.path == AudioPath(currentUser.value, timestamp, picked.value.name)
      && Retried(fetchAt, MaxRetries).outcome.Success? && uploadOk
      && Retried(urlAt, MaxRetries).outcome == Success(r.url) && r.url != ""
    ensures currentUser.Some? && picked.Some? && !SizeAccepted(picked.value.size) ==> r == Alert(TooLargeText)
    ensures currentUser.Some? && picked.Some? && SizeAccepted(picked.value.size) && !r.Delivered? ==>
      r == Alert(UploadFailedText)
  {
    if currentUser.None? then Alert(SignInText)
    else if picked.None? then Nothing
    else if !SizeAccepted(picked.value.size) then Alert(TooLargeText)
    else
      var blob := Retried(fetchAt, MaxRetries);
      var url := Retried(urlAt, MaxRetries);
      if blob.outcome.Failure? || !uploadOk || url.outcome.Failure? || url.outcome.value == "" then Alert(UploadFailedText)
      else Delivered(AudioPath(currentUser.value, timestamp, picked.value.name), url.outcome.value)
  }

  /** An upload is delivered when the fetch succeeds within three attempts,
      the upload resolves and the first successful URL request gives a
      non-empty URL; three failed URL requests fail it even after the file
      was stored. */
  lemma DeliveredExactly(uid: Uid, file: PickedFile, timestamp: nat, fetchAt: nat -> Result<string, string>,
                         uploadOk: bool, urlAt: nat -> Result<string, string>)
    requires SizeAccepted(file.size)
    ensures PickOutcome(Some(uid), Some(file), timestamp, fetchAt, uploadOk, urlAt).Delivered? <==>
      && (exists i :: 1 <= i <= 3 && fetchAt(i).Success?)
      && uploadOk
      && (exists i :: 1 <= i <= 3 && urlAt(i).Success?)
      && Retried(urlAt, MaxRetries).outcome.value != ""
  {
  }

  class AudioUploader {
    var audioUrl: Option<string>
    var isUploading: bool
    var uploadProgress: int

    constructor ()
      ensures audioUrl.None? && !isUploading && uploadProgress == 0
    {
      audioUrl, isUploading, uploadProgress := None, false, 0;
    }

    /** `pickAudio`: ignored while `disabled` or uploading; otherwise the
        sign-in check, the picker (`picked`; a rejection is alerted with its
        message and resets the flag and the progress; no file means a
        cancelled pick), the size check, then the retried fetch, the upload
        and the retried URL request, after which the flag and the progress
        are reset. */
    method PickAudio(disabled: bool, currentUser: Option<Uid>, picked: Result<Option<PickedFile>, string>, timestamp: nat,
                     fetchAt: nat -> Result<string, string>, uploadOk: bool, urlAt: nat -> Result<string, string>)
      returns (r: AudioResult)
      modifies this
      ensures disabled || old(isUploading) ==>
        r == Nothing && audioUrl == old(audioUrl) && isUploading == old(isUploading) && uploadProgress == old(uploadProgress)
      ensures !(disabled || old(isUploading)) && currentUser.Some? && picked.Failure? ==>
        r == Alert(picked.error) && !isUploading && uploadProgress == 0 && audioUrl == old(audioUrl)
      ensures !(disabled || old(isUploading)) && (currentUser.None? || picked.Success?) ==>
        var file := if picked.Success? then picked.value else None;
        && r == PickOutcome(currentUser, file, timestamp, fetchAt, uploadOk, urlAt)
        && !isUploading
        && audioUrl == (if r.Delivered? then Some(r.url) else old(audioUrl))
        && uploadProgress == (if currentUser.Some? && file.Some? && SizeAccepted(file.value.size) then 0 else old(uploadProgress))
    {
      if disabled || isUploading {
        return Nothing;
      }
      if currentUser.None? {
        return Alert(SignInText);
      }
      if picked.Failure? {
        isUploading, uploadProgress := false, 0;
        return Alert(picked.error);
      }
      if picked.value.None? {
        return Nothing;
      }
      var file := picked.value.value;
      if !SizeAccepted(file.size) {
        return Alert(TooLargeText);
      }
      isUploading, uploadProgress := true, 0;
      var path := AudioPath(currentUser.value, timestamp, file.name);
      var blob := RetryWhile(fetchAt, MaxRetries);
      if blob.outcome.Failure? || !uploadOk {
        r := Alert(UploadFailedText);
      } else {
        var url := RetryWhile(urlAt, MaxRetries);
        if url.outcome.Failure? || url.outcome.value == "" {
          r := Alert(UploadFailedText);
        } else {
          audioUrl := Some(url.outcome.value);
          r := Delivered(path, url.outcome.value);
        }
      }
      isUploading, uploadProgress := false, 0;
    }
  }
}
