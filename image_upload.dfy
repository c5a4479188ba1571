/** The image uploader: `uploadWithRetry`, and `pickImage`, which uploads a
    picked image once to `header_images/<uid>/<unique id>` (it does not use
    `uploadWithRetry`). */
module ImageUpload {
  import opened Common
  import opened Retry

  /** The default bound of `uploadWithRetry`. */
  const DefaultMaxRetries: nat := 3

  /** `uploadWithRetry(reference, blob, maxRetries)`: attempt `k` is one
      upload followed by one download-URL request, ending as `attemptAt(k)`.
      It returns the first URL obtained, makes no attempt after it, waits
      only between attempts and throws the last error; with no attempt
      allowed it throws `undefined`. */
  method UploadWithRetry(attemptAt: nat -> Result<string, string>, maxRetries: nat) returns (r: Run<string>)
    ensures r == Retried(attemptAt, maxRetries)
    ensures r.attempts <= maxRetries && |r.waits| == (if r.attempts == 0 then 0 else r.attempts - 1)
    ensures r.outcome.Success? ==> attemptAt(r.attempts) == Success(r.outcome.value)
    ensures maxRetries == 0 ==> r.outcome == Failure(None)
  {
    r := RetryFor(attemptAt, maxRetries);
  }

  /** Only a success within the bound makes the upload succeed, and with
      the default bound a success at the third attempt still counts. */
  lemma UploadWithRetryBound(attemptAt: nat -> Result<string, string>)
    ensures Retried(attemptAt, DefaultMaxRetries).outcome.Success? <==>
      attemptAt(1).Success? || attemptAt(2).Success? || attemptAt(3).Success?
    ensures attemptAt(1).Failure? && attemptAt(2).Failure? && attemptAt(3).Success? ==>
      Retried(attemptAt, DefaultMaxRetries) == Run(Success(attemptAt(3).value), 3, [1000, 2000])
  {
    var r := Retried(attemptAt, DefaultMaxRetries);
    if attemptAt(1).Failure? && attemptAt(2).Failure? && attemptAt(3).Success? {
      assert r.attempts == 3;
      assert Waits(2) == [1000, 2000];
    }
  }

  /** `header_images/<uid>/<unique id>`. */
  function ImagePath(uid: Uid, uniqueId: string): string
  {
    "header_images/" + uid + "/" + uniqueId
  }

  /** Two uploads by one user go to different places exactly when their
      unique ids differ. */
  lemma ImagePathInjective(uid: Uid, a: string, b: string)
    ensures ImagePath(uid, a) == ImagePath(uid, b) <==> a == b
  {
    var pre := "header_images/" + uid + "/";
    if ImagePath(uid, a) == ImagePath(uid, b) {
      assert a == ImagePath(uid, a)[|pre|..];
      assert b == ImagePath(uid, b)[|pre|..];
    }
  }

  const SignInText := "Please sign in to upload images"

  /** What one press leads to: nothing, an alert, or a URL handed to
      `onUploaded` for the image stored at `path`. */
  datatype ImageResult = Nothing | Alert(message: string) | Delivered(path: string, url: string)

  class ImageUploader {
    var imageUri: Option<string>
    var isUploading: bool

    constructor ()
      ensures imageUri.None? && !isUploading
    {
      imageUri, isUploading := None, false;
    }

    /** `pickImage`: ignored while `disabled` or uploading; a rejected
        picker call is alerted with its message; a cancelled pick (`pick`
        holds no asset) does nothing; otherwise the blob fetch, the upload
        and the URL request run once each, the first rejection is alerted
        with its message, and the flag is reset at the end. */
    method PickImage(disabled: bool, currentUser: Option<Uid>, pick: Result<Option<string>, string>, uniqueId: string,
                     fetched: Result<string, string>, uploaded: Result<(), string>, url: Result<string, string>)
      returns (r: ImageResult)
      modifies this
      ensures disabled || old(isUploading) ==> r == Nothing && imageUri == old(imageUri) && isUploading == old(isUploading)
      ensures !(disabled || old(isUploading)) ==>
        && !isUploading
        && (currentUser.None? ==> r == Alert(SignInText))
        && (currentUser.Some? && pick.Failure? ==> r == Alert(pick.error))
        && (currentUser.Some? && pick == Success(None) ==> r == Nothing)
        && (currentUser.Some? && pick.Success? && pick.value.Some? ==>
              r == (if fetched.Failure? then Alert(fetched.error)
                    else if uploaded.Failure? then Alert(uploaded.error)
                    else if url.Failure? then Alert(url.error)
                    else Delivered(ImagePath(currentUser.value, uniqueId), url.value)))
        && imageUri == (if r.Delivered? then Some(r.url) else old(imageUri))
    {
      if disabled || isUploading {
        return Nothing;
      }
      if currentUser.None? {
        r := Alert(SignInText);
      } else if pick.Failure? {
        r := Alert(pick.error);
      } else if pick.value.None? {
        r := Nothing;
      } else {
        isUploading := true;
        var path := ImagePath(currentUser.value, uniqueId);
        if fetched.Failure? {
          r := Alert(fetched.error);
        } else if uploaded.Failure? {
          r := Alert(uploaded.error);
        } else if url.Failure? {
          r := Alert(url.error);
        } else {
          imageUri := Some(url.value);
          r := Delivered(path, url.value);
        }
      }
      isUploading := false;
    }
  }
}
