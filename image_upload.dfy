/**
 * The image-upload dialog: file validation, the selected image and its preview,
 * the synthetic progress meter, and the upload with its success and failure paths.
 */
module ImageUpload {
  import opened Wrappers
  import opened Strings
  import opened ChatTypes

  /** Largest accepted file, in bytes (5 MiB). */
  const MaxSize: nat := 5 * 1024 * 1024

  const AllowedTypes: seq<string> := ["image/jpeg", "image/png", "image/gif", "image/webp"]

  /** A chosen file; `dataUrl` is what reading it as a data URL produces. */
  datatype File = File(name: string, mimeType: string, size: nat, dataUrl: string)

  /** `validateFile`'s answer, with the reason a file is turned away. */
  datatype Verdict = Accepted | UnsupportedFormat | TooLarge

  /**
   * `validateFile`: a file is accepted exactly when its type is allowed and it is at most
   * 5 MiB. The type is checked first, so a file failing both is refused for its format.
   */
  function ValidateFile(file: File): (v: Verdict)
    ensures v == Accepted <==> file.mimeType in AllowedTypes && file.size <= MaxSize
    ensures v == UnsupportedFormat <==> file.mimeType !in AllowedTypes
  {
    if file.mimeType !in AllowedTypes then UnsupportedFormat
    else if file.size > MaxSize then TooLarge
    else Accepted
  }

  /** Five MiB exactly passes; six MiB and a text file do not; one MiB of PNG does. */
  lemma ValidateExamples(name: string, url: string)
    ensures ValidateFile(File(name, "image/png", 5 * 1024 * 1024, url)) == Accepted
    ensures ValidateFile(File(name, "image/png", 1024 * 1024, url)) == Accepted
    ensures ValidateFile(File(name, "image/jpeg", 6 * 1024 * 1024, url)) == TooLarge
    ensures ValidateFile(File(name, "text/plain", 1024, url)) == UnsupportedFormat
    ensures ValidateFile(File(name, "text/plain", 6 * 1024 * 1024, url)) == UnsupportedFormat
  {
  }

  /**
   * The payload posted for an image: `dataUrl.split(",")[1]`, the piece after the first
   * comma up to the next one; absent (`undefined`) when there is no comma at all.
   */
  function Base64Payload(dataUrl: string): (payload: Option<string>)
    ensures payload.Some? <==> ',' in dataUrl
    ensures payload.Some? ==> ',' !in payload.value
  {
    SplitCountsSeparator(dataUrl, ',');
    var pieces := Split(dataUrl, ',');
    if |pieces| > 1 then Some(pieces[1]) else None
  }

  /** For a data URL `header,body` (no comma in either), the payload is exactly the body. */
  lemma {:induction false} PayloadOfDataUrl(header: string, body: string)
    requires ',' !in header && ',' !in body
    ensures Base64Payload(header + "," + body) == Some(body)
  {
    JoinSplit([header, body], ',');
    assert Join([header, body], ',') == header + "," + body;
  }

  /** The progress updater run by the interval: add 10 below 90, otherwise keep the value. */
  function Tick(prev: int): (next: int)
    ensures next == prev || next == prev + 10
    ensures next > prev <==> prev < 90
  {
    if prev >= 90 then prev else prev + 10
  }

  /** The progress value and whether the interval that advances it is still running. */
  datatype Meter = Meter(progress: int, running: bool)

  /** One firing of the interval; at 90 or above the updater also clears its interval. */
  function Fire(m: Meter): (n: Meter)
    requires m.running
    ensures m.progress < 90 ==> n == Meter(m.progress + 10, true)
    ensures m.progress >= 90 ==> n == Meter(m.progress, false)
  {
    Meter(Tick(m.progress), m.progress < 90)
  }

  /** The meter after the interval has had `k` chances to fire. */
  function FireTimes(m: Meter, k: nat): (n: Meter)
    ensures !m.running ==> n == m
    ensures m.progress <= n.progress
    ensures n.running ==> m.running
    decreases k
  {
    if k == 0 || !m.running then m else FireTimes(Fire(m), k - 1)
  }

  /** From a multiple of ten up to 90, progress climbs by ten per firing and stops at 90. */
  lemma {:induction false} ProgressClimbs(p: int, k: nat)
    requires 0 <= p <= 90 && p % 10 == 0
    ensures FireTimes(Meter(p, true), k) ==
      if p + 10 * k <= 90 then Meter(p + 10 * k, true) else Meter(90, false)
    decreases k
  {
    if k > 0 {
      if p < 90 {
        ProgressClimbs(p + 10, k - 1);
      }
    }
  }

  /** Started at 0, the meter shows 10 per firing and never more than 90 before the upload settles. */
  lemma ProgressFromZero(k: nat)
    ensures FireTimes(Meter(0, true), k).progress == Min(10 * k, 90)
    ensures FireTimes(Meter(0, true), k).progress <= 90
  {
    ProgressClimbs(0, k);
  }

  /** A successful post clears the interval and shows 100. */
  function SettleSuccess(m: Meter): (n: Meter)
    ensures n.progress == 100 && !n.running
  {
    Meter(100, false)
  }

  /** A failed post as written: progress goes back to 0, but the interval is never cleared. */
  function SettleFailureAsWritten(m: Meter): (n: Meter)
    ensures n.progress == 0 && n.running == m.running
  {
    m.(progress := 0)
  }

  /** A failed post as intended: progress goes back to 0 and the interval is cleared. */
  function SettleFailure(m: Meter): (n: Meter)
    ensures n.progress == 0 && !n.running
  {
    Meter(0, false)
  }

  /**
   * As written, a post that fails while the meter is still climbing leaves the interval
   * running: nine firings later the meter is back at 90 although nothing is uploading.
   */
  lemma FailureLeavesIntervalRunning(p: int)
    requires 0 <= p < 90
    ensures SettleFailureAsWritten(Meter(p, true)).running
    ensures FireTimes(SettleFailureAsWritten(Meter(p, true)), 9) == Meter(90, true)
  {
  }

  /** As intended, after a failed post the meter stays at 0 however long one waits. */
  lemma FailureStopsProgress(m: Meter, k: nat)
    ensures FireTimes(SettleFailure(m), k) == Meter(0, false)
  {
  }

  /** What the upload posts: the base64 payload (possibly absent) and the sender. */
  datatype UploadPost = UploadPost(base64: Option<string>, email: string)

  /** The upload component, its state held in fields that the handlers update in place. */
  class UploadImage {
    const user: Option<Identity>
    /** Whether the parent passed an `onSuccess` callback. */
    const hasOnSuccess: bool

    var image: Option<File>
    var preview: Option<string>
    var isUploading: bool
    var uploadProgress: int
    var intervalRunning: bool
    var isDialogOpen: bool
    var pendingSuccessTimers: nat
    var successCallbacks: nat
    var posts: seq<UploadPost>

    function ProgressMeter(): Meter
      reads this
    {
      Meter(uploadProgress, intervalRunning)
    }

    /**
     * Only accepted files are ever selected and the preview shows the selected one;
     * the interval only runs during an upload, during which progress is a multiple
     * of ten no larger than 90.
     */
    ghost predicate Valid()
      reads this
    {
      && (image.Some? ==> ValidateFile(image.value) == Accepted)
      && preview == (if image.Some? then Some(image.value.dataUrl) else None)
      && 0 <= uploadProgress <= 100
      && (intervalRunning ==> isUploading)
      && (isUploading ==> uploadProgress <= 90 && uploadProgress % 10 == 0)
    }

    constructor (user: Option<Identity>, hasOnSuccess: bool)
      ensures Valid()
      ensures this.user == user && this.hasOnSuccess == hasOnSuccess
      ensures image.None? && !isUploading && uploadProgress == 0 && !isDialogOpen
      ensures pendingSuccessTimers == 0 && successCallbacks == 0 && posts == []
    {
      this.user := user;
      this.hasOnSuccess := hasOnSuccess;
      image, preview, isUploading, uploadProgress := None, None, false, 0;
      intervalRunning, isDialogOpen := false, false;
      pendingSuccessTimers, successCallbacks, posts := 0, 0, [];
    }

    /** `handleFileSelect`: a refused file changes nothing; an accepted one becomes the selection. */
    method HandleFileSelect(file: File)
      requires Valid()
      modifies this`image, this`preview
      ensures Valid()
      ensures ValidateFile(file) != Accepted ==> image == old(image) && preview == old(preview)
      ensures ValidateFile(file) == Accepted ==> image == Some(file) && preview == Some(file.dataUrl)
    {
      if ValidateFile(file) != Accepted {
        return;
      }
      image := Some(file);
      preview := Some(file.dataUrl);
    }

    /** `handleFileChange`: the first picked file is offered for selection and the dialog opens. */
    method HandleFileChange(files: seq<File>)
      requires Valid()
      modifies this`image, this`preview, this`isDialogOpen
      ensures Valid()
      ensures files == [] ==> image == old(image) && preview == old(preview) && isDialogOpen == old(isDialogOpen)
      ensures files != [] ==> isDialogOpen
      ensures files != [] && ValidateFile(files[0]) != Accepted ==> image == old(image) && preview == old(preview)
      ensures files != [] && ValidateFile(files[0]) == Accepted ==> image == Some(files[0])
    {
      if |files| > 0 {
        HandleFileSelect(files[0]);
        isDialogOpen := true;
      }
    }

    /** `handleDrop`: as picking; only the first dropped file counts, and the dialog opens. */
    method HandleDrop(files: seq<File>)
      requires Valid()
      modifies this`image, this`preview, this`isDialogOpen
      ensures Valid()
      ensures files == [] ==> image == old(image) && preview == old(preview) && isDialogOpen == old(isDialogOpen)
      ensures files != [] ==> isDialogOpen
      ensures files != [] && ValidateFile(files[0]) != Accepted ==> image == old(image) && preview == old(preview)
      ensures files != [] && ValidateFile(files[0]) == Accepted ==> image == Some(files[0])
    {
      if |files| > 0 {
        var first := files[0];
        HandleFileSelect(first);
        isDialogOpen := true;
      }
    }

    /**
     * `handleUpload` up to the post: nothing without an image or a user; otherwise the
     * payload after the data URL's comma is posted, uploading starts at 0 and the interval runs.
     */
    method StartUpload()
      requires Valid() && !isUploading
      modifies this`isUploading, this`uploadProgress, this`intervalRunning, this`posts
      ensures Valid()
      ensures image.None? || user.None? ==>
        posts == old(posts) && !isUploading && ProgressMeter() == old(ProgressMeter())
      ensures image.Some? && user.Some? ==>
        && posts == old(posts) + [UploadPost(Base64Payload(image.value.dataUrl), user.value.email)]
        && isUploading && ProgressMeter() == Meter(0, true)
    {
      if image.None? || user.None? {
        return;
      }
      var base64 := Base64Payload(image.value.dataUrl);
      isUploading := true;
      uploadProgress := 0;
      intervalRunning := true;
      posts := posts + [UploadPost(base64, user.value.email)];
    }

    /** One firing of the progress interval. */
    method IntervalFires()
      requires Valid() && intervalRunning
      modifies this`uploadProgress, this`intervalRunning
      ensures Valid()
      ensures ProgressMeter() == Fire(old(ProgressMeter())) && uploadProgress <= 90
    {
      var prev := uploadProgress;
      if prev >= 90 {
        intervalRunning := false;
      }
      uploadProgress := Tick(prev);
    }

    /** The post succeeded: the interval stops, 100 is shown and the clean-up timer is set. */
    method UploadSucceeded()
      requires Valid() && isUploading
      modifies this`uploadProgress, this`intervalRunning, this`isUploading, this`pendingSuccessTimers
      ensures Valid()
      ensures ProgressMeter() == SettleSuccess(old(ProgressMeter())) && uploadProgress == 100
      ensures !isUploading && pendingSuccessTimers == old(pendingSuccessTimers) + 1
    {
      intervalRunning := false;
      uploadProgress := 100;
      pendingSuccessTimers := pendingSuccessTimers + 1;
      isUploading := false;
    }

    /** The post failed: progress is reset and the interval stopped; the image stays selected. */
    method UploadFailed()
      requires Valid() && isUploading
      modifies this`uploadProgress, this`intervalRunning, this`isUploading
      ensures Valid()
      ensures ProgressMeter() == SettleFailure(old(ProgressMeter())) && uploadProgress == 0
      ensures !isUploading
    {
      intervalRunning := false;
      uploadProgress := 0;
      isUploading := false;
    }

    /** The clean-up timer after a success: selection cleared, dialog closed, `onSuccess` called once. */
    method SuccessTimerFires()
      requires Valid() && pendingSuccessTimers > 0
      modifies this`image, this`preview, this`uploadProgress, this`isDialogOpen,
               this`successCallbacks, this`pendingSuccessTimers
      ensures Valid()
      ensures image.None? && preview.None? && uploadProgress == 0 && !isDialogOpen
      ensures successCallbacks == old(successCallbacks) + (if hasOnSuccess then 1 else 0)
      ensures pendingSuccessTimers == old(pendingSuccessTimers) - 1
    {
      pendingSuccessTimers := pendingSuccessTimers - 1;
      image := None;
      preview := None;
      uploadProgress := 0;
      isDialogOpen := false;
      if hasOnSuccess {
        successCallbacks := successCallbacks + 1;
      }
    }

    /** `clearSelection`: no image, no preview, dialog closed. */
    method ClearSelection()
      requires Valid()
      modifies this`image, this`preview, this`isDialogOpen
      ensures Valid()
      ensures image.None? && preview.None? && !isDialogOpen
    {
      image := None;
      preview := None;
      isDialogOpen := false;
    }

    /** The dialog's own open/close control. */
    method SetDialogOpen(open: bool)
      requires Valid()
      modifies this`isDialogOpen
      ensures Valid() && isDialogOpen == open
    {
      isDialogOpen := open;
    }
  }

  /**
   * Pick a valid image and let its upload fail: the image is still selected, so the
   * user can retry, and the meter is back at 0 with no interval running.
   */
  method FailedUploadKeepsSelection(file: File, sender: Identity) returns (kept: bool, progress: int, postCount: nat)
    requires ValidateFile(file) == Accepted
    ensures kept && progress == 0 && postCount == 1
  {
    var u := new UploadImage(Some(sender), true);
    u.HandleFileChange([file]);
    u.StartUpload();
    u.IntervalFires();
    u.UploadFailed();
    kept := u.image == Some(file) && !u.isUploading && !u.intervalRunning;
    progress := u.uploadProgress;
    postCount := |u.posts|;
  }

  /**
   * Pick a valid image and upload it successfully: once the clean-up timer fires the
   * selection is gone, the dialog is closed and `onSuccess` has run exactly once.
   */
  method SuccessfulUploadClearsSelection(file: File, sender: Identity) returns (cleared: bool, callbacks: nat)
    requires ValidateFile(file) == Accepted
    ensures cleared && callbacks == 1
  {
    var u := new UploadImage(Some(sender), true);
    u.HandleFileChange([file]);
    u.StartUpload();
    u.UploadSucceeded();
    u.SuccessTimerFires();
    cleared := u.image.None? && u.preview.None? && !u.isDialogOpen && u.uploadProgress == 0;
    callbacks := u.successCallbacks;
  }
}
