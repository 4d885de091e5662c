/**
 * The YouTube upload form (`YouTubeUpload` in YouTubeUpload.tsx): the video
 * type and size checks, the title check, the guard order of the upload
 * handler and the simulated progress bar.  The checks are functions; the
 * component's state is a class whose methods mirror the handlers.  The
 * 300 ms progress interval is driven by a tick count: how many times it
 * fires before the upload's 3000 ms wait ends.
 */
module YouTubeUpload {
  import opened Wrappers
  import opened Text

  const MAX_VIDEO_BYTES := 1024 * 1024 * 1024
  const MAX_TITLE_LENGTH := 100
  const PROGRESS_STEP := 10

  datatype Video = Video(name: string, mime: string, size: nat)

  predicate AllowedType(mime: string) {
    mime == "video/mp4" || mime == "video/quicktime"
  }

  /** The message `handleFileChange` leaves for a chosen file; empty when the file is accepted. */
  function VideoError(v: Video): (r: string)
    ensures r == "" <==> AllowedType(v.mime) && v.size <= MAX_VIDEO_BYTES
    ensures !AllowedType(v.mime) ==> r == "Please upload an MP4 or MOV file"
    ensures AllowedType(v.mime) && v.size > MAX_VIDEO_BYTES ==> r == "File size must be less than 1GB"
  {
    if !AllowedType(v.mime) then "Please upload an MP4 or MOV file"
    else if v.size > MAX_VIDEO_BYTES then "File size must be less than 1GB"
    else ""
  }

  /**
   * `validateForm`'s condition: the title is not blank after trimming and
   * the untrimmed title has at most 100 characters.
   */
  function TitleValid(title: string): (r: bool)
    ensures r <==> (exists i | 0 <= i < |title| :: !IsSpace(title[i])) && |title| <= MAX_TITLE_LENGTH
  {
    TrimEmptyIffAllSpace(title);
    Trim(title) != "" && |title| <= MAX_TITLE_LENGTH
  }

  const TitleMessage := "Title is required and must be less than 100 characters"

  /**
   * The interval's updater: the bar is clamped at 100, strictly climbs
   * below it and rests on it; from a multiple of 10 within [0, 100] it
   * stays a multiple of 10 within [0, 100].
   */
  function ProgressStep(prev: int): (r: int)
    ensures prev >= 100 ==> r == 100
    ensures prev <= 100 ==> prev <= r && (r == prev <==> prev == 100)
    ensures 0 <= prev <= 100 && prev % PROGRESS_STEP == 0 ==> r <= 100 && r % PROGRESS_STEP == 0
  {
    if prev >= 100 then 100 else prev + PROGRESS_STEP
  }

  /** The progress after `n` updates from 0. */
  function ProgressAfter(n: nat): int {
    if n == 0 then 0 else ProgressStep(ProgressAfter(n - 1))
  }

  /** From 0 the bar climbs by 10 to 100 and stays there: it never leaves [0, 100]. */
  lemma {:induction false} ProgressFromZero(n: nat)
    ensures ProgressAfter(n) == if PROGRESS_STEP * n < 100 then PROGRESS_STEP * n else 100
    ensures 0 <= ProgressAfter(n) <= 100
  {
    if n > 0 {
      ProgressFromZero(n - 1);
    }
  }

  /** The first check that stopped an upload, or its success. */
  datatype Outcome = NotAuthenticated | NoFile | InvalidTitle | Uploaded

  class Form {
    var authenticated: bool
    var videoFile: Option<Video>
    var title: string
    var fileError: string
    var titleError: string
    var uploading: bool
    var uploadProgress: int

    constructor()
      ensures !authenticated && videoFile == None && title == ""
      ensures fileError == "" && titleError == "" && !uploading && uploadProgress == 0
    {
      authenticated, videoFile, title := false, None, "";
      fileError, titleError, uploading, uploadProgress := "", "", false, 0;
    }

    /** The mock OAuth flow, which always succeeds. */
    method Authenticate()
      modifies this
      ensures authenticated
      ensures videoFile == old(videoFile) && title == old(title) && fileError == old(fileError)
      ensures titleError == old(titleError) && uploading == old(uploading) && uploadProgress == old(uploadProgress)
    {
      authenticated := true;
    }

    method SetTitle(t: string)
      modifies this
      ensures title == t
      ensures authenticated == old(authenticated) && videoFile == old(videoFile) && fileError == old(fileError)
      ensures titleError == old(titleError) && uploading == old(uploading) && uploadProgress == old(uploadProgress)
    {
      title := t;
    }

    /**
     * `handleFileChange`: no file changes nothing; a rejected file sets
     * the message and clears the selection; an accepted one clears the
     * message and is selected.
     */
    method FileChanged(chosen: Option<Video>)
      modifies this
      ensures chosen.None? ==> videoFile == old(videoFile) && fileError == old(fileError)
      ensures chosen.Some? ==> fileError == VideoError(chosen.value)
      ensures chosen.Some? ==> videoFile == if VideoError(chosen.value) == "" then chosen else None
      ensures authenticated == old(authenticated) && title == old(title)
      ensures titleError == old(titleError) && uploading == old(uploading) && uploadProgress == old(uploadProgress)
    {
      if chosen.Some? {
        var message := VideoError(chosen.value);
        fileError := message;
        videoFile := if message == "" then chosen else None;
      }
    }

    /** `validateForm`: sets or clears the title message. */
    method ValidateForm() returns (ok: bool)
      modifies this
      ensures ok == TitleValid(title)
      ensures titleError == if ok then "" else TitleMessage
      ensures authenticated == old(authenticated) && videoFile == old(videoFile) && title == old(title)
      ensures fileError == old(fileError) && uploading == old(uploading) && uploadProgress == old(uploadProgress)
    {
      ok := TitleValid(title);
      titleError := if ok then "" else TitleMessage;
    }

    /**
     * One firing of the progress interval: the updater runs, and the
     * interval clears itself when the bar was already at 100.
     */
    method Tick() returns (cleared: bool)
      modifies this
      ensures cleared <==> old(uploadProgress) >= 100
      ensures uploadProgress == ProgressStep(old(uploadProgress))
      ensures authenticated == old(authenticated) && videoFile == old(videoFile) && title == old(title)
      ensures fileError == old(fileError) && titleError == old(titleError) && uploading == old(uploading)
    {
      cleared := uploadProgress >= 100;
      uploadProgress := ProgressStep(uploadProgress);
    }

    /**
     * The interval from a bar at 0: it fires `ticks` times or until it
     * clears itself, the eleventh firing; `observed` is the bar after each.
     */
    method RunInterval(ticks: nat) returns (observed: seq<int>)
      requires uploadProgress == 0
      modifies this
      ensures |observed| == (if ticks <= 11 then ticks else 11)
      ensures forall i | 0 <= i < |observed| :: observed[i] == ProgressAfter(i + 1) && 0 <= observed[i] <= 100
      ensures uploadProgress == ProgressAfter(|observed|)
      ensures authenticated == old(authenticated) && videoFile == old(videoFile) && title == old(title)
      ensures fileError == old(fileError) && titleError == old(titleError) && uploading == old(uploading)
    {
      observed := [];
      var i := 0;
      var cleared := false;
      while i < ticks && !cleared
        invariant 0 <= i <= ticks && i <= 11
        invariant uploadProgress == ProgressAfter(i)
        invariant cleared <==> i == 11
        invariant |observed| == i
        invariant forall k | 0 <= k < i :: observed[k] == ProgressAfter(k + 1) && 0 <= observed[k] <= 100
        invariant authenticated == old(authenticated) && videoFile == old(videoFile) && title == old(title)
        invariant fileError == old(fileError) && titleError == old(titleError) && uploading == old(uploading)
      {
        ProgressFromZero(i);
        ProgressFromZero(i + 1);
        cleared := Tick();
        observed := observed + [uploadProgress];
        i := i + 1;
      }
    }

    /**
     * `handleUpload`: authentication, then the selected file, then the
     * title; the first failure returns before `uploading` is set.  On
     * success the interval updates the bar `ticks` times or until it
     * clears itself (the update after 100), the bar is then forced to 100
     * and `uploading` is reset.  `observed` is the bar after each update.
     */
    method Upload(ticks: nat) returns (outcome: Outcome, observed: seq<int>)
      modifies this
      ensures !old(authenticated) ==> outcome == NotAuthenticated && observed == []
      ensures old(authenticated) && old(videoFile).None? ==> outcome == NoFile && fileError == "Please select a video file"
      ensures old(authenticated) && old(videoFile).Some? && !TitleValid(title) ==>
                outcome == InvalidTitle && titleError == TitleMessage
      ensures outcome != Uploaded ==> observed == [] && uploading == old(uploading) && uploadProgress == old(uploadProgress)
      ensures outcome != NoFile ==> fileError == old(fileError)
      ensures outcome == NotAuthenticated || outcome == NoFile ==> titleError == old(titleError)
      ensures outcome == Uploaded <==> old(authenticated) && old(videoFile).Some? && TitleValid(title)
      ensures outcome == Uploaded ==>
                && titleError == "" && uploadProgress == 100 && !uploading
                && |observed| == (if ticks <= 11 then ticks else 11)
                && forall i | 0 <= i < |observed| :: observed[i] == ProgressAfter(i + 1) && 0 <= observed[i] <= 100
      ensures authenticated == old(authenticated) && title == old(title) && videoFile == old(videoFile)
    {
      observed := [];
      if !authenticated {
        return NotAuthenticated, [];
      }
      if videoFile.None? {
        fileError := "Please select a video file";
        return NoFile, [];
      }
      var ok := ValidateForm();
      if !ok {
        return InvalidTitle, [];
      }
      uploading := true;
      uploadProgress := 0;
      observed := RunInterval(ticks);
      uploadProgress := 100;
      uploading := false;
      outcome := Uploaded;
    }
  }
}
