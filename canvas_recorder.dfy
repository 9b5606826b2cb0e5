/** The `useCanvasRecorder` hook: the captured canvas, the recording flag, the
    recorded chunks and the current `MediaRecorder`. The recorder's
    `ondataavailable` and `onstop` callbacks are methods the browser calls. */
module CanvasRecorder {
  import opened Browser
  import opened Recording

  /** The toast each start attempt ends with. */
  datatype StartReport = RecordingStarted | CanvasNotInitialized | FailedToStart

  /** The toast each download attempt ends with, with the file when there is one. */
  datatype DownloadReport = DownloadStarted(file: Download) | NoRecordedVideo

  const FileName: string := "zhonk-vision-processed.mp4"

  class CanvasRecorder {
    /** `canvasRef.current` */
    var canvas: Option<Handle>
    var isRecording: bool
    var recordedChunks: seq<Blob>
    /** `mediaRecorderRef.current` */
    var recorder: Option<RecorderId>
    var recordersCreated: nat
    /** Recorders asked to `stop()`, in order. */
    ghost var stopRequests: seq<RecorderId>
    /** Object URLs created for downloads, and those revoked. */
    ghost var downloadUrls: seq<string>
    ghost var revokedUrls: seq<string>

    /** Every stored chunk is non-empty, every download URL has been revoked,
        and the current recorder is one that was created. */
    ghost predicate Valid()
      reads this
    {
      && AllNonEmpty(recordedChunks)
      && revokedUrls == downloadUrls
      && (recorder.Some? ==> recorder.value < recordersCreated)
    }

    constructor ()
      ensures Valid()
      ensures canvas == None && !isRecording && recordedChunks == [] && recorder == None
      ensures stopRequests == [] && downloadUrls == []
    {
      canvas := None;
      isRecording := false;
      recordedChunks := [];
      recorder := None;
      recordersCreated := 0;
      stopRequests := [];
      downloadUrls, revokedUrls := [], [];
    }

    method HandleCanvasCapture(c: Option<Handle>)
      requires Valid()
      modifies this
      ensures Valid()
      ensures canvas == c
      ensures isRecording == old(isRecording) && recordedChunks == old(recordedChunks)
      ensures recorder == old(recorder) && recordersCreated == old(recordersCreated)
    {
      canvas := c;
    }

    /** Without a canvas nothing changes. Otherwise a recorder is built and
        started; `isRecording` is set only once `start()` has returned, and the
        chunks of earlier sessions are kept. */
    method HandleStartRecording(fault: StartFault) returns (report: StartReport)
      requires Valid()
      modifies this
      ensures Valid()
      ensures old(canvas).None? ==> report == CanvasNotInitialized
      ensures old(canvas).Some? ==> report == (if fault == NoFault then RecordingStarted else FailedToStart)
      ensures isRecording == (old(isRecording) || report == RecordingStarted)
      ensures recordedChunks == old(recordedChunks) && canvas == old(canvas)
      ensures old(canvas).Some? && (fault == NoFault || fault == StartThrows)
        ==> recorder == Some(old(recordersCreated)) && recordersCreated == old(recordersCreated) + 1
      ensures old(canvas).None? || fault == CaptureStreamThrows || fault == ConstructorThrows
        ==> recorder == old(recorder) && recordersCreated == old(recordersCreated)
      ensures stopRequests == old(stopRequests) && downloadUrls == old(downloadUrls)
    {
      if canvas.None? {
        return CanvasNotInitialized;
      }
      if fault == CaptureStreamThrows || fault == ConstructorThrows {
        return FailedToStart;
      }
      recorder := Some(recordersCreated);
      recordersCreated := recordersCreated + 1;
      if fault == StartThrows {
        return FailedToStart;
      }
      isRecording := true;
      report := RecordingStarted;
    }

    /** `ondataavailable` of a recorder this hook created. */
    method OnDataAvailable(data: Option<Blob>)
      requires Valid()
      modifies this
      ensures Valid()
      ensures recordedChunks == AppendData(old(recordedChunks), data)
      ensures isRecording == old(isRecording) && canvas == old(canvas)
      ensures recorder == old(recorder) && recordersCreated == old(recordersCreated)
    {
      recordedChunks := AppendData(recordedChunks, data);
    }

    /** `onstop`: the only place recording is switched off. */
    method OnStop()
      requires Valid()
      modifies this
      ensures Valid()
      ensures !isRecording
      ensures recordedChunks == old(recordedChunks) && canvas == old(canvas)
      ensures recorder == old(recorder) && recordersCreated == old(recordersCreated)
    {
      isRecording := false;
    }

    /** Asks the recorder to stop only when one exists and recording is on;
        `isRecording` is left for `onstop` to clear. */
    method HandleStopRecording() returns (requested: bool)
      requires Valid()
      modifies this
      ensures Valid()
      ensures requested == (old(recorder).Some? && old(isRecording))
      ensures stopRequests == old(stopRequests) + (if requested then [old(recorder).value] else [])
      ensures isRecording == old(isRecording) && recordedChunks == old(recordedChunks)
      ensures recorder == old(recorder) && canvas == old(canvas)
    {
      requested := recorder.Some? && isRecording;
      if requested {
        stopRequests := stopRequests + [recorder.value];
      }
    }

    /** With no chunks: an error and no object URL. Otherwise one file with all
        chunks in order, whose object URL is revoked in the same call. The
        chunks are kept, so a repeated download gives the same file. */
    method HandleDownloadVideo(url: string) returns (report: DownloadReport)
      requires Valid()
      modifies this
      ensures Valid()
      ensures old(recordedChunks) == [] ==> report == NoRecordedVideo && downloadUrls == old(downloadUrls)
      ensures old(recordedChunks) != [] ==>
        report == DownloadStarted(DownloadOf(old(recordedChunks), FileName).value) &&
        downloadUrls == old(downloadUrls) + [url]
      ensures recordedChunks == old(recordedChunks) && isRecording == old(isRecording)
      ensures recorder == old(recorder) && canvas == old(canvas)
    {
      var file := DownloadOf(recordedChunks, FileName);
      if file.None? {
        return NoRecordedVideo;
      }
      downloadUrls := downloadUrls + [url];
      revokedUrls := revokedUrls + [url];
      report := DownloadStarted(file.value);
    }
  }

  /** A second session appends to the first: after recording `a`, stopping and
      recording `b`, the download holds `a` followed by `b`. */
  method SessionsAccumulate(canvasHandle: Handle, a: Blob, b: Blob) returns (report: DownloadReport)
    requires |a| > 0 && |b| > 0
    ensures report == DownloadStarted(Download(a + b, FileName))
  {
    var hook := new CanvasRecorder();
    hook.HandleCanvasCapture(Some(canvasHandle));
    var started := hook.HandleStartRecording(NoFault);
    hook.OnDataAvailable(Some(a));
    var stopped := hook.HandleStopRecording();
    hook.OnStop();
    started := hook.HandleStartRecording(NoFault);
    hook.OnDataAvailable(Some(b));
    assert hook.recordedChunks == [a, b];
    ConcatAppend([a], b);
    assert Concat([a]) == a by { assert [a][..0] == []; }
    report := hook.HandleDownloadVideo("blob:download");
  }
}
