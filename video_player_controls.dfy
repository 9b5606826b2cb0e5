/** `VideoPlayerControls`: the canvas recorder without toasts. The canvas ref
    is a prop, so each start takes its current value. */
module VideoPlayerControls {
  import opened Browser
  import opened Recording

  const FileName: string := "zhonk-vision-processed.mp4"

  class VideoPlayerControls {
    var isRecording: bool
    var recordedChunks: seq<Blob>
    var recorder: Option<RecorderId>
    var recordersCreated: nat
    ghost var stopRequests: seq<RecorderId>
    ghost var downloadUrls: seq<string>
    ghost var revokedUrls: seq<string>

    ghost predicate Valid()
      reads this
    {
      && AllNonEmpty(recordedChunks)
      && revokedUrls == downloadUrls
      && (recorder.Some? ==> recorder.value < recordersCreated)
    }

    constructor ()
      ensures Valid()
      ensures !isRecording && recordedChunks == [] && recorder == None
      ensures stopRequests == [] && downloadUrls == []
    {
      isRecording := false;
      recordedChunks := [];
      recorder := None;
      recordersCreated := 0;
      stopRequests := [];
      downloadUrls, revokedUrls := [], [];
    }

    /** The `canDownload` flag the component returns. */
    function CanDownload(): (b: bool)
      reads this
      ensures b <==> DownloadOf(recordedChunks, FileName).Some?
    {
      |recordedChunks| > 0
    }

    /** Silent without a canvas; an exception while starting is caught and
        leaves `isRecording` as it was. Chunks are never reset. */
    method HandleStartRecording(canvas: Option<Handle>, fault: StartFault)
      requires Valid()
      modifies this
      ensures Valid()
      ensures isRecording == (old(isRecording) || (canvas.Some? && fault == NoFault))
      ensures recordedChunks == old(recordedChunks)
      ensures canvas.Some? && (fault == NoFault || fault == StartThrows)
        ==> recorder == Some(old(recordersCreated)) && recordersCreated == old(recordersCreated) + 1
      ensures canvas.None? || fault == CaptureStreamThrows || fault == ConstructorThrows
        ==> recorder == old(recorder) && recordersCreated == old(recordersCreated)
      ensures stopRequests == old(stopRequests) && downloadUrls == old(downloadUrls)
    {
      if canvas.None? {
        return;
      }
      if fault == CaptureStreamThrows || fault == ConstructorThrows {
        return;
      }
      recorder := Some(recordersCreated);
      recordersCreated := recordersCreated + 1;
      if fault == StartThrows {
        return;
      }
      isRecording := true;
    }

    method OnDataAvailable(data: Option<Blob>)
      requires Valid()
      modifies this
      ensures Valid()
      ensures recordedChunks == AppendData(old(recordedChunks), data)
      ensures isRecording == old(isRecording) && recorder == old(recorder)
    {
      recordedChunks := AppendData(recordedChunks, data);
    }

    method OnStop()
      requires Valid()
      modifies this
      ensures Valid()
      ensures !isRecording
      ensures recordedChunks == old(recordedChunks) && recorder == old(recorder)
    {
      isRecording := false;
    }

    method HandleStopRecording() returns (requested: bool)
      requires Valid()
      modifies this
      ensures Valid()
      ensures requested == (old(recorder).Some? && old(isRecording))
      ensures stopRequests == old(stopRequests) + (if requested then [old(recorder).value] else [])
      ensures isRecording == old(isRecording) && recordedChunks == old(recordedChunks)
      ensures recorder == old(recorder)
    {
      requested := recorder.Some? && isRecording;
      if requested {
        stopRequests := stopRequests + [recorder.value];
      }
    }

    /** Does nothing without chunks; otherwise one file with every chunk in
        order, its object URL revoked in the same call. */
    method HandleDownloadVideo(url: string) returns (file: Option<Download>)
      requires Valid()
      modifies this
      ensures Valid()
      ensures file == DownloadOf(old(recordedChunks), FileName)
      ensures downloadUrls == old(downloadUrls) + (if file.Some? then [url] else [])
      ensures recordedChunks == old(recordedChunks) && isRecording == old(isRecording)
      ensures recorder == old(recorder)
    {
      file := DownloadOf(recordedChunks, FileName);
      if file.Some? {
        downloadUrls := downloadUrls + [url];
        revokedUrls := revokedUrls + [url];
      }
    }
  }

  /** An empty chunk leaves download unavailable; a non-empty one makes it available. */
  method EmptyChunkNotDownloadable(canvasHandle: Handle, data: Blob) returns (before: bool, after: bool)
    requires |data| > 0
    ensures !before && after
  {
    var controls := new VideoPlayerControls();
    controls.HandleStartRecording(Some(canvasHandle), NoFault);
    controls.OnDataAvailable(Some([]));
    before := controls.CanDownload();
    controls.OnDataAvailable(Some(data));
    after := controls.CanDownload();
  }
}
