/** `VideoUploader`: file selection, a recorder without `onstop` that clears
    its flag in `stopCapture`, and the button guards of its markup. */
module VideoUploader {
  import opened Browser
  import opened Recording

  const FileName: string := "kinect-processed-video.webm"

  /** Which of the recording buttons are rendered. */
  datatype Buttons = Buttons(record: bool, stop: bool, download: bool)

  class VideoUploader {
    var videoFile: Option<Handle>
    var videoUrl: Option<string>
    var isRecording: bool
    var recordedChunks: seq<Blob>
    var recorder: Option<RecorderId>
    var recordersCreated: nat
    ghost var stopRequests: seq<RecorderId>
    /** Object URLs created for uploads (never revoked here). */
    ghost var uploadUrls: seq<string>
    ghost var downloadUrls: seq<string>
    ghost var revokedUrls: seq<string>

    ghost predicate Valid()
      reads this
    {
      && AllNonEmpty(recordedChunks)
      && revokedUrls == downloadUrls
      && (recorder.Some? ==> recorder.value < recordersCreated)
      && (videoUrl.Some? ==> |uploadUrls| > 0 && videoUrl.value == uploadUrls[|uploadUrls| - 1])
    }

    constructor ()
      ensures Valid()
      ensures videoFile == None && videoUrl == None && !isRecording
      ensures recordedChunks == [] && recorder == None
      ensures stopRequests == [] && uploadUrls == [] && downloadUrls == []
    {
      videoFile := None;
      videoUrl := None;
      isRecording := false;
      recordedChunks := [];
      recorder := None;
      recordersCreated := 0;
      stopRequests := [];
      uploadUrls, downloadUrls, revokedUrls := [], [], [];
    }

    /** The buttons rendered: recording controls only once a video is chosen,
        record or stop depending on the flag, download only with chunks. */
    function VisibleButtons(): (b: Buttons)
      reads this
      ensures b.record || b.stop || b.download ==> Truthy(videoUrl)
      ensures !(b.record && b.stop)
      ensures Truthy(videoUrl) ==> b.record || b.stop
      ensures b.stop <==> Truthy(videoUrl) && isRecording
      ensures b.download <==> Truthy(videoUrl) && DownloadOf(recordedChunks, FileName).Some?
    {
      var shown := Truthy(videoUrl);
      Buttons(shown && !isRecording, shown && isRecording, shown && |recordedChunks| > 0)
    }

    /** A change event without a file changes nothing. With a file, the new
        object URL becomes `videoUrl`, is passed to `onVideoChange`, and the
        recorded chunks are dropped; the previous URL is not revoked. */
    method HandleFileChange(file: Option<Handle>, objectUrl: string) returns (notified: Option<string>)
      requires Valid()
      requires IsBlobUrl(objectUrl)
      modifies this
      ensures Valid()
      ensures file.None? ==>
        (notified == None && videoUrl == old(videoUrl) && videoFile == old(videoFile) &&
         recordedChunks == old(recordedChunks) && uploadUrls == old(uploadUrls))
      ensures file.Some? ==>
        (notified == Some(objectUrl) && videoUrl == Some(objectUrl) && videoFile == file &&
         recordedChunks == [] && uploadUrls == old(uploadUrls) + [objectUrl])
      ensures revokedUrls == old(revokedUrls) && downloadUrls == old(downloadUrls)
      ensures isRecording == old(isRecording) && recorder == old(recorder)
    {
      notified := None;
      if file.Some? {
        videoFile := file;
        uploadUrls := uploadUrls + [objectUrl];
        videoUrl := Some(objectUrl);
        notified := Some(objectUrl);
        recordedChunks := [];
      }
    }

    /** No canvas: returns without changes. Otherwise there is no `try`, so a
        throwing step aborts the handler; `isRecording` is set only after
        `start()`. Chunks are not reset. */
    method StartCapture(canvas: Option<Handle>, fault: StartFault) returns (completed: bool)
      requires Valid()
      modifies this
      ensures Valid()
      ensures completed == (canvas.Some? && fault == NoFault)
      ensures isRecording == (old(isRecording) || completed)
      ensures recordedChunks == old(recordedChunks) && videoUrl == old(videoUrl)
      ensures canvas.Some? && (fault == NoFault || fault == StartThrows)
        ==> recorder == Some(old(recordersCreated)) && recordersCreated == old(recordersCreated) + 1
      ensures canvas.None? || fault == CaptureStreamThrows || fault == ConstructorThrows
        ==> recorder == old(recorder) && recordersCreated == old(recordersCreated)
      ensures stopRequests == old(stopRequests) && downloadUrls == old(downloadUrls)
      ensures uploadUrls == old(uploadUrls)
    {
      completed := false;
      if canvas.None? {
        return;
      }
      if fault == CaptureStreamThrows || fault == ConstructorThrows {
        return;
      }
      recorder := Some(recordersCreated);
      recordersCreated := recordersCreated + 1;
      if fault == StartThrows {
        return;
      }
      isRecording := true;
      completed := true;
    }

    method OnDataAvailable(data: Option<Blob>)
      requires Valid()
      modifies this
      ensures Valid()
      ensures recordedChunks == AppendData(old(recordedChunks), data)
      ensures isRecording == old(isRecording) && recorder == old(recorder) && videoUrl == old(videoUrl)
      ensures uploadUrls == old(uploadUrls) && downloadUrls == old(downloadUrls)
    {
      recordedChunks := AppendData(recordedChunks, data);
    }

    /** Stops only with a recorder and the flag on, and clears the flag at once. */
    method StopCapture() returns (requested: bool)
      requires Valid()
      modifies this
      ensures Valid()
      ensures requested == (old(recorder).Some? && old(isRecording))
      ensures stopRequests == old(stopRequests) + (if requested then [old(recorder).value] else [])
      ensures isRecording == (old(isRecording) && !requested)
      ensures recordedChunks == old(recordedChunks) && recorder == old(recorder) && videoUrl == old(videoUrl)
      ensures uploadUrls == old(uploadUrls) && downloadUrls == old(downloadUrls)
    {
      requested := recorder.Some? && isRecording;
      if requested {
        stopRequests := stopRequests + [recorder.value];
        isRecording := false;
      }
    }

    method DownloadVideo(url: string) returns (file: Option<Download>)
      requires Valid()
      modifies this
      ensures Valid()
      ensures file == DownloadOf(old(recordedChunks), FileName)
      ensures downloadUrls == old(downloadUrls) + (if file.Some? then [url] else [])
      ensures recordedChunks == old(recordedChunks) && isRecording == old(isRecording)
      ensures recorder == old(recorder) && videoUrl == old(videoUrl) && uploadUrls == old(uploadUrls)
    {
      file := DownloadOf(recordedChunks, FileName);
      if file.Some? {
        downloadUrls := downloadUrls + [url];
        revokedUrls := revokedUrls + [url];
      }
    }
  }

  /** Uploading a second file drops the chunks recorded for the first and keeps
      both object URLs unrevoked. */
  method SecondUploadResetsChunks(canvasHandle: Handle, first: string, second: string, data: Blob)
    returns (canDownload: bool, ghost unrevoked: seq<string>)
    requires IsBlobUrl(first) && IsBlobUrl(second) && |data| > 0
    ensures !canDownload && unrevoked == [first, second]
  {
    var uploader := new VideoUploader();
    var n := uploader.HandleFileChange(Some(0), first);
    var ok := uploader.StartCapture(Some(canvasHandle), NoFault);
    uploader.OnDataAvailable(Some(data));
    var stopped := uploader.StopCapture();
    n := uploader.HandleFileChange(Some(1), second);
    canDownload := uploader.VisibleButtons().download;
    assert uploader.revokedUrls == [];
    unrevoked := uploader.uploadUrls;
  }
}
