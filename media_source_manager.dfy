/** The `MediaSourceManager` component, an earlier copy of the media-source
    state machine: the same four state fields and handlers, with the webcam
    element ref passed in as a prop rather than owned. */
module MediaSourceManager {
  import opened Browser
  import opened MediaSource

  class MediaSourceManager {
    var videoUrl: Option<string>
    var isWebcamActive: bool
    var defaultVideoActive: bool
    var useShaderEffect: bool
    /** `webcamVideoRef.current` of the ref object passed in as a prop */
    var webcamVideoRef: Option<Handle>
    /** URLs passed to `URL.revokeObjectURL`, in call order. */
    ghost var revoked: seq<string>

    function State(): MediaState
      reads this
    {
      MediaState(videoUrl, isWebcamActive, defaultVideoActive, useShaderEffect)
    }

    /** What every handler keeps: with the webcam off the default flag is set,
        and only blob URLs have been revoked. */
    ghost predicate Valid()
      reads this
    {
      Consistent(State()) && forall u :: u in revoked ==> IsBlobUrl(u)
    }

    constructor (webcamRef: Option<Handle>)
      ensures Valid()
      ensures State() == Initial
      ensures webcamVideoRef == webcamRef && revoked == []
    {
      videoUrl := None;
      isWebcamActive := false;
      defaultVideoActive := true;
      useShaderEffect := true;
      webcamVideoRef := webcamRef;
      revoked := [];
    }

    method HandleVideoChange(url: string)
      requires Valid()
      modifies this
      ensures Valid()
      ensures State() == VideoChange(old(State()), url).next
      ensures revoked == old(revoked) + VideoChange(old(State()), url).revoked
      ensures webcamVideoRef == old(webcamVideoRef)
    {
      if isWebcamActive {
        isWebcamActive := false;
      }
      if Truthy(videoUrl) && IsBlobUrl(videoUrl.value) {
        revoked := revoked + [videoUrl.value];
      }
      videoUrl := Some(url);
      defaultVideoActive := true;
    }

    method HandleToggleWebcam()
      requires Valid()
      modifies this
      ensures Valid()
      ensures State() == ToggleWebcam(old(State())).next
      ensures revoked == old(revoked)
      ensures webcamVideoRef == old(webcamVideoRef)
    {
      if isWebcamActive {
        isWebcamActive := false;
        defaultVideoActive := true;
        videoUrl := None;
      } else {
        defaultVideoActive := false;
        isWebcamActive := true;
      }
    }

    method HandleToggleShaderEffect()
      requires Valid()
      modifies this
      ensures Valid()
      ensures State() == ToggleShaderEffect(old(State())).next
      ensures revoked == old(revoked)
      ensures webcamVideoRef == old(webcamVideoRef)
    {
      useShaderEffect := !useShaderEffect;
    }

    /** Only the ref assignment of `handleWebcamStart`. */
    method HandleWebcamStart(videoElement: Handle)
      requires Valid()
      modifies this
      ensures Valid()
      ensures webcamVideoRef == Some(videoElement)
      ensures State() == old(State()) && revoked == old(revoked)
    {
      webcamVideoRef := Some(videoElement);
    }

    method HandleWebcamStop()
      requires Valid()
      modifies this
      ensures Valid()
      ensures State() == WebcamStop(old(State())).next
      ensures revoked == old(revoked) + WebcamStop(old(State())).revoked
      ensures webcamVideoRef == old(webcamVideoRef)
    {
      if Truthy(videoUrl) && IsBlobUrl(videoUrl.value) {
        revoked := revoked + [videoUrl.value];
      }
      videoUrl := None;
      defaultVideoActive := true;
    }

    /** The effect React runs after a render in which one of its three dependencies changed. */
    method SwitchSourcesEffect()
      requires Valid()
      modifies this
      ensures Valid()
      ensures State() == SwitchEffect(old(State())).next
      ensures revoked == old(revoked) + SwitchEffect(old(State())).revoked
      ensures webcamVideoRef == old(webcamVideoRef)
    {
      if isWebcamActive && Truthy(videoUrl) && defaultVideoActive {
        if IsBlobUrl(videoUrl.value) {
          revoked := revoked + [videoUrl.value];
        }
        defaultVideoActive := false;
      }
    }
  }

  /** Two uploads in a row: the first blob URL is revoked when the second is adopted. */
  method SecondUploadRevokesFirst(first: string, second: string) returns (current: Option<string>, ghost revokedUrls: seq<string>)
    requires IsBlobUrl(first)
    ensures current == Some(second) && revokedUrls == [first]
  {
    var manager := new MediaSourceManager(None);
    manager.HandleVideoChange(first);
    manager.HandleVideoChange(second);
    current, revokedUrls := manager.videoUrl, manager.revoked;
  }
}
