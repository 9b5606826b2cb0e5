/** The `useVisualizerVideo` hook: four state fields, the webcam element ref,
    and the log of URLs handed to `URL.revokeObjectURL`. Each handler is one
    atomic method computing the post-state from the pre-state. */
module VisualizerVideo {
  import opened Browser
  import opened MediaSource

  class VisualizerVideoHook {
    var videoUrl: Option<string>
    var isWebcamActive: bool
    var defaultVideoActive: bool
    var useShaderEffect: bool
    /** `webcamVideoRef.current` */
    var webcamVideoRef: Option<Handle>
    /** URLs passed to `URL.revokeObjectURL`, in call order. */
    ghost var revoked: seq<string>

    function State(): MediaState
      reads this
    {
      MediaState(videoUrl, isWebcamActive, defaultVideoActive, useShaderEffect)
    }

    /** What every handler keeps: with the webcam off the default flag is set,
        and only blob URLs have been revoked. */
    ghost predicate Valid()
      reads this
    {
      Consistent(State()) && forall u :: u in revoked ==> IsBlobUrl(u)
    }

    constructor ()
      ensures Valid()
      ensures State() == Initial
      ensures webcamVideoRef == None && revoked == []
    {
      videoUrl := None;
      isWebcamActive := false;
      defaultVideoActive := true;
      useShaderEffect := true;
      webcamVideoRef := None;
      revoked := [];
    }

    method HandleVideoChange(url: string)
      requires Valid()
      modifies this
      ensures Valid()
      ensures State() == VideoChange(old(State()), url).next
      ensures revoked == old(revoked) + VideoChange(old(State()), url).revoked
      ensures webcamVideoRef == old(webcamVideoRef)
    {
      if isWebcamActive {
        isWebcamActive := false;
      }
      if Truthy(videoUrl) && IsBlobUrl(videoUrl.value) {
        revoked := revoked + [videoUrl.value];
      }
      videoUrl := Some(url);
      defaultVideoActive := true;
    }

    method HandleToggleWebcam()
      requires Valid()
      modifies this
      ensures Valid()
      ensures State() == ToggleWebcam(old(State())).next
      ensures revoked == old(revoked)
      ensures webcamVideoRef == old(webcamVideoRef)
    {
      if isWebcamActive {
        isWebcamActive := false;
        defaultVideoActive := true;
        videoUrl := None;
      } else {
        defaultVideoActive := false;
        isWebcamActive := true;
      }
    }

    method HandleToggleShaderEffect()
      requires Valid()
      modifies this
      ensures Valid()
      ensures State() == ToggleShaderEffect(old(State())).next
      ensures revoked == old(revoked)
      ensures webcamVideoRef == old(webcamVideoRef)
    {
      useShaderEffect := !useShaderEffect;
    }

    /** The raw `setUseShaderEffect` setter the hook also returns. */
    method SetUseShaderEffect(on: bool)
      requires Valid()
      modifies this
      ensures Valid()
      ensures State() == old(State()).(useShaderEffect := on)
      ensures revoked == old(revoked)
      ensures webcamVideoRef == old(webcamVideoRef)
    {
      useShaderEffect := on;
    }

    /** Only the ref assignment of `handleWebcamStart`. */
    method HandleWebcamStart(videoElement: Handle)
      requires Valid()
      modifies this
      ensures Valid()
      ensures webcamVideoRef == Some(videoElement)
      ensures State() == old(State()) && revoked == old(revoked)
    {
      webcamVideoRef := Some(videoElement);
    }

    method HandleWebcamStop()
      requires Valid()
      modifies this
      ensures Valid()
      ensures State() == WebcamStop(old(State())).next
      ensures revoked == old(revoked) + WebcamStop(old(State())).revoked
      ensures webcamVideoRef == old(webcamVideoRef)
    {
      if Truthy(videoUrl) && IsBlobUrl(videoUrl.value) {
        revoked := revoked + [videoUrl.value];
      }
      videoUrl := None;
      defaultVideoActive := true;
    }

    /** The effect React runs after a render in which one of its three dependencies changed. */
    method SwitchSourcesEffect()
      requires Valid()
      modifies this
      ensures Valid()
      ensures State() == SwitchEffect(old(State())).next
      ensures revoked == old(revoked) + SwitchEffect(old(State())).revoked
      ensures webcamVideoRef == old(webcamVideoRef)
    {
      if isWebcamActive && Truthy(videoUrl) && defaultVideoActive {
        if IsBlobUrl(videoUrl.value) {
          revoked := revoked + [videoUrl.value];
        }
        defaultVideoActive := false;
      }
    }
  }

  /** Upload, webcam on, webcam off: the uploaded blob URL is never revoked and
      the hook falls back to the default clip. */
  method UploadThenWebcamRoundTrip(url: string)
    returns (finalUrl: Option<string>, defaultOn: bool, webcamOn: bool, ghost revokedUrls: seq<string>)
    ensures finalUrl == None && defaultOn && !webcamOn && revokedUrls == []
  {
    var hook := new VisualizerVideoHook();
    hook.HandleVideoChange(url);
    hook.HandleToggleWebcam();
    assert hook.isWebcamActive && hook.videoUrl == Some(url);
    hook.HandleToggleWebcam();
    finalUrl, defaultOn, webcamOn := hook.videoUrl, hook.defaultVideoActive, hook.isWebcamActive;
    revokedUrls := hook.revoked;
  }
}
