/** The media-source state shared by the `useVisualizerVideo` hook and the
    `MediaSourceManager` component: four state fields and, for every handler,
    the post-state computed from the pre-state together with the URLs the
    handler passes to `URL.revokeObjectURL`. */
module MediaSource {
  import opened Browser

  datatype MediaState = MediaState(
    videoUrl: Option<string>,
    isWebcamActive: bool,
    defaultVideoActive: bool,
    useShaderEffect: bool)

  /** The outcome of one handler: the new state and the URLs revoked, in order. */
  datatype Step = Step(next: MediaState, revoked: seq<string>)

  /** The four `useState` initial values. */
  const Initial: MediaState := MediaState(None, false, true, true)

  /** The revoke guarded by `videoUrl && videoUrl.startsWith('blob:')`. */
  function RevokeIfBlob(u: Option<string>): (r: seq<string>)
    ensures |r| <= 1
    ensures r != [] <==> (u.Some? && IsBlobUrl(u.value))
    ensures r != [] ==> r == [u.value]
  {
    if Truthy(u) && IsBlobUrl(u.value) then [u.value] else []
  }

  /** `handleVideoChange(url)` */
  function VideoChange(s: MediaState, url: string): Step
  {
    Step(MediaState(Some(url), false, true, s.useShaderEffect), RevokeIfBlob(s.videoUrl))
  }

  /** `handleToggleWebcam()` */
  function ToggleWebcam(s: MediaState): Step
  {
    if s.isWebcamActive then
      Step(s.(isWebcamActive := false, defaultVideoActive := true, videoUrl := None), [])
    else
      Step(s.(defaultVideoActive := false, isWebcamActive := true), [])
  }

  /** `handleToggleShaderEffect()` */
  function ToggleShaderEffect(s: MediaState): Step
  {
    Step(s.(useShaderEffect := !s.useShaderEffect), [])
  }

  /** `handleWebcamStop()` */
  function WebcamStop(s: MediaState): Step
  {
    Step(s.(videoUrl := None, defaultVideoActive := true), RevokeIfBlob(s.videoUrl))
  }

  /** The condition of the "clear previous media" effect. */
  predicate SwitchPending(s: MediaState)
  {
    s.isWebcamActive && Truthy(s.videoUrl) && s.defaultVideoActive
  }

  /** The "clear previous media if switching sources" effect. */
  function SwitchEffect(s: MediaState): Step
  {
    if SwitchPending(s) then Step(s.(defaultVideoActive := false), RevokeIfBlob(s.videoUrl))
    else Step(s, [])
  }

  // ---------------------------------------------------------------------
  // Properties of the individual handlers

  lemma VideoChangeAdoptsUrl(s: MediaState, url: string)
    ensures VideoChange(s, url).next.videoUrl == Some(url)
    ensures !VideoChange(s, url).next.isWebcamActive
    ensures VideoChange(s, url).next.defaultVideoActive
    ensures VideoChange(s, url).next.useShaderEffect == s.useShaderEffect
  {
  }

  /** Only a present blob URL is ever revoked, and it is the previous URL. */
  lemma VideoChangeRevokesOnlyBlob(s: MediaState, url: string)
    ensures VideoChange(s, url).revoked != [] <==> s.videoUrl.Some? && IsBlobUrl(s.videoUrl.value)
    ensures forall u :: u in VideoChange(s, url).revoked ==> IsBlobUrl(u) && s.videoUrl == Some(u)
  {
  }

  lemma ToggleWebcamFlips(s: MediaState)
    ensures ToggleWebcam(s).next.isWebcamActive == !s.isWebcamActive
    ensures ToggleWebcam(s).next.defaultVideoActive == !ToggleWebcam(s).next.isWebcamActive
    ensures ToggleWebcam(s).next.useShaderEffect == s.useShaderEffect
    ensures ToggleWebcam(s).revoked == []
  {
  }

  /** Turning the webcam off drops the URL without revoking it; turning it on keeps the URL. */
  lemma ToggleWebcamUrl(s: MediaState)
    ensures s.isWebcamActive ==> ToggleWebcam(s).next.videoUrl == None && ToggleWebcam(s).revoked == []
    ensures !s.isWebcamActive ==> ToggleWebcam(s).next.videoUrl == s.videoUrl
  {
  }

  lemma ToggleShaderEffectInvolution(s: MediaState)
    ensures ToggleShaderEffect(s).next == s.(useShaderEffect := !s.useShaderEffect)
    ensures ToggleShaderEffect(ToggleShaderEffect(s).next).next == s
    ensures ToggleShaderEffect(s).revoked == []
  {
  }

  lemma WebcamStopFallsBack(s: MediaState)
    ensures WebcamStop(s).next.videoUrl == None && WebcamStop(s).next.defaultVideoActive
    ensures WebcamStop(s).next.isWebcamActive == s.isWebcamActive
    ensures WebcamStop(s).next.useShaderEffect == s.useShaderEffect
    ensures WebcamStop(s).revoked != [] <==> s.videoUrl.Some? && IsBlobUrl(s.videoUrl.value)
  {
  }

  lemma SwitchEffectActsOnlyWhenPending(s: MediaState)
    ensures !SwitchPending(s) ==> SwitchEffect(s) == Step(s, [])
    ensures SwitchPending(s) ==> SwitchEffect(s).next == s.(defaultVideoActive := false)
    ensures SwitchEffect(s).revoked != [] <==> SwitchPending(s) && IsBlobUrl(s.videoUrl.value)
  {
  }

  // ---------------------------------------------------------------------
  // Runs of handlers

  datatype Event =
    | UploadVideo(url: string)
    | ToggleWebcamEvent
    | ToggleShaderEvent
    | SetShaderEvent(on: bool)
    | WebcamStopEvent
    | EffectEvent

  function Apply(s: MediaState, e: Event): Step
  {
    match e
    case UploadVideo(url) => VideoChange(s, url)
    case ToggleWebcamEvent => ToggleWebcam(s)
    case ToggleShaderEvent => ToggleShaderEffect(s)
    case SetShaderEvent(on) => Step(s.(useShaderEffect := on), [])
    case WebcamStopEvent => WebcamStop(s)
    case EffectEvent => SwitchEffect(s)
  }

  /** The state after a run of events, and every URL revoked on the way. */
  function Run(s: MediaState, es: seq<Event>): Step
    decreases |es|
  {
    if es == [] then Step(s, [])
    else
      var first := Apply(s, es[0]);
      var rest := Run(first.next, es[1..]);
      Step(rest.next, first.revoked + rest.revoked)
  }

  /** No run ever revokes anything but a blob URL. */
  lemma {:induction false} RunRevokesOnlyBlobUrls(s: MediaState, es: seq<Event>)
    ensures forall u :: u in Run(s, es).revoked ==> IsBlobUrl(u)
    decreases |es|
  {
    if es != [] {
      RunRevokesOnlyBlobUrls(Apply(s, es[0]).next, es[1..]);
    }
  }

  /** The invariant every handler keeps: with the webcam off, the default flag is set. */
  ghost predicate Consistent(s: MediaState)
  {
    !s.isWebcamActive ==> s.defaultVideoActive
  }

  /** The switch effect's condition never holds in a state built by the modelled
      handlers alone: only the webcam frame processor (not part of this model)
      can set a URL while the webcam is on and the default flag is set. */
  ghost predicate Quiescent(s: MediaState)
  {
    !SwitchPending(s)
  }

  lemma {:induction false} RunKeepsConsistentAndQuiescent(s: MediaState, es: seq<Event>)
    requires Consistent(s) && Quiescent(s)
    ensures Consistent(Run(s, es).next) && Quiescent(Run(s, es).next)
    decreases |es|
  {
    if es != [] {
      var first := Apply(s, es[0]);
      assert Consistent(first.next) && Quiescent(first.next);
      RunKeepsConsistentAndQuiescent(first.next, es[1..]);
    }
  }

  /** Every state reachable from the initial state keeps both invariants. */
  lemma ReachableStates(es: seq<Event>)
    ensures Consistent(Run(Initial, es).next) && Quiescent(Run(Initial, es).next)
  {
    RunKeepsConsistentAndQuiescent(Initial, es);
  }

  /** "At most one live blob URL" is not kept: an uploaded blob URL is dropped
      unrevoked when the webcam is toggled on and then off. */
  lemma ToggleOffLeaksBlobUrl()
    ensures var r := Run(Initial, [UploadVideo("blob:a"), ToggleWebcamEvent, ToggleWebcamEvent]);
      r.next.videoUrl == None && r.revoked == []
  {
  }
}
