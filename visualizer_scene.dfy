/** `VisualizerScene`: a pure map from the media-source state, the auto-rotate
    flag and the render parameters to what the canvas, the orbit controls and
    the point-cloud renderer are given. */
module VisualizerScene {
  import opened Browser
  import opened MediaSource
  import VisualizerControls

  /** The hook's `VideoState`: the four state fields and the webcam ref object. */
  datatype VideoState = VideoState(media: MediaState, webcamVideoRef: Handle)

  /** The props handed to the point-cloud renderer. */
  datatype KinectProps = KinectProps(
    videoUrl: Option<string>,
    useDefaultVideo: bool,
    webcamVideoRef: Option<Handle>,
    useWebcamShader: bool,
    controlValues: VisualizerControls.Controls)

  /** Camera and orbit settings of the scene; the camera starts on the
      z axis at `cameraZ`, looking at the orbit target (the origin). */
  datatype SceneView = SceneView(
    cameraZ: real, near: real, far: real, fov: real,
    minDistance: real, maxDistance: real,
    autoRotate: bool, autoRotateSpeed: real)

  /** The `Canvas` camera and the `OrbitControls` settings. The initial
      camera distance lies inside the orbit band, and the whole band lies
      between the near and far clipping planes. */
  function View(autoRotate: bool): (v: SceneView)
    ensures v.near == 1.0 && v.far == 10000.0 && v.fov == 50.0 && v.cameraZ == 500.0
    ensures v.minDistance == 300.0 && v.maxDistance == 1000.0 && v.autoRotateSpeed == 1.5
    ensures 0.0 < v.near < v.far
    ensures 0.0 < v.minDistance <= v.maxDistance
    ensures v.minDistance <= v.cameraZ <= v.maxDistance
    ensures v.near < v.minDistance && v.maxDistance < v.far
    ensures v.autoRotate == autoRotate
  {
    SceneView(500.0, 1.0, 10000.0, 50.0, 300.0, 1000.0, autoRotate, 1.5)
  }

  /** The props derived from the video state. The three render modes exclude
      each other: the default clip is never combined with the webcam, and the
      shader mode always comes with the webcam element. */
  function SceneProps(v: VideoState, controls: VisualizerControls.Controls): (p: KinectProps)
    ensures p.useWebcamShader ==> p.webcamVideoRef == Some(v.webcamVideoRef) && !p.useDefaultVideo
    ensures p.useDefaultVideo ==> p.webcamVideoRef == None && !p.useWebcamShader
    ensures p.videoUrl == v.media.videoUrl && p.controlValues == controls
  {
    var m := v.media;
    KinectProps(
      m.videoUrl,
      m.defaultVideoActive && !m.isWebcamActive,
      if m.isWebcamActive then Some(v.webcamVideoRef) else None,
      m.isWebcamActive && m.useShaderEffect,
      controls)
  }

  /** Each derived flag in terms of the state, both directions. */
  lemma ScenePropsFlags(v: VideoState, controls: VisualizerControls.Controls)
    ensures SceneProps(v, controls).useDefaultVideo <==> v.media.defaultVideoActive && !v.media.isWebcamActive
    ensures SceneProps(v, controls).useWebcamShader <==> v.media.isWebcamActive && v.media.useShaderEffect
    ensures SceneProps(v, controls).webcamVideoRef.Some? <==> v.media.isWebcamActive
  {
  }

  /** In every state the handlers can reach, the renderer is given exactly one
      kind of source: the default/uploaded clip or the webcam element. */
  lemma ReachableSceneHasOneSource(es: seq<Event>, ref: Handle, controls: VisualizerControls.Controls)
    ensures var p := SceneProps(VideoState(Run(Initial, es).next, ref), controls);
      p.useDefaultVideo != p.webcamVideoRef.Some?
  {
    ReachableStates(es);
  }
}
