/** `KinectVisualizer`: the shader uniforms, the hidden video element, the
    video texture that follows the `videoUrl` prop, the per-frame tick and
    the point grid. */
module KinectVisualizer {
  import opened Browser
  import opened Textures
  import VisualizerControls
  import PointCloudVisualizer

  /** The uniforms object; `mapTexture` is the `map` uniform. */
  datatype Uniforms = Uniforms(
    mapTexture: Option<TextureId>,
    width: nat,
    height: nat,
    nearClipping: real,
    farClipping: real,
    pointSize: real,
    zOffset: real,
    colorTint: VisualizerControls.Color,
    opacity: real,
    hueShift: real)

  const DefaultUniforms: Uniforms :=
    Uniforms(None, 640, 480, 850.0, 4000.0, 2.0, 1000.0, VisualizerControls.White, 0.2, 0.0)

  /** The renderer's starting uniforms agree, field by field, with the
      parameter store's default record. */
  lemma DefaultUniformsMatchDefaultControls()
    ensures var c := VisualizerControls.DefaultControls;
      && c["nearClipping"] == VisualizerControls.Num(DefaultUniforms.nearClipping)
      && c["farClipping"] == VisualizerControls.Num(DefaultUniforms.farClipping)
      && c["pointSize"] == VisualizerControls.Num(DefaultUniforms.pointSize)
      && c["zOffset"] == VisualizerControls.Num(DefaultUniforms.zOffset)
      && c["opacity"] == VisualizerControls.Num(DefaultUniforms.opacity)
      && c["hueShift"] == VisualizerControls.Num(DefaultUniforms.hueShift)
      && c["colorTint"] == VisualizerControls.Tint(DefaultUniforms.colorTint)
  {
  }

  /** The clip played for a `videoUrl` prop: the prop when truthy, else the sample clip. */
  function SourceFor(videoUrl: Option<string>): (src: string)
    ensures Truthy(videoUrl) ==> src == videoUrl.value
    ensures !Truthy(videoUrl) ==> src == DefaultVideoUrl
    ensures src != ""
  {
    if Truthy(videoUrl) then videoUrl.value else DefaultVideoUrl
  }

  ghost function TextureSet(ref: Option<TextureId>): set<TextureId>
  {
    if ref.Some? then {ref.value} else {}
  }

  class KinectVisualizer {
    const gpu: TextureRegistry
    var uniforms: Uniforms
    /** `textureRef.current` */
    var textureRef: Option<TextureId>
    /** `videoRef.current` */
    var video: Option<VideoElement>
    /** Whether `rendererRef.current` is set. */
    var rendererCaptured: bool
    ghost var videoElementsCreated: nat
    /** Canvases handed to `captureCanvas`, in order. */
    ghost var canvasCaptures: seq<Handle>

    /** The only live texture is the one in the ref, which is also the `map`
        uniform; the grid size stays 640 x 480; at most one video element and
        at most one canvas capture, the latter exactly when the renderer ref is set. */
    ghost predicate Valid()
      reads this, gpu
    {
      && gpu.Valid()
      && uniforms.mapTexture == textureRef
      && gpu.Live() == TextureSet(textureRef)
      && uniforms.width == 640 && uniforms.height == 480
      && videoElementsCreated == (if video.Some? then 1 else 0)
      && (video.Some? ==> video.value.loop && video.value.muted && video.value.playsInline
                          && video.value.crossOrigin == "anonymous")
      && |canvasCaptures| == (if rendererCaptured then 1 else 0)
    }

    constructor ()
      ensures Valid() && fresh(gpu)
      ensures uniforms == DefaultUniforms && textureRef == None && video == None
      ensures gpu.created == {} && gpu.log == [] && canvasCaptures == []
    {
      gpu := new TextureRegistry();
      uniforms := DefaultUniforms;
      textureRef := None;
      video := None;
      rendererCaptured := false;
      videoElementsCreated := 0;
      canvasCaptures := [];
    }

    /** The effect on `videoUrl`: dispose and clear the old texture, create the
        video element if there is none, point it at the source and create
        exactly one new texture, which becomes the `map` uniform. */
    method SourceChangeEffect(videoUrl: Option<string>)
      requires Valid()
      modifies this, gpu
      ensures Valid()
      ensures textureRef.Some? && textureRef.value !in old(gpu.created)
      ensures gpu.log == old(gpu.log)
        + (if old(textureRef).Some? then [Disposed(old(textureRef).value)] else [])
        + [Created(textureRef.value)]
      ensures gpu.Live() == {textureRef.value} && uniforms.mapTexture == textureRef
      ensures video.Some? && video.value.src == Some(SourceFor(videoUrl)) && !video.value.paused
      ensures videoElementsCreated == old(videoElementsCreated) + (if old(video).None? then 1 else 0)
      ensures rendererCaptured == old(rendererCaptured) && canvasCaptures == old(canvasCaptures)
    {
      if textureRef.Some? {
        gpu.Dispose(textureRef.value);
        textureRef := None;
      }
      if video.None? {
        video := Some(HiddenVideo());
        videoElementsCreated := videoElementsCreated + 1;
      }
      var src := SourceFor(videoUrl);
      video := Some(video.value.(src := Some(src), paused := false));
      var texture := gpu.Create();
      textureRef := Some(texture);
      uniforms := uniforms.(mapTexture := Some(texture));
    }

    /** The effect's cleanup: pause the video. */
    method Cleanup()
      requires Valid()
      modifies this
      ensures Valid()
      ensures video == (if old(video).Some? then Some(old(video).value.(paused := true)) else None)
      ensures textureRef == old(textureRef) && uniforms == old(uniforms)
      ensures rendererCaptured == old(rendererCaptured) && canvasCaptures == old(canvasCaptures)
    {
      if video.Some? {
        video := Some(video.value.(paused := true));
      }
    }

    /** The `useFrame` callback: hand the canvas to `captureCanvas` the first
        time one is available, then mark the texture dirty when the video has
        enough data. It never creates or disposes a texture. */
    method FrameTick(hasCaptureCanvas: bool, domElement: Option<Handle>, readyState: ReadyState)
      returns (captured: Option<Handle>)
      requires Valid()
      modifies this, gpu
      ensures Valid()
      ensures captured.Some? <==> hasCaptureCanvas && domElement.Some? && !old(rendererCaptured)
      ensures captured.Some? ==> captured == domElement && canvasCaptures == [domElement.value]
      ensures captured.None? ==> canvasCaptures == old(canvasCaptures)
      ensures gpu.created == old(gpu.created) && gpu.disposed == old(gpu.disposed)
      ensures gpu.log == old(gpu.log) +
        (if textureRef.Some? && video.Some? && readyState == HaveEnoughData then [Refreshed(textureRef.value)] else [])
      ensures textureRef == old(textureRef) && video == old(video) && uniforms == old(uniforms)
    {
      captured := None;
      if hasCaptureCanvas && domElement.Some? && !rendererCaptured {
        rendererCaptured := true;
        canvasCaptures := canvasCaptures + [domElement.value];
        captured := domElement;
      }
      if textureRef.Some? && video.Some? && readyState == HaveEnoughData {
        gpu.Refresh(textureRef.value);
      }
    }

    /** The position attribute's `count`: one vertex per grid cell. */
    function AttributeCount(): (n: nat)
      reads this
      ensures n * 3 == |PointCloudVisualizer.Grid(uniforms.width, uniforms.height)|
    {
      PointCloudVisualizer.AttributeCount(uniforms.width, uniforms.height)
    }

    /** `createVertices`, over the uniforms' width and height. */
    method CreateVertices() returns (vertices: array<int>)
      requires Valid()
      ensures vertices.Length == 640 * 480 * 3
      ensures vertices[..] == PointCloudVisualizer.Grid(640, 480)
    {
      vertices := PointCloudVisualizer.CreateVertices(uniforms.width, uniforms.height);
    }
  }

  /** Switching the source from one clip to another disposes exactly the first
      texture and creates exactly one more, in that order. */
  method SwitchSource(a: Option<string>, b: Option<string>) returns (ghost events: seq<GpuEvent>)
    ensures |events| == 3 && events[0].Created? && events[1] == Disposed(events[0].t)
    ensures events[2].Created? && events[2].t != events[0].t
  {
    var kinect := new KinectVisualizer();
    kinect.SourceChangeEffect(a);
    kinect.Cleanup();
    kinect.SourceChangeEffect(b);
    events := kinect.gpu.log;
  }
}
