/** `VideoTextureManager`: picks the video source, reuses one hidden video
    element, and creates the texture only from a `canplay` listener, which
    passes it to `onTextureLoaded` and removes itself. */
module VideoTextureManager {
  import opened Browser
  import opened Textures

  /** `videoUrl || (useDefaultVideo ? defaultVideoURL : null)` */
  function SelectSource(videoUrl: Option<string>, useDefaultVideo: bool): (src: Option<string>)
    ensures Truthy(videoUrl) ==> src == videoUrl
    ensures !Truthy(videoUrl) && useDefaultVideo ==> src == Some(DefaultVideoUrl)
    ensures src.None? <==> !Truthy(videoUrl) && !useDefaultVideo
    ensures src.Some? ==> src.value != ""
  {
    if Truthy(videoUrl) then videoUrl else if useDefaultVideo then Some(DefaultVideoUrl) else None
  }

  class VideoTextureManager {
    const gpu: TextureRegistry
    /** `videoRef.current` */
    var video: Option<VideoElement>
    /** `textureRef.current` */
    var textureRef: Option<TextureId>
    /** `canplay` listeners added by the effect and not yet fired. */
    var canPlayListeners: nat
    ghost var registrations: nat
    /** Textures passed to `onTextureLoaded`, in order. */
    ghost var loaded: seq<TextureId>
    ghost var videoElementsCreated: nat

    /** Every texture was created by a `canplay` listener and handed to
        `onTextureLoaded`; each registration has created at most one texture;
        the ref holds the latest such texture, still live; one video element. */
    ghost predicate Valid()
      reads this, gpu
    {
      && gpu.Valid()
      && |loaded| + canPlayListeners == registrations
      && (forall t :: t in gpu.created <==> t in loaded)
      && (textureRef.Some? ==> |loaded| > 0 && textureRef.value == loaded[|loaded| - 1]
                               && textureRef.value in gpu.Live())
      && (canPlayListeners > 0 ==> video.Some?)
      && videoElementsCreated == (if video.Some? then 1 else 0)
      && (video.Some? ==> video.value.loop && video.value.muted && video.value.playsInline
                          && video.value.crossOrigin == "anonymous")
    }

    constructor ()
      ensures Valid() && fresh(gpu)
      ensures video == None && textureRef == None && canPlayListeners == 0
      ensures loaded == [] && gpu.log == [] && gpu.created == {} && gpu.disposed == {}
    {
      gpu := new TextureRegistry();
      video := None;
      textureRef := None;
      canPlayListeners := 0;
      registrations := 0;
      loaded := [];
      videoElementsCreated := 0;
    }

    /** `getOrCreateVideoElement`: the element is created once and then reused. */
    method GetOrCreateVideoElement() returns (v: VideoElement)
      requires Valid()
      modifies this
      ensures Valid()
      ensures video == Some(v)
      ensures old(video).Some? ==> v == old(video).value && videoElementsCreated == old(videoElementsCreated)
      ensures old(video).None? ==> v == HiddenVideo() && videoElementsCreated == 1
      ensures textureRef == old(textureRef) && canPlayListeners == old(canPlayListeners)
      ensures loaded == old(loaded) && registrations == old(registrations)
    {
      if video.None? {
        video := Some(HiddenVideo());
        videoElementsCreated := videoElementsCreated + 1;
      }
      v := video.value;
    }

    /** The effect on `videoUrl` / `useDefaultVideo`: dispose and clear the
        texture, pause the video and drop its `src`, then point it at the
        chosen source and add a `canplay` listener. No texture is created here. */
    method SourceEffect(videoUrl: Option<string>, useDefaultVideo: bool)
      requires Valid()
      modifies this, gpu
      ensures Valid()
      ensures textureRef == None
      ensures gpu.log == old(gpu.log) + (if old(textureRef).Some? then [Disposed(old(textureRef).value)] else [])
      ensures gpu.created == old(gpu.created) && loaded == old(loaded)
      ensures gpu.disposed == old(gpu.disposed) + (if old(textureRef).Some? then {old(textureRef).value} else {})
      ensures video.Some? && video.value.src == SelectSource(videoUrl, useDefaultVideo)
      ensures old(video).Some? ==> video.value.paused
      ensures canPlayListeners == old(canPlayListeners) + (if SelectSource(videoUrl, useDefaultVideo).Some? then 1 else 0)
      ensures videoElementsCreated == 1
    {
      if textureRef.Some? {
        gpu.Dispose(textureRef.value);
        textureRef := None;
      }
      if video.Some? {
        video := Some(video.value.(paused := true, src := None));
      }
      var v := GetOrCreateVideoElement();
      var src := SelectSource(videoUrl, useDefaultVideo);
      if src.Some? {
        video := Some(v.(src := src));
        canPlayListeners := canPlayListeners + 1;
        registrations := registrations + 1;
      }
    }

    /** One `canplay` listener fires: it creates one texture, stores it in the
        ref, passes that same texture to `onTextureLoaded`, starts playback and
        removes itself. Without a listener nothing happens. */
    method CanPlay() returns (texture: Option<TextureId>)
      requires Valid()
      modifies this, gpu
      ensures Valid()
      ensures texture.Some? <==> old(canPlayListeners) > 0
      ensures gpu.disposed == old(gpu.disposed)
      ensures texture.Some? ==>
        && texture.value !in old(gpu.created)
        && textureRef == texture
        && loaded == old(loaded) + [texture.value]
        && gpu.log == old(gpu.log) + [Created(texture.value)]
        && canPlayListeners == old(canPlayListeners) - 1
        && video.Some? && !video.value.paused
      ensures texture.None? ==> textureRef == old(textureRef) && loaded == old(loaded) && gpu.log == old(gpu.log)
    {
      if canPlayListeners == 0 {
        return None;
      }
      var t := gpu.Create();
      textureRef := Some(t);
      loaded := loaded + [t];
      video := Some(video.value.(paused := false));
      canPlayListeners := canPlayListeners - 1;
      texture := Some(t);
    }

    /** The effect's cleanup: pause the video. */
    method Cleanup()
      requires Valid()
      modifies this
      ensures Valid()
      ensures video == (if old(video).Some? then Some(old(video).value.(paused := true)) else None)
      ensures textureRef == old(textureRef) && canPlayListeners == old(canPlayListeners) && loaded == old(loaded)
    {
      if video.Some? {
        video := Some(video.value.(paused := true));
      }
    }
  }

  /** With no source, no listener is added, so no texture is ever created and
      `onTextureLoaded` is never called. */
  method NoSourceNoTexture() returns (texture: Option<TextureId>, ghost loaded: seq<TextureId>)
    ensures texture == None && loaded == []
  {
    var manager := new VideoTextureManager();
    manager.SourceEffect(None, false);
    texture := manager.CanPlay();
    loaded := manager.loaded;
  }

  /** Two quick source switches leave two listeners; when both fire, two
      textures are created and the first is never disposed. */
  method StaleListenerLeaksTexture(a: string, b: string) returns (first: Option<TextureId>, second: Option<TextureId>, ghost live: set<TextureId>)
    ensures first.Some? && second.Some? && first != second
    ensures live == {first.value, second.value}
  {
    var manager := new VideoTextureManager();
    manager.SourceEffect(Some(a), true);
    manager.Cleanup();
    manager.SourceEffect(Some(b), true);
    first := manager.CanPlay();
    second := manager.CanPlay();
    live := manager.gpu.Live();
  }
}
