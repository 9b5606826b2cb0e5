# Kinect point-cloud visualizer: a Dafny model of its state logic

The visualizer is a browser application built with React and Three.js. It
plays a video as a Kinect-style depth point cloud. The video can be a remote
sample clip, a file the user uploads, or a live webcam. The user can record
the rendered canvas and download the recording. The draggable control panels
remember their position, size and collapsed state.

This project models the logic behind that, one Dafny module per source file:

- **Media source state** (`MediaSource`, `VisualizerVideo`, `MediaSourceManager`).
  - Four state fields: `videoUrl`, `isWebcamActive`, `defaultVideoActive` and `useShaderEffect`.
  - The handlers that change them, and the "clear previous media" effect.
  - Which blob URLs each handler revokes.
  - `MediaSource` holds the pure transition functions and the lemmas about single handlers and about whole runs of handlers.
  - The two classes are the hook and the older component that carry the same state.
- **Scene wiring and parameters** (`VisualizerScene`, `VisualizerControls`, `SceneControls`).
  - The props derived from the media state.
  - The camera and orbit settings.
  - The parameter store: an object spread with a computed key.
  - The auto-rotate flags.
- **Recording** (`Recording`, `CanvasRecorder`, `VideoPlayerControls`, `VideoUploader`).
  - The `MediaRecorder` life cycle: start, `ondataavailable`, stop and `onstop`.
  - The chunk list.
  - The blob built from the chunks, and the file offered for download.
- **Textures** (`Textures`, `KinectVisualizer`, `VideoTextureManager`, `WebcamShaderEffect`).
  - GPU textures are abstract handles in a shared `TextureRegistry`. The registry records the created and disposed sets and the ordered log of create, dispose and refresh calls.
  - Each component's effects and frame callback are methods on that registry.
- **Point grid and data textures** (`PointCloudVisualizer`, `WebcamShaderEffect`).
  - The row-major vertex buffer loop, over an `array`.
  - The stride-4 noise buffer loop, over an `array`.
  - The 1 x 1 time texture.
- **Panel persistence** (`DraggablePanel`).
  - The three `localStorage` keys of a panel.
  - The restore effect and the save handlers.
  - The layout rules of a collapsed panel.

Each React handler is one atomic method on a class whose fields are the
component's `useState` and `useRef` values. The post-state is computed from
the pre-state that the closure captured. Browser callbacks are separate
methods the environment may call: `ondataavailable`, `onstop`, `canplay` and
the per-frame tick. Object URLs, canvases and recorders are abstract handles.
Ghost sequences record which URLs were created and which revoked, and which
recorders were asked to stop.

The model follows the code. It also shows the code's behaviour in the
following places:

- A blob URL is dropped without being revoked when the webcam is toggled on
  and then off: `MediaSource.ToggleOffLeaksBlobUrl`.
- From the modelled handlers alone, the switch effect's condition never
  holds: `MediaSource.ReachableStates`.
- A second recording session appends to the first:
  `CanvasRecorder.SessionsAccumulate`.
- Two quick source switches in `VideoTextureManager` leave two `canplay`
  listeners. When both fire, the first texture is never disposed:
  `VideoTextureManager.StaleListenerLeaksTexture`.
- `WebcamShaderEffect` disposes its webcam texture but keeps it in the ref
  when the ready state drops. Later frame ticks only mark that disposed
  texture dirty: `WebcamShaderEffect.DisposedTextureStaysInRef`.

Other facts about the code that the model keeps:

- `handleVideoChange` and `handleWebcamStop` revoke the previous URL when it
  is a blob URL, but toggling the webcam off drops the URL without revoking
  it, and `VideoUploader` never revokes its uploads.
- `handleControlChange` stores the raw value under any key, `colorTint`
  included; nothing clamps a value or keeps the clipping planes ordered.
- Starting a recording does not clear the earlier chunks; only a file
  upload in `VideoUploader` clears them.
- `JSON.parse` in the panel's restore effect throws on a corrupt stored
  value; the model reports this as `ParseFailed`.
- The two download names differ: the recorder hook and
  `VideoPlayerControls` use `zhonk-vision-processed.mp4`, and
  `VideoUploader` uses `kinect-processed-video.webm`.
- `VideoTextureManager` creates its texture once the video can play, while
  `KinectVisualizer` creates its texture in the source effect itself.

## Model

| member | source | states |
|---|---|---|
| Browser.BlobUrlIsTruthy | src/hooks/useVisualizerVideo.ts:40 | `videoUrl && videoUrl.startsWith('blob:')` holds exactly when a URL is present and is a blob URL |
| Browser.HiddenVideo | src/components/KinectVisualizer.tsx:114-121 | a created video element loops, is muted, plays inline, is anonymous cross-origin, and has no source yet |
| Textures.TextureRegistry.constructor | src/components/KinectVisualizer.tsx:73 | no texture exists at first |
| Textures.TextureRegistry.Create | src/components/KinectVisualizer.tsx:129-133 | a new texture is distinct from every earlier one; it joins the live set and is logged as created |
| Textures.TextureRegistry.Dispose | src/components/KinectVisualizer.tsx:108-111 | `dispose()` removes exactly that texture from the live set and logs it |
| Textures.TextureRegistry.Refresh | src/components/KinectVisualizer.tsx:170-172 | `needsUpdate = true` creates and disposes nothing; only the refresh is logged |
| MediaSource.RevokeIfBlob | src/hooks/useVisualizerVideo.ts:40-42 | at most one URL is revoked; one is revoked iff the previous URL is present and a blob URL, and it is that URL |
| MediaSource.VideoChangeAdoptsUrl | src/hooks/useVisualizerVideo.ts:33-46 | after an upload the URL is adopted, the webcam is off and the default flag is set; the shader flag is untouched |
| MediaSource.VideoChangeRevokesOnlyBlob | src/hooks/useVisualizerVideo.ts:39-42 | an upload revokes something iff the previous URL is a blob URL, and then only that URL |
| MediaSource.ToggleWebcamFlips | src/hooks/useVisualizerVideo.ts:54-67 | the toggle flips the webcam flag and leaves `defaultVideoActive == !isWebcamActive`; it revokes nothing |
| MediaSource.ToggleWebcamUrl | src/hooks/useVisualizerVideo.ts:55-66 | turning the webcam off clears the URL without revoking it; turning it on keeps the URL |
| MediaSource.ToggleShaderEffectInvolution | src/hooks/useVisualizerVideo.ts:69-71 | the shader toggle negates only `useShaderEffect`; applying it twice gives back the same state |
| MediaSource.WebcamStopFallsBack | src/hooks/useVisualizerVideo.ts:110-116 | webcam stop clears the URL and sets the default flag; the webcam and shader flags are unchanged; it revokes iff the URL is a blob URL |
| MediaSource.SwitchEffectActsOnlyWhenPending | src/hooks/useVisualizerVideo.ts:23-31 | the switch effect changes nothing unless the webcam is on, a URL is present and the default flag is set; then it clears only the default flag and revokes a blob URL |
| MediaSource.RunRevokesOnlyBlobUrls | src/hooks/useVisualizerVideo.ts:23-116 | over any sequence of handlers and effects, only blob URLs are ever revoked |
| MediaSource.RunKeepsConsistentAndQuiescent | src/hooks/useVisualizerVideo.ts:23-116 | every handler keeps "webcam off implies default on", and keeps the switch effect's condition false |
| MediaSource.ReachableStates | src/hooks/useVisualizerVideo.ts:14-17 | from the initial state, every run of handlers keeps both invariants |
| MediaSource.ToggleOffLeaksBlobUrl | src/hooks/useVisualizerVideo.ts:54-66 | upload, webcam on, webcam off: the blob URL is gone from the state and was never revoked |
| VisualizerVideo.VisualizerVideoHook.constructor | src/hooks/useVisualizerVideo.ts:14-18 | initial state: no URL, webcam off, default video on, shader effect on, no webcam element |
| VisualizerVideo.VisualizerVideoHook.HandleVideoChange | src/hooks/useVisualizerVideo.ts:33-46 | the new state and the revoked URLs are those of the upload transition; the invariant is kept |
| VisualizerVideo.VisualizerVideoHook.HandleToggleWebcam | src/hooks/useVisualizerVideo.ts:54-67 | the state follows the webcam toggle transition and nothing is revoked |
| VisualizerVideo.VisualizerVideoHook.HandleToggleShaderEffect | src/hooks/useVisualizerVideo.ts:69-71 | only the shader flag changes, negated |
| VisualizerVideo.VisualizerVideoHook.SetUseShaderEffect | src/hooks/useVisualizerVideo.ts:17 | the returned setter changes only the shader flag |
| VisualizerVideo.VisualizerVideoHook.HandleWebcamStart | src/hooks/useVisualizerVideo.ts:73-74 | the webcam ref holds the given element; the state is unchanged |
| VisualizerVideo.VisualizerVideoHook.HandleWebcamStop | src/hooks/useVisualizerVideo.ts:110-116 | the state and the revoked URLs follow the webcam stop transition |
| VisualizerVideo.VisualizerVideoHook.SwitchSourcesEffect | src/hooks/useVisualizerVideo.ts:23-31 | the state and the revoked URLs follow the switch effect |
| VisualizerVideo.UploadThenWebcamRoundTrip | src/hooks/useVisualizerVideo.ts:33-66 | after upload, webcam on and webcam off, there is no URL, the default clip is on, and nothing was revoked |
| MediaSourceManager.MediaSourceManager.constructor | src/components/MediaSourceManager.tsx:7-11 | the same initial state as the hook, with the ref taken from the prop |
| MediaSourceManager.MediaSourceManager.HandleVideoChange | src/components/MediaSourceManager.tsx:24-37 | the state and the revoked URLs follow the upload transition |
| MediaSourceManager.MediaSourceManager.HandleToggleWebcam | src/components/MediaSourceManager.tsx:39-52 | the state follows the webcam toggle transition and nothing is revoked |
| MediaSourceManager.MediaSourceManager.HandleToggleShaderEffect | src/components/MediaSourceManager.tsx:54-56 | only the shader flag changes, negated |
| MediaSourceManager.MediaSourceManager.HandleWebcamStart | src/components/MediaSourceManager.tsx:59-60 | the prop's ref holds the given element; the state is unchanged |
| MediaSourceManager.MediaSourceManager.HandleWebcamStop | src/components/MediaSourceManager.tsx:96-102 | the state and the revoked URLs follow the webcam stop transition |
| MediaSourceManager.MediaSourceManager.SwitchSourcesEffect | src/components/MediaSourceManager.tsx:13-22 | the state and the revoked URLs follow the switch effect |
| MediaSourceManager.SecondUploadRevokesFirst | src/components/MediaSourceManager.tsx:24-37 | a second upload revokes exactly the first blob URL and adopts the second |
| VisualizerControls.DefaultControlsWellShaped | src/hooks/useVisualizerControls.ts:10-18 | the initial record has the six numeric fields and the tint |
| VisualizerControls.WithControl | src/hooks/useVisualizerControls.ts:25-30 | the named field holds the raw value, every other field is unchanged, and the key set gains only the name |
| VisualizerControls.WithControlKeepsShape | src/hooks/useVisualizerControls.ts:25-30 | writing a numeric field keeps the record well shaped |
| VisualizerControls.TintOverwrittenByNumber | src/hooks/useVisualizerControls.ts:25-30 | a number written under `colorTint` is accepted and breaks the shape |
| VisualizerControls.LastWriteWins | src/hooks/useVisualizerControls.ts:26-29 | of two writes to one field, the second wins |
| VisualizerControls.SameWriteIdempotent | src/hooks/useVisualizerControls.ts:26-29 | repeating a write changes nothing |
| VisualizerControls.DistinctWritesCommute | src/hooks/useVisualizerControls.ts:26-29 | writes to two different fields commute |
| VisualizerControls.InvertedClippingAccepted | src/hooks/useVisualizerControls.ts:25-30 | a near clipping value at or above the far value is stored as given |
| VisualizerControls.ControlsHook.constructor | src/hooks/useVisualizerControls.ts:7-18 | auto-rotate off; the default parameter record |
| VisualizerControls.ControlsHook.HandleToggleAutoRotate | src/hooks/useVisualizerControls.ts:20-22 | the flag is negated and the parameters are untouched |
| VisualizerControls.ControlsHook.HandleControlChange | src/hooks/useVisualizerControls.ts:25-30 | the parameters become the spread write of the field; auto-rotate is untouched |
| VisualizerControls.ControlsHook.HandleControlsUpdate | src/hooks/useVisualizerControls.ts:33-35 | the parameters are replaced wholesale |
| VisualizerControls.ToggleAutoRotateTwice | src/hooks/useVisualizerControls.ts:20-22 | toggling twice restores the flag and leaves the parameters alone |
| SceneControls.SceneControls.constructor | src/components/SceneControls.tsx:5 | auto-rotate starts off |
| SceneControls.SceneControls.HandleToggleAutoRotate | src/components/SceneControls.tsx:7-9 | the flag is negated |
| SceneControls.ToggleTwice | src/components/SceneControls.tsx:7-9 | toggling twice restores the flag |
| VisualizerScene.View | src/components/VisualizerScene.tsx:28-43 | the camera sits at z = 500 with fov 50, near 1 and far 10000; the orbit band is [300, 1000] with speed 1.5; the starting distance lies inside the band, and the band lies between the clipping planes; auto-rotate is forwarded |
| VisualizerScene.SceneProps | src/components/VisualizerScene.tsx:45-53 | the default clip never comes with the webcam element; shader mode always comes with it; the URL and the parameters are forwarded |
| VisualizerScene.ScenePropsFlags | src/components/VisualizerScene.tsx:48-50 | each derived flag holds iff its condition on the state holds |
| VisualizerScene.ReachableSceneHasOneSource | src/components/VisualizerScene.tsx:48-49 | in every reachable state, the renderer gets exactly one of the default clip or the webcam element |
| Recording.Concat | src/hooks/useCanvasRecorder.ts:79 | the blob's size is the sum of the chunk sizes |
| Recording.ConcatAppend | src/hooks/useCanvasRecorder.ts:79 | appending a chunk appends its bytes to the blob |
| Recording.ConcatKeepsChunksInOrder | src/hooks/useCanvasRecorder.ts:79 | every chunk appears whole in the blob, at the offset given by the chunks before it |
| Recording.AppendData | src/hooks/useCanvasRecorder.ts:32-36 | a chunk is appended at the end iff it has positive size, so every stored chunk is non-empty |
| Recording.DownloadOf | src/hooks/useCanvasRecorder.ts:68-83 | no file iff there are no chunks; otherwise one file with the fixed name holding every chunk in order |
| CanvasRecorder.CanvasRecorder.constructor | src/hooks/useCanvasRecorder.ts:6-9 | no canvas, not recording, no chunks, no recorder |
| CanvasRecorder.CanvasRecorder.HandleCanvasCapture | src/hooks/useCanvasRecorder.ts:12-14 | only the canvas ref changes |
| CanvasRecorder.CanvasRecorder.HandleStartRecording | src/hooks/useCanvasRecorder.ts:16-60 | without a canvas it reports so and changes nothing; a throw reports failure; recording is on only after `start()` returns; chunks are kept |
| CanvasRecorder.CanvasRecorder.OnDataAvailable | src/hooks/useCanvasRecorder.ts:32-36 | the chunks follow the append rule and nothing else changes |
| CanvasRecorder.CanvasRecorder.OnStop | src/hooks/useCanvasRecorder.ts:38-44 | recording is switched off and the chunks are kept |
| CanvasRecorder.CanvasRecorder.HandleStopRecording | src/hooks/useCanvasRecorder.ts:62-66 | `stop()` is requested iff a recorder exists and recording is on; the flag is left to `onstop` |
| CanvasRecorder.CanvasRecorder.HandleDownloadVideo | src/hooks/useCanvasRecorder.ts:68-100 | with no chunks it reports an error and creates no URL; otherwise it offers the full blob, and its URL is revoked in the same call |
| CanvasRecorder.SessionsAccumulate | src/hooks/useCanvasRecorder.ts:32-47 | after two sessions recording `a` then `b`, the download holds `a` followed by `b` |
| VideoPlayerControls.VideoPlayerControls.constructor | src/components/VideoPlayerControls.tsx:10-12 | not recording, no chunks, no recorder |
| VideoPlayerControls.VideoPlayerControls.CanDownload | src/components/VideoPlayerControls.tsx:70 | `canDownload` holds iff a download would produce a file |
| VideoPlayerControls.VideoPlayerControls.HandleStartRecording | src/components/VideoPlayerControls.tsx:14-40 | silent without a canvas; a caught throw leaves the flag unchanged; the chunks are kept |
| VideoPlayerControls.VideoPlayerControls.OnDataAvailable | src/components/VideoPlayerControls.tsx:25-29 | the chunks follow the append rule |
| VideoPlayerControls.VideoPlayerControls.OnStop | src/components/VideoPlayerControls.tsx:31-33 | recording is switched off |
| VideoPlayerControls.VideoPlayerControls.HandleStopRecording | src/components/VideoPlayerControls.tsx:42-46 | `stop()` is requested iff a recorder exists and recording is on |
| VideoPlayerControls.VideoPlayerControls.HandleDownloadVideo | src/components/VideoPlayerControls.tsx:48-66 | the file is the download of the chunks; a URL is created and revoked only when there is one |
| VideoPlayerControls.EmptyChunkNotDownloadable | src/components/VideoPlayerControls.tsx:25-29 | an empty chunk leaves download unavailable; a non-empty one makes it available |
| VideoUploader.VideoUploader.constructor | src/components/VideoUploader.tsx:13-17 | no file, no URL, not recording, no chunks |
| VideoUploader.VideoUploader.VisibleButtons | src/components/VideoUploader.tsx:102-133 | recording buttons only with a video URL; exactly one of record or stop; stop iff recording; download iff there are chunks |
| VideoUploader.VideoUploader.HandleFileChange | src/components/VideoUploader.tsx:21-34 | without a file nothing changes; with one, the new URL is adopted and passed on, the chunks are cleared, and the old URL is not revoked |
| VideoUploader.VideoUploader.StartCapture | src/components/VideoUploader.tsx:36-57 | without a canvas nothing changes; an uncaught throw aborts the handler; recording is on only after `start()` |
| VideoUploader.VideoUploader.OnDataAvailable | src/components/VideoUploader.tsx:49-53 | the chunks follow the append rule |
| VideoUploader.VideoUploader.StopCapture | src/components/VideoUploader.tsx:59-64 | `stop()` is requested iff a recorder exists and recording is on, and then the flag is cleared at once |
| VideoUploader.VideoUploader.DownloadVideo | src/components/VideoUploader.tsx:66-78 | the file is the download of the chunks under the `.webm` name; its URL is revoked in the same call |
| VideoUploader.SecondUploadResetsChunks | src/components/VideoUploader.tsx:21-34 | a second upload drops the recorded chunks and leaves both upload URLs unrevoked |
| PointCloudVisualizer.AttributeCount | src/components/PointCloudVisualizer.tsx:42 | the attribute count is one vertex per three buffer entries |
| PointCloudVisualizer.CreateVertices | src/components/PointCloudVisualizer.tsx:24-35 | the buffer has `width * height * 3` entries; entry `3j` is `j % width`, entry `3j+1` is `j / width`, entry `3j+2` is 0 |
| PointCloudVisualizer.GridVertex | src/components/PointCloudVisualizer.tsx:29-32 | vertex j is `(j % width, j / width, 0)`, and its row is below `height` |
| PointCloudVisualizer.GridCoversEachCellOnce | src/components/PointCloudVisualizer.tsx:29-32 | each grid cell `(x, y)` is the vertex of exactly one index, `y * width + x` |
| KinectVisualizer.DefaultUniformsMatchDefaultControls | src/components/KinectVisualizer.tsx:74-85 | the renderer's starting uniforms agree with the parameter store's defaults, field by field |
| KinectVisualizer.SourceFor | src/components/KinectVisualizer.tsx:123-153 | a truthy prop is played as given; otherwise the sample clip is played |
| KinectVisualizer.KinectVisualizer.constructor | src/components/KinectVisualizer.tsx:70-85 | default uniforms, no texture, no video element |
| KinectVisualizer.KinectVisualizer.SourceChangeEffect | src/components/KinectVisualizer.tsx:107-153 | the old texture is disposed before exactly one new one is created; the new one is the only live texture and the `map` uniform; one video element, playing the chosen source |
| KinectVisualizer.KinectVisualizer.Cleanup | src/components/KinectVisualizer.tsx:155-159 | the cleanup only pauses the video |
| KinectVisualizer.KinectVisualizer.FrameTick | src/components/KinectVisualizer.tsx:163-173 | the canvas is handed over once; the tick only marks the texture dirty when there is enough data, and never creates or disposes one |
| KinectVisualizer.KinectVisualizer.AttributeCount | src/components/KinectVisualizer.tsx:193 | the attribute count matches the grid |
| KinectVisualizer.KinectVisualizer.CreateVertices | src/components/KinectVisualizer.tsx:175-186 | the buffer is the 640 x 480 row-major grid |
| KinectVisualizer.SwitchSource | src/components/KinectVisualizer.tsx:107-153 | switching from A to B creates A's texture, disposes it, then creates one other texture, in that order and nothing more |
| VideoTextureManager.SelectSource | src/components/VideoTextureManager.tsx:52 | a truthy URL wins; otherwise the sample clip when the default is requested; no source exactly when neither |
| VideoTextureManager.VideoTextureManager.constructor | src/components/VideoTextureManager.tsx:16-17 | no element, no texture, no listener |
| VideoTextureManager.VideoTextureManager.GetOrCreateVideoElement | src/components/VideoTextureManager.tsx:21-31 | the element is created once with its four attributes and then reused |
| VideoTextureManager.VideoTextureManager.SourceEffect | src/components/VideoTextureManager.tsx:34-78 | the effect disposes and clears the texture and creates none; it points the element at the chosen source and adds a listener iff there is one |
| VideoTextureManager.VideoTextureManager.CanPlay | src/components/VideoTextureManager.tsx:60-74 | a pending listener creates one fresh texture, stores it in the ref, passes the same one to `onTextureLoaded`, and removes itself |
| VideoTextureManager.VideoTextureManager.Cleanup | src/components/VideoTextureManager.tsx:81-85 | the cleanup only pauses the video |
| VideoTextureManager.NoSourceNoTexture | src/components/VideoTextureManager.tsx:52-78 | with no source no texture is ever created or reported |
| VideoTextureManager.StaleListenerLeaksTexture | src/components/VideoTextureManager.tsx:34-78 | two quick switches leave two listeners, whose two textures both stay live |
| WebcamShaderEffect.IntensityInRange | src/components/WebcamShaderEffect.tsx:139 | `Math.floor(Math.random() * 255)` lies in 0..254 |
| WebcamShaderEffect.NoisePixel | src/components/WebcamShaderEffect.tsx:138-144 | the four bytes of pixel p are its draw's intensity (at most 254) three times, then 255 |
| WebcamShaderEffect.CreateNoiseData | src/components/WebcamShaderEffect.tsx:134-144 | 256 x 256 x 4 bytes; byte k is the k-th draw's intensity for R, G and B, and 255 for A; every pixel is grey and opaque |
| WebcamShaderEffect.CreateNoiseTexture | src/components/WebcamShaderEffect.tsx:134-149 | a 256 x 256 RGBA texture flagged for upload, over grey opaque pixels |
| WebcamShaderEffect.CreateTimeTexture | src/components/WebcamShaderEffect.tsx:151-157 | a 1 x 1 RGBA texture, all bytes 255, flagged for upload; it is the data the mount effect binds to the time uniform |
| WebcamShaderEffect.WebcamShaderEffect.constructor | src/components/WebcamShaderEffect.tsx:71-74 | no webcam texture and no textures created |
| WebcamShaderEffect.WebcamShaderEffect.MountEffect | src/components/WebcamShaderEffect.tsx:77-87 | with the shader attached, two new distinct textures, created fire first: fire holds grey opaque noise and time holds `CreateTimeTexture()`; otherwise nothing |
| WebcamShaderEffect.WebcamShaderEffect.UnmountCleanup | src/components/WebcamShaderEffect.tsx:88-92 | unmount disposes the fire and time textures and the webcam texture in the ref |
| WebcamShaderEffect.WebcamShaderEffect.WebcamEffect | src/components/WebcamShaderEffect.tsx:96-110 | the effect disposes the current webcam texture and creates a new one only with current data; otherwise the ref keeps the disposed texture |
| WebcamShaderEffect.WebcamShaderEffect.FrameTick | src/components/WebcamShaderEffect.tsx:113-131 | with current data the tick creates a texture only if the ref is empty, and otherwise only refreshes; it never disposes |
| WebcamShaderEffect.DisposedTextureStaysInRef | src/components/WebcamShaderEffect.tsx:96-131 | after the ready state drops, the next ready tick refreshes a texture that was already disposed |
| DraggablePanel.StorageKey | src/components/ui/draggable-panel.tsx:40-42 | every key is `panel-<id>-` followed by the field's suffix |
| DraggablePanel.StorageKeyInjective | src/components/ui/draggable-panel.tsx:40-42 | two (panel, field) pairs share a key iff they are equal, so a panel's three keys are pairwise distinct |
| DraggablePanel.BoolString | src/components/ui/draggable-panel.tsx:62 | `String(b)` is never empty, so a stored flag is always truthy |
| DraggablePanel.CollapsedRoundTrip | src/components/ui/draggable-panel.tsx:46-62 | a flag written as `String(b)` is read back as `b` by the restore test |
| DraggablePanel.RestoredField | src/components/ui/draggable-panel.tsx:44-45 | a field is overridden only when a truthy value was saved, and then by its parse |
| DraggablePanel.PanelLayout | src/components/ui/draggable-panel.tsx:73-88 | height `'auto'` whenever collapsed, else the stored height; minimum width 200; minimum height 50 or 100; resizing iff expanded |
| DraggablePanel.CollapsedLayoutIgnoresStoredHeight | src/components/ui/draggable-panel.tsx:74 | a collapsed panel looks the same whatever height is stored, and expanding shows the stored height again |
| DraggablePanel.LocalStorage.GetItem | src/components/ui/draggable-panel.tsx:40-42 | `getItem` returns the stored string, or `null` when the key is absent |
| DraggablePanel.LocalStorage.SetItem | src/components/ui/draggable-panel.tsx:51 | `setItem` changes only the given key |
| DraggablePanel.DraggablePanel.constructor | src/components/ui/draggable-panel.tsx:22-36 | expanded, at the caller's `defaultPosition` and `defaultSize` (the props default to (20, 20) and 300 x `'auto'`) |
| DraggablePanel.DraggablePanel.RestoreEffect | src/components/ui/draggable-panel.tsx:39-47 | each truthy saved field overrides the state; absent fields keep it; a parse that throws stops the effect at that field |
| DraggablePanel.DraggablePanel.SavePosition | src/components/ui/draggable-panel.tsx:49-52 | the state and the stored position key get the same position, and nothing else changes |
| DraggablePanel.DraggablePanel.SaveSize | src/components/ui/draggable-panel.tsx:54-57 | the state and the stored size key get the same size, and nothing else changes |
| DraggablePanel.DraggablePanel.ToggleCollapse | src/components/ui/draggable-panel.tsx:59-63 | the flag is negated and `String(newState)` is written to the collapsed key only |
| DraggablePanel.DraggablePanel.OnDragStop | src/components/ui/draggable-panel.tsx:78-80 | the drop point is saved as the position |
| DraggablePanel.DraggablePanel.OnResizeStop | src/components/ui/draggable-panel.tsx:81-87 | the new size is saved, with `'auto'` height while collapsed, and then the new position |
| DraggablePanel.CollapsedFlagSurvivesRemount | src/components/ui/draggable-panel.tsx:40-63 | after a toggle, a panel remounted with the same id restores the toggled flag |
| DraggablePanel.LayoutSurvivesRemount | src/components/ui/draggable-panel.tsx:39-87 | a resized and moved panel is restored with the same size and position, given that JSON parses back what it wrote |
| DraggablePanel.UnsavedPanelKeepsCallerDefaults | src/components/ui/draggable-panel.tsx:34-47 | with nothing saved, a mounted panel keeps the caller's default position and size and is expanded |

## Left out

- GLSL shaders (`KinectShaders.ts`, and the shader strings in `KinectVisualizer.tsx` and `WebcamShaderEffect.tsx`): GPU floating-point numerics that these state machines never read.
- The webcam frame processor in `handleWebcamStart` (`requestAnimationFrame`, canvas `drawImage`/`toBlob`): only the ref assignment is modelled. This processor is the only code that can set a URL while the webcam is on, so the model never makes the switch effect's condition true.
- `handleTriggerFileUpload` and `triggerFileInput`: they only forward a click to a hidden file input.
- `WebcamInput.tsx`, `getUserMedia` and the `play()` promise: playback start is modelled as the element's `paused` flag, and a rejected `play()` is only logged.
- Toasts, `console` output and the anchor-click mechanics of a download: the toast each recorder handler ends with is returned as a report value; the anchor is left out.
- The `try`/`catch` around a download: `new Blob` and `URL.createObjectURL` are taken not to throw.
- Object URL values: each new URL is a parameter of the handler that creates it, and `HandleFileChange` requires it to be a blob URL, as `URL.createObjectURL` guarantees.
- MIME types and `captureStream(30)`'s frame rate: they do not affect any state.
- `Math.random` and the clock: `CreateNoiseData` takes the sequence of draws, and `FrameTick` takes the elapsed time.
- `JSON.stringify`/`JSON.parse`: a pair of given functions in `Codec`. A throwing parse is `None`. Round trip is a precondition where it is needed.
- The number type: JavaScript numbers are `real` or `int`; `Float32Array` rounding is not modelled (grid indices are exact integers below 2^24).
- The lil-gui panel in `KinectVisualizer.tsx`: its slider ranges are display limits, and its colour picker writes CSS colour strings.
- The collapse and close buttons of the panel, its title and icon: presentational.
- `SpaceAmbience.tsx`, `StarBackground.tsx`, the other presentational components, `Index.tsx` and the type declarations: not part of this model.
- `DraggablePanel.DraggablePanel.RestoreEffect`: when the effect throws, React discards the component; the model only stops the effect at the failing field.
