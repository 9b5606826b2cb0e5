/** `WebcamShaderEffect`: the noise and time `DataTexture` buffers, and the
    webcam video texture that the source-change effect replaces and the frame
    tick creates or refreshes. */
module WebcamShaderEffect {
  import opened Browser
  import opened Textures

  const NoiseSize: nat := 256
  const NoisePixels: nat := 256 * 256
  const NoiseBytes: nat := 256 * 256 * 4

  /** An RGBA `DataTexture`: its bytes, its size and its `needsUpdate` flag. */
  datatype DataTexture = DataTexture(data: seq<byte>, width: nat, height: nat, needsUpdate: bool)

  /** `Math.floor(random * 255)` */
  function Intensity(random: real): int
  {
    (random * 255.0).Floor
  }

  /** A draw of `Math.random()` in [0, 1) gives an intensity in [0, 254]. */
  lemma IntensityInRange(random: real)
    requires 0.0 <= random < 1.0
    ensures 0 <= Intensity(random) <= 254
  {
    assert 0.0 <= random * 255.0 < 255.0;
  }

  /** Byte k of the noise buffer, given the draws of `Math.random()` in order. */
  function NoiseByte(draws: seq<real>, k: nat): byte
    requires |draws| == NoisePixels && k < NoiseBytes
    requires forall i :: 0 <= i < |draws| ==> 0.0 <= draws[i] < 1.0
  {
    if k % 4 == 3 then 255
    else
      IntensityInRange(draws[k / 4]);
      Intensity(draws[k / 4]) as byte
  }

  /** Pixel p is grey (R = G = B) with intensity at most 254, and opaque. */
  ghost predicate GreyOpaquePixel(data: seq<byte>, p: nat)
    requires 4 * p + 3 < |data|
  {
    data[4 * p] == data[4 * p + 1] == data[4 * p + 2] && data[4 * p] <= 254 && data[4 * p + 3] == 255
  }

  /** The four bytes of pixel p: its draw's intensity three times, then 255. */
  lemma NoisePixel(draws: seq<real>, p: nat)
    requires |draws| == NoisePixels && p < NoisePixels
    requires forall i :: 0 <= i < |draws| ==> 0.0 <= draws[i] < 1.0
    ensures 4 * p + 3 < NoiseBytes
    ensures NoiseByte(draws, 4 * p) as int == Intensity(draws[p]) <= 254
    ensures NoiseByte(draws, 4 * p + 1) == NoiseByte(draws, 4 * p)
    ensures NoiseByte(draws, 4 * p + 2) == NoiseByte(draws, 4 * p)
    ensures NoiseByte(draws, 4 * p + 3) == 255
  {
    IntensityInRange(draws[p]);
    assert (4 * p) / 4 == p && (4 * p) % 4 == 0;
    assert (4 * p + 1) / 4 == p && (4 * p + 1) % 4 == 1;
    assert (4 * p + 2) / 4 == p && (4 * p + 2) % 4 == 2;
    assert (4 * p + 3) % 4 == 3;
  }

  /** The loop of `createNoiseTexture`: one draw per pixel, written to R, G
      and B, with alpha 255. The random source is the sequence of draws. */
  method CreateNoiseData(draws: seq<real>) returns (data: array<byte>)
    requires |draws| == NoisePixels
    requires forall i :: 0 <= i < |draws| ==> 0.0 <= draws[i] < 1.0
    ensures data.Length == NoiseBytes
    ensures forall k :: 0 <= k < data.Length ==> data[k] == NoiseByte(draws, k)
    ensures forall p :: 0 <= p < NoisePixels ==> GreyOpaquePixel(data[..], p)
  {
    data := new byte[NoiseBytes](_ => 0);
    var i := 0;
    ghost var pixel := 0;
    while i < NoiseSize * NoiseSize * 4
      invariant i == 4 * pixel && pixel <= NoisePixels
      invariant forall k :: 0 <= k < i ==> data[k] == NoiseByte(draws, k)
    {
      NoisePixel(draws, pixel);
      var intensity := Intensity(draws[i / 4]);
      data[i] := intensity as byte;
      data[i + 1] := intensity as byte;
      data[i + 2] := intensity as byte;
      data[i + 3] := 255;
      i, pixel := i + 4, pixel + 1;
    }
    forall p | 0 <= p < NoisePixels
      ensures GreyOpaquePixel(data[..], p)
    {
      NoisePixel(draws, p);
    }
  }

  /** `createNoiseTexture`: a 256 x 256 RGBA texture over the noise buffer. */
  method CreateNoiseTexture(draws: seq<real>) returns (texture: DataTexture)
    requires |draws| == NoisePixels
    requires forall i :: 0 <= i < |draws| ==> 0.0 <= draws[i] < 1.0
    ensures texture.width == NoiseSize && texture.height == NoiseSize && texture.needsUpdate
    ensures |texture.data| == texture.width * texture.height * 4
    ensures forall p :: 0 <= p < NoisePixels ==> GreyOpaquePixel(texture.data, p)
  {
    var data := CreateNoiseData(draws);
    texture := DataTexture(data[..], NoiseSize, NoiseSize, true);
  }

  /** `createTimeTexture`: a 1 x 1 RGBA texture, fully white and opaque. */
  function CreateTimeTexture(): (texture: DataTexture)
    ensures texture.width == 1 && texture.height == 1 && texture.needsUpdate
    ensures |texture.data| == texture.width * texture.height * 4
    ensures forall k :: 0 <= k < |texture.data| ==> texture.data[k] == 255
  {
    DataTexture([255, 255, 255, 255], 1, 1, true)
  }

  class WebcamShaderEffect {
    const gpu: TextureRegistry
    /** Whether `shaderRef.current` is set when the effects and ticks run. */
    const shaderAttached: bool
    /** Whether the mount effect got past its guard (and so left a cleanup). */
    var mounted: bool
    var fireTexture: Option<TextureId>
    var fireData: Option<DataTexture>
    var timeTexture: Option<TextureId>
    var timeData: Option<DataTexture>
    /** `webcamTextureRef.current` */
    var webcamTextureRef: Option<TextureId>
    /** The `webcamTexture` uniform. */
    var webcamUniform: Option<TextureId>
    /** The `time` uniform. */
    var time: real

    ghost predicate Valid()
      reads this, gpu
    {
      && gpu.Valid()
      && webcamUniform == webcamTextureRef
      && (webcamTextureRef.Some? ==> webcamTextureRef.value in gpu.created)
      && (mounted <==> fireTexture.Some?)
      && (mounted <==> timeTexture.Some?)
      && (mounted ==> shaderAttached && fireTexture.value in gpu.created && timeTexture.value in gpu.created)
    }

    constructor (attached: bool)
      ensures Valid() && fresh(gpu)
      ensures shaderAttached == attached && !mounted
      ensures webcamTextureRef == None && gpu.created == {} && gpu.log == []
    {
      gpu := new TextureRegistry();
      shaderAttached := attached;
      mounted := false;
      fireTexture, fireData, timeTexture, timeData := None, None, None, None;
      webcamTextureRef, webcamUniform := None, None;
      time := 0.0;
    }

    /** The mount effect: create the fire (noise) and time textures. */
    method MountEffect(draws: seq<real>)
      requires Valid() && !mounted
      requires |draws| == NoisePixels
      requires forall i :: 0 <= i < |draws| ==> 0.0 <= draws[i] < 1.0
      modifies this, gpu
      ensures Valid()
      ensures mounted == shaderAttached
      ensures mounted ==> (
        && gpu.created == old(gpu.created) + {fireTexture.value, timeTexture.value}
        && fireTexture.value != timeTexture.value
        && fireData.Some? && fireData.value.width == NoiseSize && |fireData.value.data| == NoiseBytes
        && (forall p :: 0 <= p < NoisePixels ==> GreyOpaquePixel(fireData.value.data, p))
        && timeData == Some(CreateTimeTexture())
        && gpu.log == old(gpu.log) + [Created(fireTexture.value), Created(timeTexture.value)])
      ensures !mounted ==> gpu.log == old(gpu.log)
      ensures webcamTextureRef == old(webcamTextureRef)
    {
      if !shaderAttached {
        return;
      }
      var noise := CreateNoiseTexture(draws);
      var fire := gpu.Create();
      fireTexture, fireData := Some(fire), Some(noise);
      var timeTex := gpu.Create();
      timeTexture, timeData := Some(timeTex), Some(CreateTimeTexture());
      mounted := true;
    }

    /** The mount effect's cleanup: dispose the fire, time and webcam textures. */
    method UnmountCleanup()
      requires Valid()
      modifies this, gpu
      ensures Valid()
      ensures old(mounted) ==> (gpu.disposed == old(gpu.disposed) + {old(fireTexture).value, old(timeTexture).value}
        + (if old(webcamTextureRef).Some? then {old(webcamTextureRef).value} else {}))
      ensures !old(mounted) ==> gpu.log == old(gpu.log)
      ensures gpu.created == old(gpu.created)
      ensures webcamTextureRef == old(webcamTextureRef) && mounted == old(mounted)
    {
      if !mounted {
        return;
      }
      gpu.Dispose(fireTexture.value);
      gpu.Dispose(timeTexture.value);
      if webcamTextureRef.Some? {
        gpu.Dispose(webcamTextureRef.value);
      }
    }

    /** The effect on the webcam element's ready state: dispose the current
        webcam texture, then create a new one only if the element has current
        data. When it has not, the ref keeps the disposed texture. */
    method WebcamEffect(webcamVideo: Option<ReadyState>)
      requires Valid()
      modifies this, gpu
      ensures Valid()
      ensures !shaderAttached || webcamVideo.None? ==> gpu.log == old(gpu.log) && webcamTextureRef == old(webcamTextureRef)
      ensures shaderAttached && webcamVideo.Some? && webcamVideo.value >= HaveCurrentData ==>
        && webcamTextureRef.Some? && webcamTextureRef.value !in old(gpu.created)
        && gpu.log == old(gpu.log)
           + (if old(webcamTextureRef).Some? then [Disposed(old(webcamTextureRef).value)] else [])
           + [Created(webcamTextureRef.value)]
      ensures shaderAttached && webcamVideo.Some? && webcamVideo.value < HaveCurrentData ==>
        && webcamTextureRef == old(webcamTextureRef)
        && gpu.created == old(gpu.created)
        && (webcamTextureRef.Some? ==> webcamTextureRef.value in gpu.disposed)
      ensures mounted == old(mounted) && fireTexture == old(fireTexture) && timeTexture == old(timeTexture)
    {
      if !shaderAttached || webcamVideo.None? {
        return;
      }
      if webcamTextureRef.Some? {
        gpu.Dispose(webcamTextureRef.value);
      }
      if webcamVideo.value >= HaveCurrentData {
        var texture := gpu.Create();
        webcamTextureRef := Some(texture);
        webcamUniform := Some(texture);
      }
    }

    /** The `useFrame` callback: update the time uniform; with current data,
        create the webcam texture if there is none, otherwise only mark the
        existing one dirty. */
    method FrameTick(elapsed: real, webcamVideo: Option<ReadyState>)
      requires Valid()
      modifies this, gpu
      ensures Valid()
      ensures gpu.disposed == old(gpu.disposed)
      ensures shaderAttached ==> time == elapsed
      ensures !(shaderAttached && webcamVideo.Some? && webcamVideo.value >= HaveCurrentData) ==>
        gpu.log == old(gpu.log) && webcamTextureRef == old(webcamTextureRef)
      ensures shaderAttached && webcamVideo.Some? && webcamVideo.value >= HaveCurrentData ==>
        if old(webcamTextureRef).None? then
          webcamTextureRef.Some? && webcamTextureRef.value !in old(gpu.created)
          && gpu.log == old(gpu.log) + [Created(webcamTextureRef.value)]
        else
          webcamTextureRef == old(webcamTextureRef) && gpu.created == old(gpu.created)
          && gpu.log == old(gpu.log) + [Refreshed(webcamTextureRef.value)]
      ensures mounted == old(mounted) && fireTexture == old(fireTexture) && timeTexture == old(timeTexture)
    {
      if !shaderAttached {
        return;
      }
      time := elapsed;
      if webcamVideo.Some? && webcamVideo.value >= HaveCurrentData {
        if webcamTextureRef.None? {
          var texture := gpu.Create();
          webcamTextureRef := Some(texture);
          webcamUniform := Some(texture);
        } else {
          gpu.Refresh(webcamTextureRef.value);
        }
      }
    }
  }

  /** The ready state drops below HAVE_CURRENT_DATA after a texture exists:
      the effect disposes it but keeps it in the ref, and later ticks only
      mark that disposed texture dirty instead of creating a new one. */
  method DisposedTextureStaysInRef() returns (ghost stale: TextureId, ghost lastEvent: GpuEvent, ghost isDisposed: bool)
    ensures lastEvent == Refreshed(stale) && isDisposed
  {
    var effect := new WebcamShaderEffect(true);
    effect.WebcamEffect(Some(HaveEnoughData));
    stale := effect.webcamTextureRef.value;
    effect.WebcamEffect(Some(HaveMetadata));
    effect.FrameTick(1.0, Some(HaveEnoughData));
    lastEvent := effect.gpu.log[|effect.gpu.log| - 1];
    isDisposed := stale in effect.gpu.disposed;
  }
}
