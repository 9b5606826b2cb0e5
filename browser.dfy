/** Browser-side values shared by the components: optional values, bytes,
    object URLs with JavaScript truthiness, media ready states and the
    hidden <video> element the texture components create. */
module Browser {

  datatype Option<T> = None | Some(value: T)

  /** One element of a Uint8Array. */
  newtype byte = x: int | 0 <= x < 256

  /** `s.startsWith(prefix)` */
  predicate StartsWith(s: string, prefix: string)
  {
    |prefix| <= |s| && s[..|prefix|] == prefix
  }

  /** The test every revoke site applies before `URL.revokeObjectURL`. */
  predicate IsBlobUrl(url: string)
  {
    StartsWith(url, "blob:")
  }

  /** JavaScript truthiness of a `string | undefined` value: present and non-empty. */
  predicate Truthy(u: Option<string>)
  {
    u.Some? && u.value != ""
  }

  /** A blob URL is never the empty string, so `u && u.startsWith('blob:')`
      is the same test as "present and a blob URL". */
  lemma BlobUrlIsTruthy(u: Option<string>)
    ensures (Truthy(u) && IsBlobUrl(u.value)) <==> (u.Some? && IsBlobUrl(u.value))
  {
  }

  /** HTMLMediaElement.readyState values. */
  type ReadyState = r: nat | r <= 4
  const HaveNothing: ReadyState := 0
  const HaveMetadata: ReadyState := 1
  const HaveCurrentData: ReadyState := 2
  const HaveFutureData: ReadyState := 3
  const HaveEnoughData: ReadyState := 4

  /** The sample clip played when no other source is given. */
  const DefaultVideoUrl: string :=
    "https://bczcghpwiasggfmutqrd.supabase.co/storage/v1/object/public/pointcloudexp//AD_00002.mp4"

  /** The attributes of a <video> element that the components set. */
  datatype VideoElement = VideoElement(
    loop: bool,
    muted: bool,
    crossOrigin: string,
    playsInline: bool,
    src: Option<string>,
    paused: bool)

  /** `document.createElement('video')` followed by the four attribute writes. */
  function HiddenVideo(): (v: VideoElement)
    ensures v.loop && v.muted && v.playsInline && v.crossOrigin == "anonymous"
    ensures v.src == None && v.paused
  {
    VideoElement(true, true, "anonymous", true, None, true)
  }

  /** Identity of a canvas element or of another browser object handed around by reference. */
  type Handle = nat
}
