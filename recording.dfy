/** What the three canvas recorders share: recorded chunks as byte strings,
    the `ondataavailable` append, the blob built from all chunks, and the
    places where starting a recorder can throw. */
module Recording {
  import opened Browser

  /** The bytes of one `Blob`; its `size` is the length. */
  type Blob = seq<byte>

  /** Identity of a `MediaRecorder`, numbered in creation order. */
  type RecorderId = nat

  /** Where starting a recording can throw: `canvas.captureStream(30)`,
      `new MediaRecorder(...)`, or `recorder.start()`. */
  datatype StartFault = NoFault | CaptureStreamThrows | ConstructorThrows | StartThrows

  /** A file offered for download: the blob's bytes and the anchor's `download` name. */
  datatype Download = Download(content: Blob, fileName: string)

  ghost predicate AllNonEmpty(chunks: seq<Blob>)
  {
    forall i :: 0 <= i < |chunks| ==> |chunks[i]| > 0
  }

  /** Sum of the chunk sizes. */
  function TotalSize(chunks: seq<Blob>): nat
  {
    if chunks == [] then 0 else TotalSize(chunks[..|chunks| - 1]) + |chunks[|chunks| - 1]|
  }

  /** `new Blob(chunks)`: the chunks' bytes one after the other. */
  function Concat(chunks: seq<Blob>): (b: Blob)
    ensures |b| == TotalSize(chunks)
  {
    if chunks == [] then [] else Concat(chunks[..|chunks| - 1]) + chunks[|chunks| - 1]
  }

  /** Where chunk i starts inside the concatenation. */
  function Offset(chunks: seq<Blob>, i: nat): nat
    requires i <= |chunks|
  {
    TotalSize(chunks[..i])
  }

  lemma ConcatAppend(chunks: seq<Blob>, c: Blob)
    ensures Concat(chunks + [c]) == Concat(chunks) + c
  {
    assert (chunks + [c])[..|chunks|] == chunks;
  }

  /** Every chunk appears whole in the blob, at the offset given by the chunks
      before it, so the blob keeps all chunks in arrival order. */
  lemma {:induction false} ConcatKeepsChunksInOrder(chunks: seq<Blob>, i: nat)
    requires i < |chunks|
    ensures Offset(chunks, i) + |chunks[i]| <= |Concat(chunks)|
    ensures Concat(chunks)[Offset(chunks, i)..Offset(chunks, i) + |chunks[i]|] == chunks[i]
    decreases |chunks|
  {
    var init := chunks[..|chunks| - 1];
    assert Concat(chunks) == Concat(init) + chunks[|chunks| - 1];
    if i == |chunks| - 1 {
      assert chunks[..i] == init;
    } else {
      ConcatKeepsChunksInOrder(init, i);
      assert init[..i] == chunks[..i];
      assert init[i] == chunks[i];
      assert TotalSize(init[..i]) + |init[i]| <= |Concat(init)|;
    }
  }

  /** The `ondataavailable` handler: a chunk is appended, at the end, only when
      the event carries data of positive size. */
  function AppendData(chunks: seq<Blob>, data: Option<Blob>): (r: seq<Blob>)
    ensures data.Some? && |data.value| > 0 ==> r == chunks + [data.value]
    ensures data.None? || |data.value| == 0 ==> r == chunks
    ensures AllNonEmpty(chunks) ==> AllNonEmpty(r)
  {
    if data.Some? && |data.value| > 0 then chunks + [data.value] else chunks
  }

  /** What a download produces: nothing without chunks, otherwise one file
      holding every chunk in order. */
  function DownloadOf(chunks: seq<Blob>, fileName: string): (d: Option<Download>)
    ensures d.None? <==> chunks == []
    ensures d.Some? ==> d.value.fileName == fileName && |d.value.content| == TotalSize(chunks)
    ensures d.Some? ==> forall i :: 0 <= i < |chunks| ==>
      Offset(chunks, i) + |chunks[i]| <= |d.value.content| &&
      d.value.content[Offset(chunks, i)..Offset(chunks, i) + |chunks[i]|] == chunks[i]
  {
    if chunks == [] then None
    else
      assert forall i :: 0 <= i < |chunks| ==>
        Offset(chunks, i) + |chunks[i]| <= |Concat(chunks)| &&
        Concat(chunks)[Offset(chunks, i)..Offset(chunks, i) + |chunks[i]|] == chunks[i] by {
        forall i | 0 <= i < |chunks|
          ensures Offset(chunks, i) + |chunks[i]| <= |Concat(chunks)|
          ensures Concat(chunks)[Offset(chunks, i)..Offset(chunks, i) + |chunks[i]|] == chunks[i]
        {
          ConcatKeepsChunksInOrder(chunks, i);
        }
      }
      Some(Download(Concat(chunks), fileName))
  }
}
