/**
 * `AudioStreamProcessor` of MusicHostByNadeemal_Portable/audio_capture.py: a
 * duplicate-free list of target devices, a streaming flag, and a sample buffer
 * that keeps only the newest two seconds of audio.
 */
module AudioCapture {
  import opened Lists

  function Min(a: int, b: int): int { if a <= b then a else b }
  function Max(a: int, b: int): int { if a <= b then b else a }

  /** Python's slice `buf[start:]`, with Python's treatment of negative and out-of-range starts. */
  function SliceFrom<S>(buf: seq<S>, start: int): (r: seq<S>)
    ensures |r| <= |buf| && r == buf[|buf| - |r|..]
  {
    if start >= 0 then buf[Min(start, |buf|)..] else buf[Max(|buf| + start, 0)..]
  }

  /**
   * The trimming step of `process_audio_data`: when the buffer is longer than
   * `maxSize` it becomes `buf[-maxSize:]`.
   */
  function TrimBuffer<S>(buf: seq<S>, maxSize: int): (r: seq<S>)
    // whatever the bound, what is kept is the newest part, in order
    ensures |r| <= |buf| && r == buf[|buf| - |r|..]
    // a positive bound is respected, and nothing more than needed is dropped
    ensures maxSize > 0 ==> |r| == Min(|buf|, maxSize)
    // a buffer within the bound is untouched
    ensures |buf| <= maxSize ==> r == buf
    // `buf[-0:]` is the whole list, so a zero bound keeps everything
    ensures maxSize == 0 ==> r == buf
    // a negative bound drops the oldest `-maxSize` samples
    ensures maxSize < 0 ==> r == buf[Min(-maxSize, |buf|)..]
  {
    if |buf| > maxSize then SliceFrom(buf, -maxSize) else buf
  }

  /** Process and manage the audio stream sent to Bluetooth devices. */
  class AudioStreamProcessor<D(==), S> {
    var connectedDevices: seq<D>
    var isStreaming: bool
    var audioBuffer: seq<S>

    ghost predicate Valid()
      reads this
    {
      NoDuplicates(connectedDevices)
    }

    constructor ()
      ensures Valid()
      ensures connectedDevices == [] && !isStreaming && audioBuffer == []
    {
      connectedDevices := [];
      isStreaming := false;
      audioBuffer := [];
    }

    /** `add_device`: appended at the end unless already present. */
    method AddDevice(device: D)
      requires Valid()
      modifies this
      ensures Valid()
      ensures device in connectedDevices
      ensures connectedDevices == if device in old(connectedDevices) then old(connectedDevices)
                                  else old(connectedDevices) + [device]
      ensures isStreaming == old(isStreaming) && audioBuffer == old(audioBuffer)
    {
      if device !in connectedDevices {
        AppendFresh(connectedDevices, device);
        connectedDevices := connectedDevices + [device];
      }
    }

    /** `remove_device`: the device is removed if present; the others keep their order. */
    method RemoveDevice(device: D)
      requires Valid()
      modifies this
      ensures Valid()
      ensures connectedDevices == RemoveFirst(old(connectedDevices), device)
      ensures device !in connectedDevices
      ensures forall d :: d in connectedDevices <==> d in old(connectedDevices) && d != device
      ensures Subsequence(connectedDevices, old(connectedDevices))
      ensures isStreaming == old(isStreaming) && audioBuffer == old(audioBuffer)
    {
      RemoveFirstExact(connectedDevices, device);
      RemoveFirstSubsequence(connectedDevices, device);
      if device in connectedDevices {
        connectedDevices := RemoveFirst(connectedDevices, device);
      }
    }

    /**
     * `process_audio_data`: extend the buffer, trim it to `sampleRate * channels * 2`
     * samples, and hand the chunk to every device when streaming. The result is
     * the devices the chunk was handed to, in order.
     */
    method ProcessAudioData(audioData: seq<S>, sampleRate: int, channels: int) returns (sentTo: seq<D>)
      modifies this
      ensures audioBuffer == TrimBuffer(old(audioBuffer) + audioData, sampleRate * channels * 2)
      ensures connectedDevices == old(connectedDevices) && isStreaming == old(isStreaming)
      ensures sentTo == if isStreaming && connectedDevices != [] then connectedDevices else []
    {
      audioBuffer := audioBuffer + audioData;
      var maxBufferSize := sampleRate * channels * 2;
      if |audioBuffer| > maxBufferSize {
        audioBuffer := SliceFrom(audioBuffer, -maxBufferSize);
      }
      sentTo := [];
      if isStreaming && |connectedDevices| > 0 {
        sentTo := StreamToDevices(audioData);
      }
    }

    /** `_stream_to_devices`: one send per connected device, in list order. */
    method StreamToDevices(audioData: seq<S>) returns (sentTo: seq<D>)
      ensures sentTo == connectedDevices
    {
      sentTo := [];
      var i := 0;
      while i < |connectedDevices|
        invariant 0 <= i <= |connectedDevices|
        invariant sentTo == connectedDevices[..i]
      {
        sentTo := sentTo + [connectedDevices[i]];
        i := i + 1;
      }
    }

    method StartStreaming()
      modifies this
      ensures isStreaming
      ensures connectedDevices == old(connectedDevices) && audioBuffer == old(audioBuffer)
    {
      isStreaming := true;
    }

    method StopStreaming()
      modifies this
      ensures !isStreaming
      ensures connectedDevices == old(connectedDevices) && audioBuffer == old(audioBuffer)
    {
      isStreaming := false;
    }

    method GetDeviceCount() returns (n: nat)
      ensures n == |connectedDevices|
    {
      n := |connectedDevices|;
    }

    method ClearDevices()
      modifies this
      ensures Valid()
      ensures connectedDevices == []
      ensures isStreaming == old(isStreaming) && audioBuffer == old(audioBuffer)
    {
      connectedDevices := [];
    }
  }

  /** After any number of chunks the buffer never exceeds a positive bound. */
  lemma {:induction false} BufferStaysBounded<S>(buf: seq<S>, chunks: seq<seq<S>>, maxSize: int)
    requires maxSize > 0 && |buf| <= maxSize
    ensures |FeedAll(buf, chunks, maxSize)| <= maxSize
    decreases |chunks|
  {
    if chunks != [] {
      BufferStaysBounded(TrimBuffer(buf + chunks[0], maxSize), chunks[1..], maxSize);
    }
  }

  /** The buffer after a sequence of `process_audio_data` calls with the same format. */
  function FeedAll<S>(buf: seq<S>, chunks: seq<seq<S>>, maxSize: int): seq<S>
    decreases |chunks|
  {
    if chunks == [] then buf else FeedAll(TrimBuffer(buf + chunks[0], maxSize), chunks[1..], maxSize)
  }

  /** Trimming twice with the same bound is trimming once. */
  lemma TrimIdempotent<S>(buf: seq<S>, maxSize: int)
    requires maxSize >= 0
    ensures TrimBuffer(TrimBuffer(buf, maxSize), maxSize) == TrimBuffer(buf, maxSize)
  {
  }
}
