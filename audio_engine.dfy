/**
 * `AudioEngine` and `AudioSynchronizer` of portable/app/audio_engine.py: the
 * playback flags, the volume and sync-delay clamps, and the per-device
 * latency offsets that line every device up with the slowest one.
 *
 * Seconds and volumes are exact reals. The pygame mixer, the playback and
 * streaming threads and the file system are outside the model; whether the
 * file exists and whether the mixer accepts it are parameters.
 */
module AudioEngine {
  import opened Wrappers

  /** The two playback flags, `is_playing` and `is_paused`. */
  datatype PlaybackFlags = PlaybackFlags(playing: bool, paused: bool)

  /** The flag combinations the methods can reach: paused only while playing. */
  predicate Consistent(f: PlaybackFlags) {
    f.paused ==> f.playing
  }

  /** `pause`: takes effect only on a playing, unpaused engine. */
  function PauseStep(f: PlaybackFlags): (r: PlaybackFlags)
    ensures Consistent(f) ==> Consistent(r)
    ensures r.playing == f.playing
    ensures r.paused <==> f.paused || f.playing
  {
    if f.playing && !f.paused then PlaybackFlags(true, true) else f
  }

  /** `resume`: takes effect only on a playing, paused engine. */
  function ResumeStep(f: PlaybackFlags): (r: PlaybackFlags)
    ensures Consistent(f) ==> Consistent(r)
    ensures r.playing == f.playing
    ensures r.paused <==> f.paused && !f.playing
  {
    if f.playing && f.paused then PlaybackFlags(true, false) else f
  }

  /** Resuming right after a successful pause gives back the playing state. */
  lemma ResumeUndoesPause(f: PlaybackFlags)
    requires f.playing && !f.paused
    ensures ResumeStep(PauseStep(f)) == f
  {
  }

  /** `max(0.0, min(1.0, volume))` as `set_volume` writes it: the volume cut into [0, 1]. */
  function ClampVolume(v: real): (r: real)
    ensures 0.0 <= r <= 1.0
    ensures 0.0 <= v <= 1.0 ==> r == v
    ensures v < 0.0 ==> r == 0.0
    ensures v > 1.0 ==> r == 1.0
  {
    var m := if v < 1.0 then v else 1.0;
    if m > 0.0 then m else 0.0
  }

  /** `max(0.0, delay)` as `set_sync_delay` writes it. */
  function ClampDelay(d: real): (r: real)
    ensures r >= 0.0
    ensures d >= 0.0 ==> r == d
    ensures d < 0.0 ==> r == 0.0
  {
    if d > 0.0 then d else 0.0
  }

  /** Python's truth test `if not self.current_file`: `None` and the empty path are false. */
  predicate FileSet(f: Option<string>) {
    f.Some? && f.value != ""
  }

  class AudioEngine {
    var currentFile: Option<string>
    var isPlaying: bool
    var isPaused: bool
    var volume: real
    var syncDelay: real
    /** `stop_event`, which `stop` sets and `play` clears. */
    var stopRequested: bool

    function Flags(): PlaybackFlags
      reads this
    {
      PlaybackFlags(isPlaying, isPaused)
    }

    /** What every method keeps: the two clamps and consistent flags. */
    ghost predicate Valid()
      reads this
    {
      0.0 <= volume <= 1.0 && syncDelay >= 0.0 && Consistent(Flags())
    }

    constructor ()
      ensures Valid()
      ensures currentFile == None && Flags() == PlaybackFlags(false, false) && !stopRequested
      ensures volume == 0.7 && syncDelay == 0.0
    {
      currentFile := None;
      isPlaying := false;
      isPaused := false;
      volume := 0.7;
      syncDelay := 0.0;
      stopRequested := false;
    }

    /**
     * `load_file`: a missing file is refused with nothing changed; an existing
     * one is recorded before the mixer loads it, so a mixer failure returns
     * false with the path still recorded.
     */
    method LoadFile(filePath: string, fileExists: bool, mixerLoads: bool) returns (ok: bool)
      requires Valid()
      modifies this
      ensures Valid()
      ensures ok <==> fileExists && mixerLoads
      ensures currentFile == if fileExists then Some(filePath) else old(currentFile)
      ensures Flags() == old(Flags()) && volume == old(volume) && syncDelay == old(syncDelay)
      ensures stopRequested == old(stopRequested)
    {
      if !fileExists {
        return false;
      }
      currentFile := Some(filePath);
      ok := mixerLoads;
    }

    /**
     * `play`: without a file it returns false and changes nothing; otherwise a
     * running playback is stopped first and the engine ends playing, unpaused,
     * with the stop event cleared.
     */
    method Play(deviceAddresses: seq<string>) returns (ok: bool)
      requires Valid()
      modifies this
      ensures Valid()
      ensures ok <==> FileSet(currentFile)
      ensures ok ==> Flags() == PlaybackFlags(true, false) && !stopRequested
      ensures !ok ==> Flags() == old(Flags()) && stopRequested == old(stopRequested)
      ensures currentFile == old(currentFile) && volume == old(volume) && syncDelay == old(syncDelay)
    {
      if !FileSet(currentFile) {
        return false;
      }
      if isPlaying {
        Stop();
      }
      stopRequested := false;
      isPlaying := true;
      isPaused := false;
      ok := true;
    }

    method Pause()
      requires Valid()
      modifies this
      ensures Valid()
      ensures Flags() == PauseStep(old(Flags()))
      ensures currentFile == old(currentFile) && volume == old(volume) && syncDelay == old(syncDelay)
      ensures stopRequested == old(stopRequested)
    {
      if isPlaying && !isPaused {
        isPaused := true;
      }
    }

    method Resume()
      requires Valid()
      modifies this
      ensures Valid()
      ensures Flags() == ResumeStep(old(Flags()))
      ensures currentFile == old(currentFile) && volume == old(volume) && syncDelay == old(syncDelay)
      ensures stopRequested == old(stopRequested)
    {
      if isPlaying && isPaused {
        isPaused := false;
      }
    }

    /** `stop`: both flags cleared and the stop event set, whatever the state. */
    method Stop()
      requires Valid()
      modifies this
      ensures Valid()
      ensures Flags() == PlaybackFlags(false, false) && stopRequested
      ensures currentFile == old(currentFile) && volume == old(volume) && syncDelay == old(syncDelay)
    {
      isPlaying := false;
      isPaused := false;
      stopRequested := true;
    }

    method SetVolume(v: real)
      requires Valid()
      modifies this
      ensures Valid()
      ensures volume == ClampVolume(v)
      ensures currentFile == old(currentFile) && Flags() == old(Flags()) && syncDelay == old(syncDelay)
      ensures stopRequested == old(stopRequested)
    {
      volume := ClampVolume(v);
    }

    method SetSyncDelay(d: real)
      requires Valid()
      modifies this
      ensures Valid()
      ensures syncDelay == ClampDelay(d)
      ensures currentFile == old(currentFile) && Flags() == old(Flags()) && volume == old(volume)
      ensures stopRequested == old(stopRequested)
    {
      syncDelay := ClampDelay(d);
    }

    /**
     * `is_file_loaded` tests `is not None`, so an empty path counts as loaded
     * although `play` refuses it.
     */
    method IsFileLoaded() returns (loaded: bool)
      ensures loaded <==> currentFile.Some?
      ensures currentFile == Some("") ==> loaded && !FileSet(currentFile)
    {
      loaded := currentFile.Some?;
    }
  }

  /** The typical Bluetooth audio latency added to a ping, and the default for an uncalibrated device. */
  const DefaultLatency: real := 0.15

  /** `self.device_delays.get(addr, 0.15)`. */
  function DelayOf(delays: map<string, real>, addr: string): real {
    if addr in delays then delays[addr] else DefaultLatency
  }

  /** `max(self.device_delays.get(addr, 0.15) for addr in device_addresses)`. */
  function MaxDelay(delays: map<string, real>, addrs: seq<string>): (m: real)
    requires |addrs| > 0
    ensures forall i :: 0 <= i < |addrs| ==> DelayOf(delays, addrs[i]) <= m
    ensures exists i :: 0 <= i < |addrs| && DelayOf(delays, addrs[i]) == m
  {
    if |addrs| == 1 then DelayOf(delays, addrs[0])
    else
      var rest := MaxDelay(delays, addrs[1..]);
      assert forall i :: 1 <= i < |addrs| ==> addrs[i] == addrs[1..][i - 1];
      if DelayOf(delays, addrs[0]) >= rest then DelayOf(delays, addrs[0]) else rest
  }

  /**
   * `get_sync_delays`: with no calibration every address gets 0.15; otherwise
   * each address gets the maximum delay minus its own. `max` of an empty
   * sequence raises, which is `None` here.
   */
  function SyncDelays(delays: map<string, real>, addrs: seq<string>): (r: Option<map<string, real>>)
    ensures r.Some? <==> delays == map[] || |addrs| > 0
    ensures r.Some? ==> forall a :: a in r.value <==> a in addrs
    ensures delays == map[] ==> r.Some? && forall a :: a in r.value ==> r.value[a] == DefaultLatency
    // every offset is non-negative, every device ends up at the same total delay,
    // and the slowest device waits for nobody
    ensures delays != map[] && r.Some? ==>
              (forall a :: a in r.value ==> r.value[a] >= 0.0)
              && (forall a, b :: a in r.value && b in r.value ==>
                    DelayOf(delays, a) + r.value[a] == DelayOf(delays, b) + r.value[b])
              && (exists a :: a in r.value && r.value[a] == 0.0)
  {
    if delays == map[] then Some(map a | a in addrs :: DefaultLatency)
    else if |addrs| == 0 then None
    else
      var m := MaxDelay(delays, addrs);
      var offsets := map a | a in addrs :: m - DelayOf(delays, a);
      ghost var i :| 0 <= i < |addrs| && DelayOf(delays, addrs[i]) == m;
      assert addrs[i] in offsets && offsets[addrs[i]] == 0.0;
      forall a | a in offsets ensures offsets[a] >= 0.0 {
        var k :| 0 <= k < |addrs| && addrs[k] == a;
        assert DelayOf(delays, addrs[k]) <= m;
      }
      Some(offsets)
  }

  /** For calibrated devices the offset is the gap to the largest delay among the requested addresses. */
  lemma SyncOffsetIsGap(delays: map<string, real>, addrs: seq<string>, a: string)
    requires delays != map[] && a in addrs
    ensures SyncDelays(delays, addrs).Some?
    ensures SyncDelays(delays, addrs).value[a] == MaxDelay(delays, addrs) - DelayOf(delays, a)
  {
  }

  class AudioSynchronizer {
    var deviceDelays: map<string, real>

    constructor ()
      ensures deviceDelays == map[]
    {
      deviceDelays := map[];
    }

    /** `calibrate_device_delay`: the ping plus 150 ms, for that address only, replacing any earlier value. */
    method CalibrateDeviceDelay(deviceAddress: string, pingTime: real)
      modifies this
      ensures deviceDelays == old(deviceDelays)[deviceAddress := pingTime + DefaultLatency]
    {
      deviceDelays := deviceDelays[deviceAddress := pingTime + DefaultLatency];
    }

    method GetSyncDelays(deviceAddresses: seq<string>) returns (r: Option<map<string, real>>)
      ensures r == SyncDelays(deviceDelays, deviceAddresses)
    {
      r := SyncDelays(deviceDelays, deviceAddresses);
    }
  }

  /** Once a device is calibrated, the table is never empty again, so requesting no addresses raises. */
  lemma CalibratedEmptyRequestRaises(delays: map<string, real>, addr: string, ping: real)
    ensures SyncDelays(delays[addr := ping + DefaultLatency], []).None?
  {
    assert addr in delays[addr := ping + DefaultLatency];
  }
}
