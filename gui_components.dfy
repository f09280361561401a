/**
 * The state kept by `MusicPlayerGUI` in gui_components.py besides its
 * widgets: the rows of the device tree, the lines of the connected-devices
 * list, the song label and the enabled state of the three playback buttons,
 * together with the text each row and line is built from and the address a
 * selected line is read back into. Widgets are represented by what they
 * display; the application controller is represented by the requests the
 * GUI hands to it.
 */
module GuiComponents {
  import opened Wrappers
  import opened Text

  // ---------------------------------------------------------------------------
  // Song label
  // ---------------------------------------------------------------------------

  const MaxTitle: nat := 50

  /** The label text of `update_current_song`. */
  function TruncateTitle(song: string): (r: string)
    ensures |r| <= MaxTitle
    ensures |song| <= MaxTitle ==> r == song
    ensures |song| > MaxTitle ==> |r| == MaxTitle && r[..47] == song[..47] && r[47..] == "..."
  {
    if |song| <= MaxTitle then song else song[..47] + "..."
  }

  /** A displayed title is displayed unchanged: truncating twice is truncating once. */
  lemma TruncateTitleIdempotent(song: string)
    ensures TruncateTitle(TruncateTitle(song)) == TruncateTitle(song)
  {
  }

  // ---------------------------------------------------------------------------
  // Device tree rows
  // ---------------------------------------------------------------------------

  /** A discovered-device dictionary; a missing key is None. */
  datatype DeviceRecord = DeviceRecord(name: Option<string>, address: Option<string>, hasAudio: Option<bool>, rssi: Option<int>)

  /** One tree row: its label and its four value columns. */
  datatype Row = Row(text: string, name: string, address: string, audio: string, signal: string)

  const AudioMark: string := "✓"
  const NoAudioMark: string := "✗"
  const DefaultRssi: int := -100

  /** Row `i` of `update_device_list` for `device`. */
  function RowOf(i: nat, device: DeviceRecord): Row {
    Row(IntToString(i + 1),
        device.name.GetOr("Unknown"),
        device.address.GetOr(""),
        if device.hasAudio.GetOr(false) then AudioMark else NoAudioMark,
        IntToString(device.rssi.GetOr(DefaultRssi)) + " dBm")
  }

  /**
   * What a row shows can be read back: its label is the 1-based position,
   * the audio column is the check mark exactly when the device has audio,
   * and the signal column is the RSSI (-100 when missing) followed by " dBm".
   */
  lemma RowColumns(i: nat, device: DeviceRecord)
    ensures ParseInt(RowOf(i, device).text) == Some(i + 1)
    ensures RowOf(i, device).audio == AudioMark <==> device.hasAudio == Some(true)
    ensures var s := RowOf(i, device).signal;
            |s| > 4 && s[|s| - 4..] == " dBm" && ParseInt(s[..|s| - 4]) == Some(device.rssi.GetOr(DefaultRssi))
  {
    ParseIntOfString(i + 1);
    var n := device.rssi.GetOr(DefaultRssi);
    var s := RowOf(i, device).signal;
    assert s[..|s| - 4] == IntToString(n);
    ParseIntOfString(n);
  }

  // ---------------------------------------------------------------------------
  // Connected-devices list
  // ---------------------------------------------------------------------------

  /** A connected-devices entry: its key and the `name` of its value. */
  datatype ConnectedRecord = ConnectedRecord(address: string, name: Option<string>)

  const Separator: string := " - "

  /** The list line of `update_connected_devices`. */
  function EntryText(device: ConnectedRecord): string {
    device.name.GetOr("Unknown Device") + Separator + device.address
  }

  /** The address `disconnect_selected_device` reads from a list line; "" when it has no separator. */
  function ExtractAddress(line: string): (r: string)
    ensures !Contains(line, Separator) ==> r == ""
  {
    if Contains(line, Separator) then Split(line, Separator)[1] else ""
  }

  /**
   * The name part cannot make the separator appear early: it holds no " - ",
   * and it does not end in " -" (which the separator's own space would complete).
   */
  predicate NameSeparable(name: string) {
    !Contains(name + " ", Separator)
  }

  lemma NameSeparableNoEarly(name: string)
    requires NameSeparable(name)
    ensures NoEarlyOccurrence(name, Separator)
  {
    ContainsIff(name + " ", Separator);
    forall j: nat | j < |name| ensures !OccursAt(name + Separator, Separator, j) {
      var s := name + Separator;
      if j + 3 <= |name| + 1 {
        assert s[j..j + 3] == (name + " ")[j..j + 3];
        assert !OccursAt(name + " ", Separator, j);
      } else {
        assert j + 1 == |name|;
        assert s[j + 1] == ' ' && Separator[1] == '-';
        assert s[j..j + 3][1] != Separator[1];
      }
    }
  }

  /** Reading a list line back gives the address it was built from. */
  lemma ExtractEntryAddress(device: ConnectedRecord)
    requires NameSeparable(device.name.GetOr("Unknown Device")) && !Contains(device.address, Separator)
    ensures ExtractAddress(EntryText(device)) == device.address
  {
    var name := device.name.GetOr("Unknown Device");
    NameSeparableNoEarly(name);
    FindAfter(name, Separator, device.address);
    SplitJoin(name, Separator, device.address);
    SplitNoSeparator(device.address, Separator);
  }

  /** A name ending in " -" is not separable even though it holds no " - ": the address comes back cut. */
  lemma NameEndingInDash()
    ensures !Contains("A -", Separator)
    ensures ExtractAddress(EntryText(ConnectedRecord("B", Some("A -")))) == "- B"
  {
    assert "A -"[..3][0] != Separator[0];
    assert EntryText(ConnectedRecord("B", Some("A -"))) == "A" + Separator + "- B";
    assert NoEarlyOccurrence("A", Separator) by {
      forall j: nat | j < 1 ensures !OccursAt("A" + Separator, Separator, j) {
        assert ("A" + Separator)[0] == 'A';
      }
    }
    FindAfter("A", Separator, "- B");
    SplitJoin("A", Separator, "- B");
    assert "- B"[..3][0] != Separator[0];
    SplitNoSeparator("- B", Separator);
  }

  // ---------------------------------------------------------------------------
  // The window state
  // ---------------------------------------------------------------------------

  datatype ButtonState = Normal | Disabled

  class MusicPlayerGui {
    var discoveredDevices: seq<DeviceRecord>
    /** The rows of the device tree, in insertion order. */
    var deviceRows: seq<Row>
    /** The connected-devices dictionary, as its entries in insertion order. */
    var connectedDevices: seq<ConnectedRecord>
    /** The lines of the connected-devices list box. */
    var connectedLines: seq<string>
    var currentSong: string
    var songLabel: string
    var isPlaying: bool
    var playButton: ButtonState
    var pauseButton: ButtonState
    var stopButton: ButtonState

    /** Every widget shows what its state says, and Pause and Stop are always alike. */
    ghost predicate Valid()
      reads this
    {
      |deviceRows| == |discoveredDevices|
      && (forall i :: 0 <= i < |deviceRows| ==> deviceRows[i] == RowOf(i, discoveredDevices[i]))
      && |connectedLines| == |connectedDevices|
      && (forall i :: 0 <= i < |connectedLines| ==> connectedLines[i] == EntryText(connectedDevices[i]))
      && songLabel == TruncateTitle(currentSong)
      && pauseButton == stopButton
    }

    /** The window opens empty, with "No file loaded" and every playback button disabled. */
    constructor ()
      ensures Valid()
      ensures discoveredDevices == [] && connectedDevices == []
      ensures currentSong == "No file loaded" && songLabel == currentSong && !isPlaying
      ensures playButton == Disabled && pauseButton == Disabled && stopButton == Disabled
    {
      discoveredDevices := [];
      deviceRows := [];
      connectedDevices := [];
      connectedLines := [];
      currentSong := "No file loaded";
      songLabel := "No file loaded";
      isPlaying := false;
      playButton := Disabled;
      pauseButton := Disabled;
      stopButton := Disabled;
    }

    /**
     * `connect_selected_device`: the (address, name) pair handed to the
     * controller for the selected row, which is the discovered device's, with
     * the row's defaults; None without a selection.
     */
    method ConnectSelectedDevice(selection: Option<nat>) returns (request: Option<(string, string)>)
      requires Valid()
      requires selection.Some? ==> selection.value < |deviceRows|
      ensures selection.None? ==> request.None?
      ensures selection.Some? ==>
                var d := discoveredDevices[selection.value];
                request == Some((d.address.GetOr(""), d.name.GetOr("Unknown")))
    {
      if selection.None? {
        return None;
      }
      var row := deviceRows[selection.value];
      return Some((row.address, row.name));
    }

    /**
     * `disconnect_selected_device`: the address handed to the controller for
     * the selected line. It is never empty, and it is the selected entry's key
     * whenever the entry's name and address cannot hide the separator.
     */
    method DisconnectSelectedDevice(selection: Option<nat>) returns (request: Option<string>)
      requires Valid()
      requires selection.Some? ==> selection.value < |connectedLines|
      ensures selection.None? ==> request.None?
      ensures request.Some? ==> request.value != ""
      ensures selection.Some? ==>
                var d := connectedDevices[selection.value];
                NameSeparable(d.name.GetOr("Unknown Device")) && !Contains(d.address, Separator) ==>
                  request == if d.address == "" then None else Some(d.address)
    {
      if selection.None? {
        return None;
      }
      var line := connectedLines[selection.value];
      var address := ExtractAddress(line);
      var d := connectedDevices[selection.value];
      if NameSeparable(d.name.GetOr("Unknown Device")) && !Contains(d.address, Separator) {
        ExtractEntryAddress(d);
      }
      if address == "" {
        return None;
      }
      return Some(address);
    }

    /** `load_music_file`: a successful load enables Play. */
    method LoadMusicFile(success: bool)
      requires Valid()
      modifies this
      ensures Valid()
      ensures playButton == if success then Normal else old(playButton)
      ensures pauseButton == old(pauseButton) && stopButton == old(stopButton) && isPlaying == old(isPlaying)
      ensures discoveredDevices == old(discoveredDevices) && deviceRows == old(deviceRows)
      ensures connectedDevices == old(connectedDevices) && connectedLines == old(connectedLines)
      ensures currentSong == old(currentSong) && songLabel == old(songLabel)
    {
      if success {
        playButton := Normal;
      }
    }

    /** `update_device_list`: the tree is rebuilt, one row per device in order. */
    method UpdateDeviceList(devices: seq<DeviceRecord>)
      requires Valid()
      modifies this
      ensures Valid()
      ensures discoveredDevices == devices
      ensures |deviceRows| == |devices| && forall i :: 0 <= i < |devices| ==> deviceRows[i] == RowOf(i, devices[i])
      ensures connectedDevices == old(connectedDevices) && connectedLines == old(connectedLines)
      ensures currentSong == old(currentSong) && songLabel == old(songLabel) && isPlaying == old(isPlaying)
      ensures playButton == old(playButton) && pauseButton == old(pauseButton) && stopButton == old(stopButton)
    {
      var rows: seq<Row> := [];
      var i := 0;
      while i < |devices|
        invariant 0 <= i <= |devices|
        invariant |rows| == i
        invariant forall j :: 0 <= j < i ==> rows[j] == RowOf(j, devices[j])
      {
        var device := devices[i];
        var audioSupport := if device.hasAudio.GetOr(false) then AudioMark else NoAudioMark;
        var signalStrength := IntToString(device.rssi.GetOr(DefaultRssi)) + " dBm";
        var row := Row(IntToString(i + 1), device.name.GetOr("Unknown"), device.address.GetOr(""), audioSupport, signalStrength);
        assert row == RowOf(i, device);
        rows := rows + [row];
        i := i + 1;
      }
      deviceRows := rows;
      discoveredDevices := devices;
    }

    /** `update_connected_devices`: the list box is rebuilt, one line per entry in order. */
    method UpdateConnectedDevices(devices: seq<ConnectedRecord>)
      requires Valid()
      modifies this
      ensures Valid()
      ensures connectedDevices == devices
      ensures |connectedLines| == |devices| && forall i :: 0 <= i < |devices| ==> connectedLines[i] == EntryText(devices[i])
      ensures discoveredDevices == old(discoveredDevices) && deviceRows == old(deviceRows)
      ensures currentSong == old(currentSong) && songLabel == old(songLabel) && isPlaying == old(isPlaying)
      ensures playButton == old(playButton) && pauseButton == old(pauseButton) && stopButton == old(stopButton)
    {
      var lines: seq<string> := [];
      var i := 0;
      while i < |devices|
        invariant 0 <= i <= |devices|
        invariant |lines| == i
        invariant forall j :: 0 <= j < i ==> lines[j] == EntryText(devices[j])
      {
        var deviceName := devices[i].name.GetOr("Unknown Device");
        lines := lines + [deviceName + " - " + devices[i].address];
        i := i + 1;
      }
      connectedLines := lines;
      connectedDevices := devices;
    }

    /** `update_current_song`: the full title is kept and the label shows it truncated. */
    method UpdateCurrentSong(song: string)
      requires Valid()
      modifies this
      ensures Valid()
      ensures currentSong == song && songLabel == TruncateTitle(song)
      ensures discoveredDevices == old(discoveredDevices) && deviceRows == old(deviceRows)
      ensures connectedDevices == old(connectedDevices) && connectedLines == old(connectedLines)
      ensures isPlaying == old(isPlaying)
      ensures playButton == old(playButton) && pauseButton == old(pauseButton) && stopButton == old(stopButton)
    {
      currentSong := song;
      songLabel := TruncateTitle(song);
    }

    /** `update_playback_controls`: Play is enabled exactly when not playing, Pause and Stop exactly when playing. */
    method UpdatePlaybackControls(playing: bool)
      requires Valid()
      modifies this
      ensures Valid()
      ensures isPlaying == playing
      ensures playButton == Normal <==> !playing
      ensures pauseButton == Normal <==> playing
      ensures stopButton == pauseButton
      ensures discoveredDevices == old(discoveredDevices) && deviceRows == old(deviceRows)
      ensures connectedDevices == old(connectedDevices) && connectedLines == old(connectedLines)
      ensures currentSong == old(currentSong) && songLabel == old(songLabel)
    {
      if playing {
        playButton := Disabled;
        pauseButton := Normal;
        stopButton := Normal;
      } else {
        playButton := Normal;
        pauseButton := Disabled;
        stopButton := Disabled;
      }
      isPlaying := playing;
    }
  }
}
