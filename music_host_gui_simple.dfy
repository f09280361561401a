/**
 * The string handling of `SimpleMusicHostGUI` in music_host_gui_simple.py:
 * the `name|address|is_audio` lines the discovery helper prints and the
 * parser that reads them back, the list-box text built for each device and
 * the name taken back out of it, plus the connected list and the streaming
 * toggle. The Tk widgets, the message boxes and the helper process are
 * outside the model; the helper's return code and output are parameters.
 */
module MusicHostGuiSimple {
  import opened Wrappers
  import opened Text
  import opened Lists

  /** One parsed discovery line: `{'name': ..., 'address': ..., 'is_audio': ...}`. */
  datatype FoundDevice = FoundDevice(name: string, address: string, isAudio: bool)

  /**
   * The line rule of `_discover_thread`: a line needs a `|` and at least three
   * `|`-separated fields; the fields are taken as they are, and the audio flag
   * is the exact, case-sensitive comparison of the third with `True`.
   */
  function ParseLine(line: string): Option<FoundDevice> {
    if !Contains(line, "|") then None
    else
      var parts := Split(line, "|");
      if |parts| < 3 then None
      else Some(FoundDevice(parts[0], parts[1], parts[2] == "True"))
  }

  /** Python's `str(bool)`. */
  function BoolText(b: bool): string {
    if b then "True" else "False"
  }

  /** The line the helper prints for a device: `f"{name}|{address}|{is_audio}"`. */
  function EmitLine(name: string, address: string, isAudio: bool): string {
    name + "|" + address + "|" + BoolText(isAudio)
  }

  /** A line of three `|`-free fields is read back field by field. */
  lemma ParseThreeFields(a: string, b: string, c: string)
    requires '|' !in a && '|' !in b && '|' !in c
    ensures ParseLine(a + "|" + b + "|" + c) == Some(FoundDevice(a, b, c == "True"))
  {
    var line := a + "|" + b + "|" + c;
    assert line == a + "|" + (b + "|" + c);
    SplitJoinChar(a, '|', b + "|" + c);
    SplitJoinChar(b, '|', c);
    SplitNoChar(c, '|');
    NotContainsChar(line, '|');
    assert line[|a|] == '|';
  }

  /** Parsing what the helper prints gives back the name, the address and the flag. */
  lemma ParseEmitLine(name: string, address: string, isAudio: bool)
    requires '|' !in name && '|' !in address
    ensures ParseLine(EmitLine(name, address, isAudio)) == Some(FoundDevice(name, address, isAudio))
  {
    assert '|' !in BoolText(isAudio);
    ParseThreeFields(name, address, BoolText(isAudio));
  }

  /** The flag is an exact match: `true` or ` True` in the third field read as false. */
  lemma IsAudioExactMatch(a: string, b: string)
    requires '|' !in a && '|' !in b
    ensures ParseLine(a + "|" + b + "|" + "true") == Some(FoundDevice(a, b, false))
    ensures ParseLine(a + "|" + b + "|" + " True") == Some(FoundDevice(a, b, false))
  {
    ParseThreeFields(a, b, "true");
    ParseThreeFields(a, b, " True");
  }

  /** Lines with one or two fields are skipped. */
  lemma ShortLinesSkipped(a: string, b: string)
    requires '|' !in a && '|' !in b
    ensures ParseLine(a) == None
    ensures ParseLine(a + "|" + b) == None
  {
    NotContainsChar(a, '|');
    SplitJoinChar(a, '|', b);
    SplitNoChar(b, '|');
  }

  /**
   * The parsing loop of `_discover_thread`: `None` when the helper failed,
   * otherwise one device per accepted line of the stripped output, in order.
   */
  method ParseDiscoveryOutput(returnCode: int, stdout: string) returns (devices: Option<seq<FoundDevice>>)
    ensures returnCode != 0 ==> devices.None?
    ensures returnCode == 0 ==> devices == Some(FilterMap(Split(Strip(stdout), "\n"), ParseLine))
  {
    if returnCode != 0 {
      return None;
    }
    var lines := Split(Strip(stdout), "\n");
    var found: seq<FoundDevice> := [];
    var i := 0;
    while i < |lines|
      invariant 0 <= i <= |lines|
      invariant found == FilterMap(lines[..i], ParseLine)
    {
      FilterMapSnoc(lines, i, ParseLine);
      var line := lines[i];
      var parsed := ParseLine(line);
      if parsed.Some? {
        found := found + [parsed.value];
      }
      i := i + 1;
    }
    assert lines[..i] == lines;
    return Some(found);
  }

  /** The list icons of `_update_device_list`. */
  const AudioIcon: char := '\U{1F3B5}'
  const OtherIcon: char := '\U{1F4F1}'

  /** `f"{icon} {device['name']} ({device['address']})"`. */
  function DisplayText(isAudio: bool, name: string, address: string): string {
    [if isAudio then AudioIcon else OtherIcon] + " " + name + " (" + address + ")"
  }

  /**
   * `device_text.split(" ", 1)[1].split(" (")[0]` of `connect_device`; text
   * without a space makes the `[1]` raise, which is `None`.
   */
  function ExtractName(text: string): Option<string> {
    var halves := SplitOnce(text, " ");
    if |halves| < 2 then None else Some(Split(halves[1], " (")[0])
  }

  /** A name without `" ("` has no occurrence of `" ("` that starts inside it once `" ("` follows. */
  lemma NoEarlyParen(name: string)
    requires !Contains(name, " (")
    ensures NoEarlyOccurrence(name, " (")
  {
    ContainsIff(name, " (");
    forall j: nat | j < |name| ensures !OccursAt(name + " (", " (", j) {
      var s := name + " (";
      if j + 2 <= |name| {
        assert s[j..j + 2] == name[j..j + 2];
        assert !OccursAt(name, " (", j);
      } else {
        assert s[j + 1] == ' ';
      }
    }
  }

  /** Taking the name back out of the list text gives the name, when the name has no `" ("`. */
  lemma ExtractDisplayName(isAudio: bool, name: string, address: string)
    requires !Contains(name, " (")
    ensures ExtractName(DisplayText(isAudio, name, address)) == Some(name)
  {
    var icon := [if isAudio then AudioIcon else OtherIcon];
    var rest := name + " (" + address + ")";
    var text := DisplayText(isAudio, name, address);
    assert text == icon + " " + rest;
    NoEarlyOccurrenceChar(icon, ' ');
    FindAfter(icon, " ", rest);
    assert SplitOnce(text, " ") == [icon, rest] by {
      assert text[..1] == icon;
      assert text[2..] == rest;
    }
    NoEarlyParen(name);
    assert rest == name + " (" + (address + ")");
    SplitJoin(name, " (", address + ")");
  }

  /** A name that itself contains `" ("` is cut at that point. */
  lemma ExtractNameCutsAtParen(isAudio: bool, first: string, second: string, address: string)
    requires !Contains(first, " (")
    ensures ExtractName(DisplayText(isAudio, first + " (" + second, address)) == Some(first)
  {
    var name := first + " (" + second;
    var icon := [if isAudio then AudioIcon else OtherIcon];
    var rest := name + " (" + address + ")";
    var text := DisplayText(isAudio, name, address);
    assert text == icon + " " + rest;
    NoEarlyOccurrenceChar(icon, ' ');
    FindAfter(icon, " ", rest);
    assert SplitOnce(text, " ") == [icon, rest] by {
      assert text[..1] == icon;
      assert text[2..] == rest;
    }
    NoEarlyParen(first);
    assert rest == first + " (" + (second + " (" + address + ")");
    SplitJoin(first, " (", second + " (" + address + ")");
  }

  class SimpleMusicHostGui {
    /** The names connected so far, in order, repeats included. */
    var connectedDevices: seq<string>
    var isStreaming: bool

    constructor ()
      ensures connectedDevices == [] && !isStreaming
    {
      connectedDevices := [];
      isStreaming := false;
    }

    /**
     * `connect_device`: with a selected row the name taken from its text is
     * appended, without any duplicate check; without a selection, or when the
     * text has no space, nothing changes.
     */
    method ConnectDevice(selection: Option<string>)
      modifies this
      ensures selection.Some? && ExtractName(selection.value).Some? ==>
                connectedDevices == old(connectedDevices) + [ExtractName(selection.value).value]
      ensures !(selection.Some? && ExtractName(selection.value).Some?) ==> connectedDevices == old(connectedDevices)
      ensures isStreaming == old(isStreaming)
    {
      if selection.None? {
        return;
      }
      var deviceName := ExtractName(selection.value);
      if deviceName.None? {
        return;
      }
      connectedDevices := connectedDevices + [deviceName.value];
    }

    /** `toggle_streaming`: flips the flag, but only with at least one connected device. */
    method ToggleStreaming()
      modifies this
      ensures isStreaming == if old(connectedDevices) == [] then old(isStreaming) else !old(isStreaming)
      ensures connectedDevices == old(connectedDevices)
    {
      if |connectedDevices| == 0 {
        return;
      }
      isStreaming := !isStreaming;
    }
  }
}
