/**
 * `WindowsBluetoothDevice` and `EnhancedBluetoothManager` of enhanced_bluetooth.py
 * (the copy under MusicHostByNadeemal_Portable/ is the same file).
 *
 * Background workers become sequential methods: the outcome of the PowerShell
 * discovery command and of each connect or disconnect attempt is a parameter,
 * and the clock reading `time.time()` is the parameter `now`.
 */
module EnhancedBluetooth {
  import opened Wrappers
  import opened Text
  import opened Lists

  /** The keywords `_is_audio_device` looks for. */
  const AudioKeywords: seq<string> :=
    ["speaker", "headphone", "headset", "earphone", "earbud", "airpod",
     "beats", "bose", "sony", "jbl", "audio", "sound", "music"]

  /** The `any(...)` of `_is_audio_device` from keyword `i` on: one of them occurs in `nameLower` or in `typeLower`. */
  predicate AnyKeywordFrom(i: nat, nameLower: string, typeLower: string)
    decreases |AudioKeywords| - i
  {
    i < |AudioKeywords|
    && (KeywordMatch(i, nameLower, typeLower) || AnyKeywordFrom(i + 1, nameLower, typeLower))
  }

  /** Keyword `j` occurs in the lowercased name or in the lowercased type. */
  predicate KeywordMatch(j: nat, nameLower: string, typeLower: string)
    requires j < |AudioKeywords|
  {
    Contains(nameLower, AudioKeywords[j]) || Contains(typeLower, AudioKeywords[j])
  }

  /** `_is_audio_device`, on the lowercased name and type. */
  predicate IsAudioDevice(name: string, deviceType: string) {
    AnyKeywordFrom(0, Lower(name), Lower(deviceType))
  }

  /** The scan from keyword `i` finds a match exactly when one of the remaining keywords occurs. */
  lemma {:induction false} AnyKeywordFromIff(i: nat, nameLower: string, typeLower: string)
    ensures AnyKeywordFrom(i, nameLower, typeLower) <==>
            exists j :: i <= j < |AudioKeywords| && KeywordMatch(j, nameLower, typeLower)
    decreases |AudioKeywords| - i
  {
    if i < |AudioKeywords| {
      AnyKeywordFromIff(i + 1, nameLower, typeLower);
    }
  }

  /** A device is an audio device exactly when one of the 13 keywords occurs in its lowercased name or type. */
  lemma IsAudioDeviceIff(name: string, deviceType: string)
    ensures IsAudioDevice(name, deviceType) <==>
            exists i :: 0 <= i < |AudioKeywords|
                        && (Contains(Lower(name), AudioKeywords[i]) || Contains(Lower(deviceType), AudioKeywords[i]))
  {
    AnyKeywordFromIff(0, Lower(name), Lower(deviceType));
  }

  /** Classification ignores case: lowercasing the inputs first changes nothing. */
  lemma IsAudioDeviceCaseInsensitive(name: string, deviceType: string)
    ensures IsAudioDevice(Lower(name), Lower(deviceType)) == IsAudioDevice(name, deviceType)
  {
    LowerIdempotent(name);
    LowerIdempotent(deviceType);
  }

  /** Classification is monotone: adding text around the name or the type never loses a match. */
  lemma IsAudioDeviceExtend(name: string, deviceType: string,
                            nameBefore: string, nameAfter: string,
                            typeBefore: string, typeAfter: string)
    requires IsAudioDevice(name, deviceType)
    ensures IsAudioDevice(nameBefore + name + nameAfter, typeBefore + deviceType + typeAfter)
  {
    IsAudioDeviceIff(name, deviceType);
    IsAudioDeviceIff(nameBefore + name + nameAfter, typeBefore + deviceType + typeAfter);
    var i :| 0 <= i < |AudioKeywords|
             && (Contains(Lower(name), AudioKeywords[i]) || Contains(Lower(deviceType), AudioKeywords[i]));
    var k := AudioKeywords[i];
    LowerAppend(nameBefore, name);
    LowerAppend(nameBefore + name, nameAfter);
    LowerAppend(typeBefore, deviceType);
    LowerAppend(typeBefore + deviceType, typeAfter);
    if Contains(Lower(name), k) {
      ContainsExtend(Lower(name), k, Lower(nameBefore), Lower(nameAfter));
      assert Contains(Lower(nameBefore + name + nameAfter), k);
    } else {
      ContainsExtend(Lower(deviceType), k, Lower(typeBefore), Lower(typeAfter));
      assert Contains(Lower(typeBefore + deviceType + typeAfter), k);
    }
  }

  /** The values a device holds besides its audio flag, which `Valid` ties to the name and type. */
  datatype DeviceState = DeviceState(
    name: string, address: string, deviceType: string, isConnected: bool,
    signalStrength: string, lastSeen: real)

  /** A device dictionary as stored in the known-devices file; a missing key is `None`. */
  datatype DeviceDict = DeviceDict(
    name: Option<string>, address: Option<string>, deviceType: Option<string>,
    isConnected: Option<bool>, isAudioDevice: Option<bool>,
    signalStrength: Option<string>, lastSeen: Option<real>)

  /**
   * The device `load_known_devices` rebuilds from one dictionary: `None` where
   * `data['name']`, `data['address']` or `data['type']` raises `KeyError`; the
   * other keys fall back to their defaults. The stored `is_audio_device` is
   * ignored: the constructor recomputes it.
   */
  function FromDict(d: DeviceDict, now: real): Option<DeviceState> {
    if d.name.None? || d.address.None? || d.deviceType.None? then None
    else Some(DeviceState(
      d.name.value, d.address.value, d.deviceType.value, d.isConnected.GetOr(false),
      d.signalStrength.GetOr("Unknown"), d.lastSeen.GetOr(now)))
  }

  class BluetoothDevice {
    const name: string
    const address: string
    const deviceType: string
    const isAudioDevice: bool
    var isConnected: bool
    var signalStrength: string
    var lastSeen: real

    /** The audio flag is fixed at construction from the name and the type. */
    ghost predicate Valid() {
      isAudioDevice == IsAudioDevice(name, deviceType)
    }

    constructor (name: string, address: string, deviceType: string, isConnected: bool, now: real)
      ensures Valid()
      ensures State() == DeviceState(name, address, deviceType, isConnected, "Unknown", now)
    {
      this.name := name;
      this.address := address;
      this.deviceType := deviceType;
      this.isConnected := isConnected;
      this.isAudioDevice := IsAudioDevice(name, deviceType);
      this.signalStrength := "Unknown";
      this.lastSeen := now;
    }

    function State(): DeviceState
      reads this
    {
      DeviceState(name, address, deviceType, isConnected, signalStrength, lastSeen)
    }

    /** `to_dict`: every key present. */
    function ToDict(): DeviceDict
      reads this
    {
      DeviceDict(Some(name), Some(address), Some(deviceType), Some(isConnected),
                 Some(isAudioDevice), Some(signalStrength), Some(lastSeen))
    }
  }

  /** Rebuilding a device from its `to_dict` as `load_known_devices` does gives back every field. */
  lemma ToDictRoundTrip(device: BluetoothDevice, now: real)
    requires device.Valid()
    ensures FromDict(device.ToDict(), now) == Some(device.State())
    ensures device.ToDict().isAudioDevice == Some(IsAudioDevice(device.name, device.deviceType))
  {
  }

  /** Every device of `ds` carries the audio flag its name and type give. */
  ghost predicate AudioFlagsHold(ds: seq<BluetoothDevice>) {
    forall j :: 0 <= j < |ds| ==> ds[j].Valid()
  }

  /** One accepted line of the discovery command's output. */
  datatype ParsedDevice = ParsedDevice(name: string, id: string, deviceType: string, connected: bool)

  /**
   * The line rule of `_real_discovery_worker`: the line must contain `|` and
   * split into at least four fields; the stripped first field must be neither
   * empty nor `"None"`; the connected flag is the stripped, lowercased fourth
   * field compared with `"true"`.
   */
  function ParseDiscoveryLine(line: string): Option<ParsedDevice> {
    if !Contains(line, "|") then None
    else
      var parts := Split(line, "|");
      if |parts| < 4 then None
      else
        var name := Strip(parts[0]);
        if name == "" || name == "None" then None
        else Some(ParsedDevice(name, Strip(parts[1]), Strip(parts[2]), Lower(Strip(parts[3])) == "true"))
  }

  /** The accepted lines, in order. */
  function ParseLines(lines: seq<string>): seq<ParsedDevice> {
    FilterMap(lines, ParseDiscoveryLine)
  }

  /** `result.stdout.strip().split('\n')`, parsed line by line. */
  function ParseDiscoveryOutput(stdout: string): seq<ParsedDevice> {
    ParseLines(Split(Strip(stdout), "\n"))
  }

  /** The three devices `_simulated_discovery_devices` adds. */
  const FallbackDevices: seq<ParsedDevice> := [
    ParsedDevice("JBL Charge 4", "XX:XX:XX:XX:XX:01", "Speaker", false),
    ParsedDevice("Sony WH-1000XM4", "XX:XX:XX:XX:XX:02", "Headphones", false),
    ParsedDevice("Samsung Galaxy Buds", "XX:XX:XX:XX:XX:03", "Earbuds", false)
  ]

  /** What the PowerShell call did: it finished with a return code and an output, or it raised. */
  datatype CommandOutcome = Completed(returnCode: int, stdout: string) | Raised

  /** The devices a discovery run adds: the parsed output, or the simulated fallback. */
  function DiscoveryResult(outcome: CommandOutcome): seq<ParsedDevice> {
    if outcome.Completed? && outcome.returnCode == 0 && Strip(outcome.stdout) != []
    then ParseDiscoveryOutput(outcome.stdout)
    else FallbackDevices
  }

  /** The state of the device built for a parsed line at time `now`. */
  function NewDeviceState(p: ParsedDevice, now: real): DeviceState {
    DeviceState(p.name, p.id, p.deviceType, p.connected, "Unknown", now)
  }

  /** The devices `ds` hold, in order, the states built from `found` at time `now`. */
  ghost predicate StatesMatch(ds: seq<BluetoothDevice>, found: seq<ParsedDevice>, now: real)
    reads ds
  {
    |ds| == |found| && forall j :: 0 <= j < |ds| ==> ds[j].State() == NewDeviceState(found[j], now)
  }

  /** Parsing a concatenation of outputs is concatenating their parses: line order is kept. */
  lemma ParseLinesAppend(a: seq<string>, b: seq<string>)
    ensures ParseLines(a + b) == ParseLines(a) + ParseLines(b)
  {
    FilterMapAppend(a, b, ParseDiscoveryLine);
  }

  /** The first four `|`-fields of `name|id|type|flag` followed by `rest`. */
  lemma SplitFourFields(name: string, id: string, deviceType: string, flag: string, rest: string)
    requires '|' !in name && '|' !in id && '|' !in deviceType && '|' !in flag
    requires rest == [] || rest[0] == '|'
    ensures var parts := Split(name + "|" + id + "|" + deviceType + "|" + flag + rest, "|");
            |parts| >= 4 && parts[0] == name && parts[1] == id && parts[2] == deviceType && parts[3] == flag
  {
    FirstField(flag, rest);
    var r3 := flag + rest;
    SplitJoinChar(deviceType, '|', r3);
    SplitJoinChar(id, '|', deviceType + "|" + r3);
    SplitJoinChar(name, '|', id + "|" + (deviceType + "|" + r3));
    Regroup(name, "|", id, deviceType, flag, rest);
  }

  /** A `|`-free field followed by nothing or by `|...` is the first field. */
  lemma FirstField(flag: string, rest: string)
    requires '|' !in flag
    requires rest == [] || rest[0] == '|'
    ensures var parts := Split(flag + rest, "|"); |parts| >= 1 && parts[0] == flag
  {
    if rest == [] {
      assert flag + rest == flag;
      SplitNoChar(flag, '|');
    } else {
      assert flag + rest == flag + "|" + rest[1..];
      SplitJoinChar(flag, '|', rest[1..]);
    }
  }

  lemma Regroup<T>(a: seq<T>, sep: seq<T>, b: seq<T>, c: seq<T>, d: seq<T>, e: seq<T>)
    ensures a + sep + (b + sep + (c + sep + (d + e))) == a + sep + b + sep + c + sep + d + e
  {
  }

  /**
   * A line of four `|`-free fields, optionally followed by more `|`-separated
   * text, is accepted with its fields stripped; whatever follows the fourth
   * field is ignored.
   */
  lemma ParseFourFields(name: string, id: string, deviceType: string, flag: string, rest: string)
    requires '|' !in name && '|' !in id && '|' !in deviceType && '|' !in flag
    requires rest == [] || rest[0] == '|'
    requires Strip(name) != "" && Strip(name) != "None"
    ensures ParseDiscoveryLine(name + "|" + id + "|" + deviceType + "|" + flag + rest)
         == Some(ParsedDevice(Strip(name), Strip(id), Strip(deviceType), Lower(Strip(flag)) == "true"))
  {
    var line := name + "|" + id + "|" + deviceType + "|" + flag + rest;
    assert line[|name|] == '|';
    NotContainsChar(line, '|');
    SplitFourFields(name, id, deviceType, flag, rest);
  }

  /** The powershell script prints `$Name|$Id|Unknown|false`: such a line gives a disconnected device of type `Unknown`. */
  lemma ParseEmittedLine(name: string, id: string)
    requires '|' !in name && '|' !in id
    requires Strip(name) != "" && Strip(name) != "None"
    ensures ParseDiscoveryLine(name + "|" + id + "|Unknown|false")
         == Some(ParsedDevice(Strip(name), Strip(id), "Unknown", false))
  {
    assert name + "|" + id + "|Unknown|false" == name + "|" + id + "|" + "Unknown" + "|" + "false" + [];
    ParseFourFields(name, id, "Unknown", "false", []);
    EmittedFieldsStripped();
  }

  lemma EmittedFieldsStripped()
    ensures Strip("Unknown") == "Unknown" && Lower(Strip("false")) == "false"
  {
    StripUnchanged("Unknown");
    StripUnchanged("false");
    LowerUnchanged("false");
  }

  /** A line of exactly two `|`-free fields is dropped: it has fewer than four parts. */
  lemma ParseTwoFieldsRejected(a: string, b: string)
    requires '|' !in a && '|' !in b
    ensures ParseDiscoveryLine(a + "|" + b) == None
  {
    SplitJoinChar(a, '|', b);
    SplitNoChar(b, '|');
  }

  /** A line of exactly three `|`-free fields is dropped: it has fewer than four parts. */
  lemma ParseThreeFieldsRejected(a: string, b: string, c: string)
    requires '|' !in a && '|' !in b && '|' !in c
    ensures ParseDiscoveryLine(a + "|" + b + "|" + c) == None
  {
    var line := a + "|" + b + "|" + c;
    assert line == a + "|" + (b + "|" + c);
    SplitJoinChar(a, '|', b + "|" + c);
    SplitJoinChar(b, '|', c);
    SplitNoChar(c, '|');
  }

  /** A line without `|` is dropped. */
  lemma ParseNoBarRejected(line: string)
    requires '|' !in line
    ensures ParseDiscoveryLine(line) == None
  {
    NotContainsChar(line, '|');
  }

  /**
   * A line of four or more fields whose stripped name is empty or `None` is
   * dropped, such as `|id|Unknown|false` printed for an unnamed device.
   */
  lemma ParseNamelessRejected(name: string, id: string, deviceType: string, flag: string, rest: string)
    requires '|' !in name && '|' !in id && '|' !in deviceType && '|' !in flag
    requires rest == [] || rest[0] == '|'
    requires Strip(name) == "" || Strip(name) == "None"
    ensures ParseDiscoveryLine(name + "|" + id + "|" + deviceType + "|" + flag + rest) == None
  {
    var line := name + "|" + id + "|" + deviceType + "|" + flag + rest;
    assert line[|name|] == '|';
    NotContainsChar(line, '|');
    SplitFourFields(name, id, deviceType, flag, rest);
  }

  /**
   * `ds` is `base` followed by one device per entry of `found`, in order, each
   * holding the state built from that entry and the audio flag its name and type give.
   */
  ghost predicate ExtendsWith(base: seq<BluetoothDevice>, found: seq<ParsedDevice>, now: real, ds: seq<BluetoothDevice>)
    reads ds
  {
    |base| <= |ds| && ds[..|base|] == base
    && StatesMatch(ds[|base|..], found, now) && AudioFlagsHold(ds[|base|..])
  }

  lemma ExtendsEmpty(base: seq<BluetoothDevice>, now: real)
    ensures ExtendsWith(base, [], now, base)
  {
    assert base[|base|..] == [];
  }

  /** Appending the device built for `p` extends the correspondence by one entry. */
  lemma ExtendsSnoc(base: seq<BluetoothDevice>, ds: seq<BluetoothDevice>, found: seq<ParsedDevice>,
                    device: BluetoothDevice, p: ParsedDevice, now: real)
    requires ExtendsWith(base, found, now, ds)
    requires device.State() == NewDeviceState(p, now) && device.Valid()
    ensures ExtendsWith(base, found + [p], now, ds + [device])
  {
    var ds' := ds + [device];
    assert ds'[..|base|] == ds[..|base|];
    assert ds'[|base|..] == ds[|base|..] + [device];
  }

  class EnhancedBluetoothManager {
    var devices: seq<BluetoothDevice>
    var connectedDevices: seq<BluetoothDevice>
    var isDiscovering: bool

    /** `devices` is `base` followed by the devices built from `found`. */
    ghost predicate Extends(base: seq<BluetoothDevice>, found: seq<ParsedDevice>, now: real)
      reads this, devices
    {
      ExtendsWith(base, found, now, devices)
    }

    /**
     * Neither list holds a device twice (every discovered or loaded device is a
     * new object), and the connected list holds only devices whose flag is set.
     */
    ghost predicate Valid()
      reads this, connectedDevices
    {
      NoDuplicates(devices) && NoDuplicates(connectedDevices)
      && (forall d :: d in connectedDevices ==> d.isConnected)
    }

    constructor ()
      ensures Valid()
      ensures devices == [] && connectedDevices == [] && !isDiscovering
    {
      devices := [];
      connectedDevices := [];
      isDiscovering := false;
    }

    /**
     * `discover_devices`: while a discovery runs it returns the current list and
     * changes nothing; otherwise it sets the flag and empties `devices`, leaving
     * `connected_devices` alone. The worker is `RealDiscoveryWorker`.
     */
    method DiscoverDevices() returns (r: seq<BluetoothDevice>)
      requires Valid()
      modifies this
      ensures Valid()
      ensures isDiscovering && r == devices
      ensures devices == if old(isDiscovering) then old(devices) else []
      ensures connectedDevices == old(connectedDevices)
    {
      if isDiscovering {
        return devices;
      }
      isDiscovering := true;
      devices := [];
      r := devices;
    }

    /**
     * `_real_discovery_worker`: the devices of every accepted line are appended
     * in line order, or the three fallback devices when the command failed,
     * printed nothing or raised; the discovery flag is cleared at the end.
     */
    method RealDiscoveryWorker(outcome: CommandOutcome, now: real)
      requires Valid()
      modifies this
      ensures Valid()
      ensures !isDiscovering && connectedDevices == old(connectedDevices)
      ensures Extends(old(devices), DiscoveryResult(outcome), now)
      ensures forall i :: |old(devices)| <= i < |devices| ==> fresh(devices[i])
    {
      if outcome.Completed? && outcome.returnCode == 0 && Strip(outcome.stdout) != [] {
        AppendParsedLines(Split(Strip(outcome.stdout), "\n"), ParseDiscoveryLine, now);
      } else {
        SimulatedDiscoveryDevices(now);
      }
      isDiscovering := false;
    }

    /**
     * The loop of `_real_discovery_worker`: one new device per line that
     * `parse` accepts, in line order.
     */
    method AppendParsedLines(lines: seq<string>, parse: string -> Option<ParsedDevice>, now: real)
      requires Valid()
      modifies this
      ensures Valid()
      ensures isDiscovering == old(isDiscovering) && connectedDevices == old(connectedDevices)
      ensures Extends(old(devices), FilterMap(lines, parse), now)
      ensures forall i :: |old(devices)| <= i < |devices| ==> fresh(devices[i])
    {
      ghost var base := devices;
      ExtendsEmpty(base, now);
      assert Extends(base, [], now);
      var i := 0;
      while i < |lines|
        invariant 0 <= i <= |lines|
        invariant Valid() && connectedDevices == old(connectedDevices) && isDiscovering == old(isDiscovering)
        invariant Extends(base, FilterMap(lines[..i], parse), now)
        invariant forall j :: |base| <= j < |devices| ==> fresh(devices[j])
      {
        var parsed := parse(lines[i]);
        FilterMapSnoc(lines, i, parse);
        if parsed.Some? {
          var device := AppendDevice(parsed.value, now, base, FilterMap(lines[..i], parse));
        }
        i := i + 1;
      }
      assert lines[..i] == lines;
    }

    /** `_simulated_discovery_devices`: the three fallback devices are appended. */
    method SimulatedDiscoveryDevices(now: real)
      requires Valid()
      modifies this
      ensures Valid()
      ensures isDiscovering == old(isDiscovering) && connectedDevices == old(connectedDevices)
      ensures Extends(old(devices), FallbackDevices, now)
      ensures forall i :: |old(devices)| <= i < |devices| ==> fresh(devices[i])
    {
      ghost var base := devices;
      ExtendsEmpty(base, now);
      assert Extends(base, [], now);
      var i := 0;
      while i < |FallbackDevices|
        invariant 0 <= i <= |FallbackDevices|
        invariant Valid() && connectedDevices == old(connectedDevices) && isDiscovering == old(isDiscovering)
        invariant Extends(base, FallbackDevices[..i], now)
        invariant forall j :: |base| <= j < |devices| ==> fresh(devices[j])
      {
        assert FallbackDevices[..i + 1] == FallbackDevices[..i] + [FallbackDevices[i]];
        var device := AppendDevice(FallbackDevices[i], now, base, FallbackDevices[..i]);
        i := i + 1;
      }
      assert FallbackDevices[..i] == FallbackDevices;
    }

    /** One new device, as the worker builds it for a parsed line, appended to `devices`. */
    method AppendDevice(p: ParsedDevice, now: real, ghost base: seq<BluetoothDevice>, ghost found: seq<ParsedDevice>)
      returns (device: BluetoothDevice)
      requires Valid() && Extends(base, found, now)
      modifies this
      ensures Valid()
      ensures isDiscovering == old(isDiscovering) && connectedDevices == old(connectedDevices)
      ensures fresh(device) && devices == old(devices) + [device]
      ensures device.State() == NewDeviceState(p, now) && device.Valid()
      ensures Extends(base, found + [p], now)
    {
      device := new BluetoothDevice(p.name, p.id, p.deviceType, p.connected, now);
      devices := devices + [device];
      ExtendsSnoc(base, old(devices), found, device, p, now);
    }

    /**
     * `connect_device` followed by its worker: an already connected device is
     * left alone; otherwise the attempt's `success` decides. The result is always true.
     */
    method ConnectDevice(device: BluetoothDevice, success: bool) returns (r: bool)
      requires Valid()
      modifies this, device
      ensures Valid() && r
      ensures old(device.isConnected) ==> connectedDevices == old(connectedDevices)
      ensures !old(device.isConnected) && success ==>
                device.isConnected && connectedDevices == AddAbsent(old(connectedDevices), device)
      ensures !old(device.isConnected) && !success ==> connectedDevices == old(connectedDevices)
      ensures device.isConnected == (old(device.isConnected) || success)
      ensures devices == old(devices) && isDiscovering == old(isDiscovering)
      ensures device.signalStrength == old(device.signalStrength) && device.lastSeen == old(device.lastSeen)
    {
      if device.isConnected {
        return true;
      }
      ConnectWorker(device, success);
      r := true;
    }

    /** `_connect_worker`: on success the flag is set and the device appended unless already listed. */
    method ConnectWorker(device: BluetoothDevice, success: bool)
      requires Valid()
      modifies this, device
      ensures Valid()
      ensures success ==> device.isConnected && connectedDevices == AddAbsent(old(connectedDevices), device)
      ensures !success ==> connectedDevices == old(connectedDevices) && device.isConnected == old(device.isConnected)
      ensures devices == old(devices) && isDiscovering == old(isDiscovering)
      ensures device.signalStrength == old(device.signalStrength) && device.lastSeen == old(device.lastSeen)
    {
      if success {
        device.isConnected := true;
        if device !in connectedDevices {
          AppendFresh(connectedDevices, device);
          connectedDevices := connectedDevices + [device];
        }
      }
    }

    /**
     * `disconnect_device` followed by its worker: a device that is not
     * connected is left alone; otherwise the attempt's `success` decides. The
     * result is always true.
     */
    method DisconnectDevice(device: BluetoothDevice, success: bool) returns (r: bool)
      requires Valid()
      modifies this, device
      ensures Valid() && r
      ensures !old(device.isConnected) ==> connectedDevices == old(connectedDevices)
      ensures old(device.isConnected) && success ==>
                !device.isConnected && connectedDevices == RemoveFirst(old(connectedDevices), device)
      ensures old(device.isConnected) && !success ==> connectedDevices == old(connectedDevices)
      ensures device.isConnected == (old(device.isConnected) && !success)
      ensures device !in connectedDevices <== !device.isConnected
      ensures devices == old(devices) && isDiscovering == old(isDiscovering)
      ensures device.signalStrength == old(device.signalStrength) && device.lastSeen == old(device.lastSeen)
    {
      if !device.isConnected {
        return true;
      }
      DisconnectWorker(device, success);
      r := true;
    }

    /** `_disconnect_worker`: on success the flag is cleared and the device removed. */
    method DisconnectWorker(device: BluetoothDevice, success: bool)
      requires Valid()
      modifies this, device
      ensures Valid()
      ensures success ==> !device.isConnected && device !in connectedDevices
      ensures success ==> connectedDevices == RemoveFirst(old(connectedDevices), device)
      ensures success ==> forall d :: d in connectedDevices <==> d in old(connectedDevices) && d != device
      ensures !success ==> connectedDevices == old(connectedDevices) && device.isConnected == old(device.isConnected)
      ensures devices == old(devices) && isDiscovering == old(isDiscovering)
      ensures device.signalStrength == old(device.signalStrength) && device.lastSeen == old(device.lastSeen)
    {
      if success {
        RemoveFirstExact(connectedDevices, device);
        device.isConnected := false;
        if device in connectedDevices {
          connectedDevices := RemoveFirst(connectedDevices, device);
        }
      }
    }

    /** `get_connected_devices`: a copy, so later changes to it cannot reach the manager. */
    method GetConnectedDevices() returns (r: seq<BluetoothDevice>)
      ensures r == connectedDevices
    {
      r := connectedDevices;
    }

    /** `get_audio_devices`: the audio devices among `devices`, in their order. */
    function AudioDevices(): (r: seq<BluetoothDevice>)
      reads this
      ensures forall i :: 0 <= i < |r| ==> r[i] in devices && r[i].isAudioDevice
      ensures forall i :: 0 <= i < |devices| && devices[i].isAudioDevice ==> devices[i] in r
      ensures Subsequence(r, devices)
    {
      FilterPositions(devices, IsAudio);
      FilterSubsequence(devices, IsAudio);
      Filter(devices, IsAudio)
    }

    /** `get_connected_audio_devices`: the audio devices among `connected_devices`, in their order. */
    function ConnectedAudioDevices(): (r: seq<BluetoothDevice>)
      reads this
      ensures forall i :: 0 <= i < |r| ==> r[i] in connectedDevices && r[i].isAudioDevice
      ensures forall i :: 0 <= i < |connectedDevices| && connectedDevices[i].isAudioDevice ==> connectedDevices[i] in r
      ensures Subsequence(r, connectedDevices)
    {
      FilterPositions(connectedDevices, IsAudio);
      FilterSubsequence(connectedDevices, IsAudio);
      Filter(connectedDevices, IsAudio)
    }

    method StopDiscovery()
      modifies this
      ensures !isDiscovering
      ensures devices == old(devices) && connectedDevices == old(connectedDevices)
    {
      isDiscovering := false;
    }

    /** `send_audio_to_device`: refused unless the device is connected and an audio device. */
    method SendAudioToDevice(device: BluetoothDevice, audioData: seq<bv8>) returns (ok: bool)
      ensures ok <==> device.isConnected && device.isAudioDevice
    {
      if !device.isConnected || !device.isAudioDevice {
        return false;
      }
      ok := true;
    }

    /**
     * `send_audio_to_all`: the number of connected audio devices that accept
     * the chunk. In a valid manager every one of them does.
     */
    method SendAudioToAll(audioData: seq<bv8>) returns (successCount: nat)
      requires Valid()
      ensures successCount == CountSendable(ConnectedAudioDevices())
      ensures successCount == |ConnectedAudioDevices()|
    {
      var targets := ConnectedAudioDevices();
      successCount := 0;
      var i := 0;
      while i < |targets|
        invariant 0 <= i <= |targets|
        invariant successCount == CountSendable(targets[..i])
      {
        assert targets[..i + 1][..i] == targets[..i];
        var ok := SendAudioToDevice(targets[i], audioData);
        if ok {
          successCount := successCount + 1;
        }
        i := i + 1;
      }
      assert targets[..i] == targets;
      ConnectedAudioAllSendable();
    }

    /** In a valid manager every connected audio device accepts audio. */
    lemma ConnectedAudioAllSendable()
      requires Valid()
      ensures CountSendable(ConnectedAudioDevices()) == |ConnectedAudioDevices()|
    {
      var targets := ConnectedAudioDevices();
      assert forall i :: 0 <= i < |targets| ==> targets[i] in connectedDevices;
      AllSendable(targets);
    }

    /** `get_device_by_address`: the first device with that address, or null when there is none. */
    method GetDeviceByAddress(address: string) returns (r: BluetoothDevice?)
      ensures r == null ==> forall i :: 0 <= i < |devices| ==> devices[i].address != address
      ensures r != null ==> exists i :: 0 <= i < |devices| && devices[i] == r && r.address == address
                              && forall j :: 0 <= j < i ==> devices[j].address != address
    {
      var i := 0;
      while i < |devices|
        invariant 0 <= i <= |devices|
        invariant forall j :: 0 <= j < i ==> devices[j].address != address
      {
        if devices[i].address == address {
          return devices[i];
        }
        i := i + 1;
      }
      r := null;
    }

    /** `get_device_by_name`: the first device with that name, or null when there is none. */
    method GetDeviceByName(name: string) returns (r: BluetoothDevice?)
      ensures r == null ==> forall i :: 0 <= i < |devices| ==> devices[i].name != name
      ensures r != null ==> exists i :: 0 <= i < |devices| && devices[i] == r && r.name == name
                              && forall j :: 0 <= j < i ==> devices[j].name != name
    {
      var i := 0;
      while i < |devices|
        invariant 0 <= i <= |devices|
        invariant forall j :: 0 <= j < i ==> devices[j].name != name
      {
        if devices[i].name == name {
          return devices[i];
        }
        i := i + 1;
      }
      r := null;
    }

    /**
     * `load_known_devices` after the file has been read: `stored` is `None` when
     * the file is missing or unreadable. Otherwise `devices` is emptied and one
     * device rebuilt per dictionary, as `FromDict` says; a dictionary lacking a
     * required key stops the load with the devices rebuilt so far, and the
     * result is false.
     */
    method LoadKnownDevices(stored: Option<seq<DeviceDict>>, now: real) returns (ok: bool)
      requires Valid()
      modifies this
      ensures Valid()
      ensures connectedDevices == old(connectedDevices) && isDiscovering == old(isDiscovering)
      ensures stored.None? ==> !ok && devices == old(devices)
      ensures stored.Some? ==> |devices| <= |stored.value|
      ensures stored.Some? ==> forall i :: 0 <= i < |devices| ==>
                fresh(devices[i]) && FromDict(stored.value[i], now) == Some(devices[i].State())
      ensures stored.Some? ==> (ok <==> |devices| == |stored.value|)
      ensures stored.Some? && !ok ==> FromDict(stored.value[|devices|], now).None?
      ensures stored.Some? ==> AudioFlagsHold(devices)
    {
      if stored.None? {
        return false;
      }
      var data := stored.value;
      devices := [];
      var i := 0;
      while i < |data|
        invariant 0 <= i <= |data|
        invariant Valid() && connectedDevices == old(connectedDevices) && isDiscovering == old(isDiscovering)
        invariant |devices| == i
        invariant forall j :: 0 <= j < i ==> fresh(devices[j]) && FromDict(data[j], now) == Some(devices[j].State())
        invariant AudioFlagsHold(devices)
      {
        var d := data[i];
        if d.name.None? || d.address.None? || d.deviceType.None? {
          return false;
        }
        var device := RebuildDevice(d, now);
        devices := devices + [device];
        i := i + 1;
      }
      ok := true;
    }
  }

  /** The body of the loading loop for one dictionary that has the three required keys. */
  method RebuildDevice(d: DeviceDict, now: real) returns (device: BluetoothDevice)
    requires d.name.Some? && d.address.Some? && d.deviceType.Some?
    ensures fresh(device) && device.Valid()
    ensures FromDict(d, now) == Some(device.State())
  {
    device := new BluetoothDevice(d.name.value, d.address.value, d.deviceType.value,
                                  d.isConnected.GetOr(false), now);
    device.signalStrength := d.signalStrength.GetOr("Unknown");
    device.lastSeen := d.lastSeen.GetOr(now);
  }

  function IsAudio(d: BluetoothDevice): bool { d.isAudioDevice }

  /** The list after `if device not in list: list.append(device)`. */
  function AddAbsent<T(==)>(s: seq<T>, x: T): (r: seq<T>)
    ensures x in r && forall i :: 0 <= i < |s| ==> s[i] in r
    ensures forall i :: 0 <= i < |r| ==> r[i] in s || r[i] == x
    ensures NoDuplicates(s) ==> NoDuplicates(r)
  {
    if x in s then s else AppendFresh2(s, x); s + [x]
  }

  lemma AppendFresh2<T>(s: seq<T>, x: T)
    requires x !in s
    ensures NoDuplicates(s) ==> NoDuplicates(s + [x])
  {
  }

  /** How many of `ds` are connected audio devices, counted from the front. */
  function CountSendable(ds: seq<BluetoothDevice>): (n: nat)
    reads ds
    ensures n <= |ds|
  {
    if ds == [] then 0
    else
      var last := ds[|ds| - 1];
      CountSendable(ds[..|ds| - 1]) + (if last.isConnected && last.isAudioDevice then 1 else 0)
  }

  lemma {:induction false} AllSendable(ds: seq<BluetoothDevice>)
    requires forall i :: 0 <= i < |ds| ==> ds[i].isConnected && ds[i].isAudioDevice
    ensures CountSendable(ds) == |ds|
  {
    if ds != [] {
      AllSendable(ds[..|ds| - 1]);
    }
  }

  /** The three fallback devices all count as audio devices. */
  lemma FallbackDevicesAreAudio()
    ensures forall i :: 0 <= i < |FallbackDevices| ==>
              IsAudioDevice(FallbackDevices[i].name, FallbackDevices[i].deviceType)
  {
    forall i | 0 <= i < |FallbackDevices|
      ensures IsAudioDevice(FallbackDevices[i].name, FallbackDevices[i].deviceType)
    {
      var d := FallbackDevices[i];
      if i == 0 {
        assert d.name == "JBL Charge 4" && d.deviceType == "Speaker";
        JblIsAudio();
      } else if i == 1 {
        assert d.name == "Sony WH-1000XM4" && d.deviceType == "Headphones";
        SonyIsAudio();
      } else {
        assert d.name == "Samsung Galaxy Buds" && d.deviceType == "Earbuds";
        EarbudsIsAudio();
      }
    }
  }

  lemma JblIsAudio()
    ensures IsAudioDevice("JBL Charge 4", "Speaker")
  {
    assert AudioKeywords[9] == "jbl";
    assert Lower("JBL Charge 4"[..3]) == "jbl" by {
      assert "JBL Charge 4"[..3] == "JBL";
    }
    KeywordAtStart("JBL Charge 4", "Speaker", 9);
  }

  lemma SonyIsAudio()
    ensures IsAudioDevice("Sony WH-1000XM4", "Headphones")
  {
    assert AudioKeywords[8] == "sony";
    assert Lower("Sony WH-1000XM4"[..4]) == "sony" by {
      assert "Sony WH-1000XM4"[..4] == "S" + "ony";
      LowerAppend("S", "ony");
      LowerUnchanged("ony");
    }
    KeywordAtStart("Sony WH-1000XM4", "Headphones", 8);
  }

  lemma EarbudsIsAudio()
    ensures IsAudioDevice("Samsung Galaxy Buds", "Earbuds")
  {
    assert AudioKeywords[4] == "earbud";
    assert Lower("Earbuds"[..6]) == "earbud" by {
      assert "Earbuds"[..6] == "E" + "arbud";
      LowerAppend("E", "arbud");
      LowerUnchanged("arbud");
    }
    KeywordAtStart("Earbuds", "Samsung Galaxy Buds", 4);
    IsAudioDeviceIff("Samsung Galaxy Buds", "Earbuds");
  }

  /** A name that starts with a keyword, in any case, is an audio device. */
  lemma KeywordAtStart(name: string, deviceType: string, i: nat)
    requires i < |AudioKeywords|
    requires |AudioKeywords[i]| <= |name| && Lower(name[..|AudioKeywords[i]|]) == AudioKeywords[i]
    ensures IsAudioDevice(name, deviceType) && Contains(Lower(name), AudioKeywords[i])
  {
    var k := AudioKeywords[i];
    assert Lower(name)[..|k|] == Lower(name[..|k|]);
    assert OccursAt(Lower(name), k, 0);
    ContainsIff(Lower(name), k);
    IsAudioDeviceIff(name, deviceType);
  }
}
