/**
 * `ConsoleMusicHost` of music_host_console.py, in the configuration where
 * the backend modules are missing and the file's own stand-ins are used: a
 * stub Bluetooth manager whose four devices all count as audio, and capture
 * and stream-processor stubs that do nothing.
 *
 * The text the user types at each prompt is a parameter; printing, the
 * pauses and the statistics that need the clock are left out.
 */
module MusicHostConsole {
  import opened Wrappers
  import opened Text
  import opened Lists
  import opened Menu

  /** The stand-in `WindowsBluetoothDevice`: every instance is an audio device. */
  class StubDevice {
    const name: string
    const address: string
    const deviceType: string
    const isAudioDevice: bool := true
    var isConnected: bool

    constructor (name: string, address: string, deviceType: string, connected: bool)
      ensures this.name == name && this.address == address && this.deviceType == deviceType
      ensures isConnected == connected
    {
      this.name := name;
      this.address := address;
      this.deviceType := deviceType;
      this.isConnected := connected;
    }
  }

  /** The names and addresses of the four devices the stub discovery reports. */
  const StubNames: seq<string> := ["JBL Charge 4", "Sony WH-1000XM4", "Samsung Galaxy Buds", "AirPods Pro"]
  const StubAddresses: seq<string> := ["XX:XX:XX:XX:XX:01", "XX:XX:XX:XX:XX:02", "XX:XX:XX:XX:XX:03", "XX:XX:XX:XX:XX:04"]

  /** `[d for d in devices if not d.is_connected]`. */
  function Available(ds: seq<StubDevice>): (r: seq<StubDevice>)
    reads ds
    ensures |r| <= |ds|
    ensures forall i :: 0 <= i < |r| ==> !r[i].isConnected && r[i] in ds
    ensures forall i :: 0 <= i < |ds| && !ds[i].isConnected ==> ds[i] in r
    ensures Subsequence(r, ds)
  {
    if ds == [] then []
    else
      var rest := Available(ds[1..]);
      assert forall i :: 1 <= i < |ds| ==> ds[i] == ds[1..][i - 1];
      var r := (if !ds[0].isConnected then [ds[0]] else []) + rest;
      assert !ds[0].isConnected ==> r[0] == ds[0] && r[1..] == rest;
      assert ds[0].isConnected ==> r == rest && Subsequence(rest, ds);
      r
  }

  /** The stand-in `EnhancedBluetoothManager`. */
  class StubBluetoothManager {
    var devices: seq<StubDevice>
    var connectedDevices: seq<StubDevice>

    /** The connected list has no duplicates, and every device on it has its flag set. */
    ghost predicate Valid()
      reads this, connectedDevices
    {
      NoDuplicates(connectedDevices) && forall i :: 0 <= i < |connectedDevices| ==> connectedDevices[i].isConnected
    }

    constructor ()
      ensures Valid() && devices == [] && connectedDevices == []
    {
      devices := [];
      connectedDevices := [];
    }

    /** `discover_devices`: the device list is replaced by four new, unconnected devices. */
    method DiscoverDevices() returns (r: seq<StubDevice>)
      requires Valid()
      modifies this
      ensures Valid() && r == devices && connectedDevices == old(connectedDevices)
      ensures |devices| == 4
      ensures forall i :: 0 <= i < 4 ==>
                fresh(devices[i]) && devices[i].name == StubNames[i] && devices[i].address == StubAddresses[i]
                && devices[i].deviceType == "Speaker" && !devices[i].isConnected
    {
      var d0 := new StubDevice(StubNames[0], StubAddresses[0], "Speaker", false);
      var d1 := new StubDevice(StubNames[1], StubAddresses[1], "Speaker", false);
      var d2 := new StubDevice(StubNames[2], StubAddresses[2], "Speaker", false);
      var d3 := new StubDevice(StubNames[3], StubAddresses[3], "Speaker", false);
      devices := [d0, d1, d2, d3];
      r := devices;
    }

    /** `get_device_by_name`: the first device with that name, or null when none has it. */
    method GetDeviceByName(name: string) returns (r: StubDevice?)
      ensures r == null <==> forall i :: 0 <= i < |devices| ==> devices[i].name != name
      ensures r != null ==> exists i :: 0 <= i < |devices| && devices[i] == r && r.name == name
                                        && forall j :: 0 <= j < i ==> devices[j].name != name
    {
      var i := 0;
      while i < |devices|
        invariant 0 <= i <= |devices|
        invariant forall j :: 0 <= j < i ==> devices[j].name != name
      {
        if devices[i].name == name {
          return devices[i];
        }
        i := i + 1;
      }
      return null;
    }

    /** `connect_device`: appended and flagged only when absent; always true. */
    method ConnectDevice(device: StubDevice) returns (ok: bool)
      requires Valid()
      modifies this, device
      ensures Valid() && ok
      ensures devices == old(devices)
      ensures connectedDevices == if device in old(connectedDevices) then old(connectedDevices)
                                  else old(connectedDevices) + [device]
      ensures device.isConnected
    {
      if device !in connectedDevices {
        AppendFresh(connectedDevices, device);
        connectedDevices := connectedDevices + [device];
        device.isConnected := true;
      } else {
        var k :| 0 <= k < |connectedDevices| && connectedDevices[k] == device;
      }
      ok := true;
    }

    /** `disconnect_device`: removed and unflagged only when present; always true. */
    method DisconnectDevice(device: StubDevice) returns (ok: bool)
      requires Valid()
      modifies this, device
      ensures Valid() && ok
      ensures devices == old(devices)
      ensures connectedDevices == RemoveFirst(old(connectedDevices), device)
      ensures device !in connectedDevices
      ensures device in old(connectedDevices) ==> !device.isConnected
      ensures device !in old(connectedDevices) ==> device.isConnected == old(device.isConnected)
    {
      var before := connectedDevices;
      if device in before {
        var rest := RemoveFirst(before, device);
        RemoveFirstExact(before, device);
        assert forall i :: 0 <= i < |rest| ==> rest[i] != device && rest[i].isConnected by {
          forall i | 0 <= i < |rest| ensures rest[i] != device && rest[i].isConnected {
            assert rest[i] in rest;
            assert rest[i] in before;
            var k :| 0 <= k < |before| && before[k] == rest[i];
          }
        }
        device.isConnected := false;
        connectedDevices := rest;
      }
      ok := true;
    }

    /** `get_connected_audio_devices`: the connected devices that are audio devices, in order. */
    function ConnectedAudioDevices(): (r: seq<StubDevice>)
      reads this
    {
      Filter(connectedDevices, (d: StubDevice) => d.isAudioDevice)
    }

    /** Every stub device is an audio device, so the audio filter keeps the whole connected list. */
    lemma ConnectedAudioIsConnected()
      ensures ConnectedAudioDevices() == connectedDevices
    {
      FilterAll(connectedDevices, (d: StubDevice) => d.isAudioDevice);
    }
  }

  /** `start_streaming` accepts an empty answer, `y` or `yes`, after stripping and lowercasing. */
  predicate Confirms(answer: string) {
    Lower(Strip(answer)) in ["", "y", "yes"]
  }

  class ConsoleMusicHost {
    var isStreaming: bool
    var currentVolume: int
    var devicesDiscovered: nat
    var devicesConnected: nat
    const manager: StubBluetoothManager

    /** The volume stays in 0..100 and the manager's connected list stays consistent. */
    ghost predicate Valid()
      reads this, manager, manager.connectedDevices
    {
      0 <= currentVolume <= 100 && manager.Valid()
    }

    constructor ()
      ensures Valid() && fresh(manager)
      ensures !isStreaming && currentVolume == 75 && devicesDiscovered == 0 && devicesConnected == 0
      ensures manager.devices == [] && manager.connectedDevices == []
    {
      isStreaming := false;
      currentVolume := 75;
      devicesDiscovered := 0;
      devicesConnected := 0;
      manager := new StubBluetoothManager();
    }

    /** `discover_devices`: the stub reports four devices, which the statistics record. */
    method DiscoverDevices()
      requires Valid()
      modifies this, manager
      ensures Valid() && devicesDiscovered == 4 && |manager.devices| == 4
      ensures forall i :: 0 <= i < 4 ==>
                fresh(manager.devices[i]) && !manager.devices[i].isConnected
                && manager.devices[i].name == StubNames[i] && manager.devices[i].address == StubAddresses[i]
      ensures manager.connectedDevices == old(manager.connectedDevices)
      ensures isStreaming == old(isStreaming) && currentVolume == old(currentVolume)
      ensures devicesConnected == old(devicesConnected)
    {
      var devices := manager.DiscoverDevices();
      devicesDiscovered := |devices|;
    }

    /**
     * `connect_device`: the user picks one of the unconnected devices by its
     * number; a valid pick connects it and counts one connection, anything
     * else changes nothing.
     */
    method ConnectDevice(choice: string)
      requires Valid()
      modifies this, manager, manager.devices
      ensures Valid()
      ensures manager.devices == old(manager.devices)
      ensures isStreaming == old(isStreaming) && currentVolume == old(currentVolume)
      ensures devicesDiscovered == old(devicesDiscovered)
      ensures ChoiceIndex(choice, |old(Available(manager.devices))|).None? ==>
                devicesConnected == old(devicesConnected) && manager.connectedDevices == old(manager.connectedDevices)
      ensures ChoiceIndex(choice, |old(Available(manager.devices))|).Some? ==>
                var d := old(Available(manager.devices))[ChoiceIndex(choice, |old(Available(manager.devices))|).value];
                devicesConnected == old(devicesConnected) + 1
                && manager.connectedDevices == old(manager.connectedDevices) + [d] && d.isConnected
      ensures forall x :: x in old(manager.devices) && x !in manager.connectedDevices ==>
                x.isConnected == old(x.isConnected)
    {
      var devices := Available(manager.devices);
      if |devices| == 0 {
        return;
      }
      var index := ChoiceIndex(choice, |devices|);
      if index.Some? {
        var device := devices[index.value];
        assert device !in manager.connectedDevices by {
          forall k | 0 <= k < |manager.connectedDevices| ensures manager.connectedDevices[k] != device {
          }
        }
        var success := manager.ConnectDevice(device);
        if success {
          devicesConnected := devicesConnected + 1;
        }
      }
    }

    /** `disconnect_device`: the user picks one of the connected devices by its number. */
    method DisconnectDevice(choice: string)
      requires Valid()
      modifies manager, manager.connectedDevices
      ensures Valid()
      ensures manager.devices == old(manager.devices)
      ensures ChoiceIndex(choice, |old(manager.connectedDevices)|).None? ==>
                manager.connectedDevices == old(manager.connectedDevices)
      ensures ChoiceIndex(choice, |old(manager.connectedDevices)|).Some? ==>
                var d := old(manager.connectedDevices)[ChoiceIndex(choice, |old(manager.connectedDevices)|).value];
                manager.connectedDevices == RemoveFirst(old(manager.connectedDevices), d) && !d.isConnected
    {
      var connected := manager.connectedDevices;
      if |connected| == 0 {
        return;
      }
      var index := ChoiceIndex(choice, |connected|);
      if index.Some? {
        var device := connected[index.value];
        var _ := manager.DisconnectDevice(device);
      }
    }

    /**
     * `start_streaming`: with no connected audio device, or already streaming,
     * nothing changes; otherwise streaming starts when the answer confirms.
     */
    method StartStreaming(answer: string)
      requires Valid()
      modifies this
      ensures Valid()
      ensures isStreaming == (old(isStreaming) || (manager.connectedDevices != [] && Confirms(answer)))
      ensures currentVolume == old(currentVolume) && devicesConnected == old(devicesConnected)
      ensures devicesDiscovered == old(devicesDiscovered)
    {
      var audioDevices := manager.ConnectedAudioDevices();
      manager.ConnectedAudioIsConnected();
      if |audioDevices| == 0 {
        return;
      }
      if isStreaming {
        return;
      }
      if Confirms(answer) {
        isStreaming := true;
      }
    }

    /** `stop_streaming`: streaming ends; when it was off nothing changes. */
    method StopStreaming()
      requires Valid()
      modifies this
      ensures Valid() && !isStreaming
      ensures currentVolume == old(currentVolume) && devicesConnected == old(devicesConnected)
      ensures devicesDiscovered == old(devicesDiscovered)
    {
      if !isStreaming {
        return;
      }
      isStreaming := false;
    }

    /** `adjust_volume`: an integer in 0..100 replaces the volume; anything else is refused. */
    method AdjustVolume(input: string)
      requires Valid()
      modifies this
      ensures Valid()
      ensures currentVolume == if ParseInt(input).Some? && 0 <= ParseInt(input).value <= 100
                               then ParseInt(input).value else old(currentVolume)
      ensures isStreaming == old(isStreaming) && devicesConnected == old(devicesConnected)
      ensures devicesDiscovered == old(devicesDiscovered)
    {
      var newVolume := Strip(input);
      StripIdempotent(input);
      if newVolume == "" {
        return;
      }
      var volume := ParseInt(newVolume);
      if volume.Some? && 0 <= volume.value <= 100 {
        currentVolume := volume.value;
      }
    }
  }
}
