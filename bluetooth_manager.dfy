/**
 * `BluetoothManager` of bluetooth_manager.py: the address-keyed table of
 * connections, the audio-capability rule applied to discovered devices, and
 * the table of discovered devices.
 *
 * The Bluetooth stack, PowerShell and RFCOMM sockets are outside the model:
 * the result of a connection attempt, whether the disconnect command raised,
 * the inquiry result and each device's service probe are parameters, and the
 * clock reading is `now`.
 */
module BluetoothManager {
  import opened Wrappers
  import opened Text

  /**
   * The A2DP Audio Sink service, class 0x110B on the Bluetooth Base UUID
   * (Bluetooth Core Specification, Vol 3, Part B, section 2.5.1).
   */
  const AudioSinkUuid: string := "0000110b-0000-1000-8000-00805f9b34fb"

  /** The name patterns consulted when no service advertises the Audio Sink class. */
  const NameKeywords: seq<string> := ["speaker", "headphone", "headset", "airpod", "earbud", "audio"]

  /** `uuid.lower() in str(sid).lower()` for the Audio Sink UUID. */
  predicate IsSinkService(serviceId: string) {
    Contains(Lower(serviceId), Lower(AudioSinkUuid))
  }

  /** Python's `any(uuid.lower() in str(sid).lower() for ...)`, scanned from service `i` on. */
  predicate AnySinkService(serviceIds: seq<string>, i: nat)
    decreases |serviceIds| - i
  {
    i < |serviceIds| && (IsSinkService(serviceIds[i]) || AnySinkService(serviceIds, i + 1))
  }

  /** Python's `any(keyword in name.lower() for keyword in audio_keywords)`, from keyword `k` on. */
  predicate AnyNameKeyword(nameLower: string, k: nat)
    decreases |NameKeywords| - k
  {
    k < |NameKeywords| && (Contains(nameLower, NameKeywords[k]) || AnyNameKeyword(nameLower, k + 1))
  }

  /** The `has_audio` rule of `discover_audio_devices` for a device whose probe succeeded. */
  predicate HasAudio(serviceIds: seq<string>, name: string) {
    AnySinkService(serviceIds, 0) || AnyNameKeyword(Lower(name), 0)
  }

  lemma {:induction false} AnySinkServiceIff(serviceIds: seq<string>, i: nat)
    ensures AnySinkService(serviceIds, i) <==>
            exists j :: i <= j < |serviceIds| && IsSinkService(serviceIds[j])
    decreases |serviceIds| - i
  {
    if i < |serviceIds| {
      AnySinkServiceIff(serviceIds, i + 1);
    }
  }

  lemma {:induction false} AnyNameKeywordIff(nameLower: string, k: nat)
    ensures AnyNameKeyword(nameLower, k) <==>
            exists j :: k <= j < |NameKeywords| && Contains(nameLower, NameKeywords[j])
    decreases |NameKeywords| - k
  {
    if k < |NameKeywords| {
      AnyNameKeywordIff(nameLower, k + 1);
    }
  }

  /**
   * A device counts as audio exactly when one of its service ids, lowercased,
   * contains the Audio Sink UUID, or its lowercased name contains one of the
   * six keywords.
   */
  lemma HasAudioIff(serviceIds: seq<string>, name: string)
    ensures HasAudio(serviceIds, name) <==>
            (exists j :: 0 <= j < |serviceIds| && Contains(Lower(serviceIds[j]), Lower(AudioSinkUuid)))
            || (exists k :: 0 <= k < |NameKeywords| && Contains(Lower(name), NameKeywords[k]))
  {
    AnySinkServiceIff(serviceIds, 0);
    AnyNameKeywordIff(Lower(name), 0);
  }

  /** More services, or a longer name, never take the audio capability away. */
  lemma HasAudioExtend(serviceIds: seq<string>, name: string, moreIds: seq<string>, before: string, after: string)
    requires HasAudio(serviceIds, name)
    ensures HasAudio(serviceIds + moreIds, before + name + after)
  {
    HasAudioIff(serviceIds, name);
    HasAudioIff(serviceIds + moreIds, before + name + after);
    if exists j :: 0 <= j < |serviceIds| && Contains(Lower(serviceIds[j]), Lower(AudioSinkUuid)) {
      var j :| 0 <= j < |serviceIds| && Contains(Lower(serviceIds[j]), Lower(AudioSinkUuid));
      assert (serviceIds + moreIds)[j] == serviceIds[j];
    } else {
      var k :| 0 <= k < |NameKeywords| && Contains(Lower(name), NameKeywords[k]);
      LowerAppend(before, name);
      LowerAppend(before + name, after);
      ContainsExtend(Lower(name), NameKeywords[k], Lower(before), Lower(after));
    }
  }

  /** `name or f"Unknown Device ({address})"`. */
  function DisplayName(name: string, address: string): (r: string)
    ensures |r| > 0
    ensures name != "" ==> r == name
    ensures name == "" ==> r == "Unknown Device (" + address + ")"
  {
    if name != "" then name else "Unknown Device (" + address + ")"
  }

  /** The `device_info` dictionary. */
  datatype DeviceInfo = DeviceInfo(address: string, name: string, hasAudio: bool, services: nat, rssi: int)

  /** One device of the inquiry result, as `(address, name)`. */
  datatype NearbyDevice = NearbyDevice(address: string, name: string)

  /** The outcome of probing one device's services: the `service-id` of each, or an exception. */
  datatype Probe = Services(serviceIds: seq<string>) | ProbeRaised

  /** The signal strength `_get_device_rssi` reports. */
  const ProbedRssi: int := -50

  /**
   * The entry a device contributes: the full record after a successful probe,
   * or the limited record that assumes audio when the probe raised.
   */
  function ProbeEntry(d: NearbyDevice, probe: Probe): (r: DeviceInfo)
    ensures r.address == d.address && r.name == DisplayName(d.name, d.address)
    ensures probe.ProbeRaised? ==> r.hasAudio && r.services == 0 && r.rssi == -100
    ensures probe.Services? ==>
              r.hasAudio == HasAudio(probe.serviceIds, d.name) && r.services == |probe.serviceIds| && r.rssi == ProbedRssi
  {
    match probe
    case Services(ids) => DeviceInfo(d.address, DisplayName(d.name, d.address), HasAudio(ids, d.name), |ids|, ProbedRssi)
    case ProbeRaised => DeviceInfo(d.address, DisplayName(d.name, d.address), true, 0, -100)
  }

  /** `_get_mock_devices`, returned when the inquiry itself raises. */
  const MockDevices: seq<DeviceInfo> := [
    DeviceInfo("00:00:00:00:00:01", "Mock Bluetooth Speaker 1", true, 5, -45),
    DeviceInfo("00:00:00:00:00:02", "Mock Bluetooth Headphones", true, 8, -38)
  ]

  /** The list `discover_audio_devices` returns for a successful inquiry, in inquiry order. */
  function DiscoveredList(nearby: seq<NearbyDevice>, probe: string -> Probe): (r: seq<DeviceInfo>)
    ensures |r| == |nearby|
  {
    if nearby == [] then []
    else
      var last := nearby[|nearby| - 1];
      DiscoveredList(nearby[..|nearby| - 1], probe) + [ProbeEntry(last, probe(last.address))]
  }

  /** The table after recording every successfully probed device, later entries replacing earlier ones. */
  function Recorded(table: map<string, DeviceInfo>, nearby: seq<NearbyDevice>, probe: string -> Probe): map<string, DeviceInfo> {
    if nearby == [] then table
    else
      var last := nearby[|nearby| - 1];
      var before := Recorded(table, nearby[..|nearby| - 1], probe);
      if probe(last.address).Services? then before[last.address := ProbeEntry(last, probe(last.address))]
      else before
  }

  /** Every returned entry describes the device at the same position of the inquiry result. */
  lemma {:induction false} DiscoveredListEntries(nearby: seq<NearbyDevice>, probe: string -> Probe)
    ensures forall i :: 0 <= i < |nearby| ==>
              DiscoveredList(nearby, probe)[i] == ProbeEntry(nearby[i], probe(nearby[i].address))
  {
    if nearby != [] {
      var init := nearby[..|nearby| - 1];
      var last := nearby[|nearby| - 1];
      DiscoveredListEntries(init, probe);
      var r := DiscoveredList(nearby, probe);
      assert r == DiscoveredList(init, probe) + [ProbeEntry(last, probe(last.address))];
      forall i | 0 <= i < |nearby| ensures r[i] == ProbeEntry(nearby[i], probe(nearby[i].address)) {
        if i < |init| {
          assert init[i] == nearby[i];
        }
      }
    }
  }

  /**
   * Only devices whose probe succeeded reach the table: an address is in the
   * table afterwards exactly when it was before or one of the probed devices had it.
   */
  lemma {:induction false} RecordedKeys(table: map<string, DeviceInfo>, nearby: seq<NearbyDevice>,
                                        probe: string -> Probe)
    ensures forall a :: a in Recorded(table, nearby, probe) <==>
              a in table || exists i :: 0 <= i < |nearby| && nearby[i].address == a && probe(a).Services?
  {
    if nearby != [] {
      var init := nearby[..|nearby| - 1];
      RecordedKeys(table, init, probe);
      forall a ensures a in Recorded(table, nearby, probe) <==>
                a in table || exists i :: 0 <= i < |nearby| && nearby[i].address == a && probe(a).Services? {
        if exists i :: 0 <= i < |nearby| && nearby[i].address == a && probe(a).Services? {
          var i :| 0 <= i < |nearby| && nearby[i].address == a && probe(a).Services?;
          if i < |init| {
            assert init[i] == nearby[i];
          }
        }
        if exists i :: 0 <= i < |init| && init[i].address == a && probe(a).Services? {
          var i :| 0 <= i < |init| && init[i].address == a && probe(a).Services?;
          assert nearby[i] == init[i];
        }
      }
    }
  }

  /** One entry of `connected_devices`. */
  datatype Connection = Connection(connectedAt: real, status: string)

  class BluetoothManager {
    var discoveredDevices: map<string, DeviceInfo>
    var connectedDevices: map<string, Connection>

    constructor ()
      ensures discoveredDevices == map[] && connectedDevices == map[]
    {
      discoveredDevices := map[];
      connectedDevices := map[];
    }

    /**
     * `discover_audio_devices`: one entry per device in inquiry order, and the
     * successfully probed ones recorded by address; an inquiry that raises
     * yields the mock devices and records nothing.
     */
    method DiscoverAudioDevices(inquiry: Option<seq<NearbyDevice>>, probe: string -> Probe)
      returns (devices: seq<DeviceInfo>)
      modifies this
      ensures inquiry.None? ==> devices == MockDevices && discoveredDevices == old(discoveredDevices)
      ensures inquiry.Some? ==>
                devices == DiscoveredList(inquiry.value, probe)
                && discoveredDevices == Recorded(old(discoveredDevices), inquiry.value, probe)
      ensures connectedDevices == old(connectedDevices)
    {
      if inquiry.None? {
        return MockDevices;
      }
      var nearby := inquiry.value;
      devices := [];
      var i := 0;
      while i < |nearby|
        invariant 0 <= i <= |nearby|
        invariant devices == DiscoveredList(nearby[..i], probe)
        invariant discoveredDevices == Recorded(old(discoveredDevices), nearby[..i], probe)
        invariant connectedDevices == old(connectedDevices)
      {
        var d := nearby[i];
        assert nearby[..i + 1][..i] == nearby[..i];
        var p := probe(d.address);
        var info := ProbeEntry(d, p);
        devices := devices + [info];
        if p.Services? {
          discoveredDevices := discoveredDevices[d.address := info];
        }
        i := i + 1;
      }
      assert nearby[..i] == nearby;
    }

    /**
     * `connect_device`: the transport attempt's result is returned, and only a
     * success writes (or overwrites) the address's entry.
     */
    method ConnectDevice(deviceAddress: string, success: bool, now: real) returns (ok: bool)
      modifies this
      ensures ok == success
      ensures connectedDevices == if success then old(connectedDevices)[deviceAddress := Connection(now, "connected")]
                                  else old(connectedDevices)
      ensures discoveredDevices == old(discoveredDevices)
    {
      if success {
        connectedDevices := connectedDevices[deviceAddress := Connection(now, "connected")];
        return true;
      }
      return false;
    }

    /**
     * `disconnect_device`: an unknown address is refused; a known one is
     * removed, unless the disconnect command raised, which leaves the entry and
     * returns false.
     */
    method DisconnectDevice(deviceAddress: string, commandRaises: bool) returns (ok: bool)
      modifies this
      ensures ok <==> deviceAddress in old(connectedDevices) && !commandRaises
      ensures connectedDevices == if ok then old(connectedDevices) - {deviceAddress} else old(connectedDevices)
      ensures discoveredDevices == old(discoveredDevices)
    {
      if deviceAddress in connectedDevices {
        if commandRaises {
          return false;
        }
        connectedDevices := connectedDevices - {deviceAddress};
        return true;
      }
      return false;
    }

    /** `get_connected_devices` returns a copy: a map value, which later updates cannot reach. */
    method GetConnectedDevices() returns (r: map<string, Connection>)
      ensures r == connectedDevices
    {
      r := connectedDevices;
    }

    method IsDeviceConnected(deviceAddress: string) returns (connected: bool)
      ensures connected <==> deviceAddress in connectedDevices
    {
      connected := deviceAddress in connectedDevices;
    }

    /** `send_audio_data` succeeds exactly for a connected address. */
    method SendAudioData(deviceAddress: string, audioData: seq<bv8>) returns (ok: bool)
      ensures ok <==> deviceAddress in connectedDevices
    {
      if deviceAddress !in connectedDevices {
        return false;
      }
      return true;
    }

    /**
     * `cleanup`: every connected address is disconnected (each attempt may
     * raise, as `commandRaises` says), then both tables are cleared. The
     * result is the set of addresses whose disconnect went through.
     */
    method Cleanup(commandRaises: string -> bool) returns (disconnected: set<string>)
      modifies this
      ensures disconnected == set a | a in old(connectedDevices) && !commandRaises(a)
      ensures connectedDevices == map[] && discoveredDevices == map[]
    {
      var pending := connectedDevices.Keys;
      disconnected := {};
      while pending != {}
        invariant pending <= old(connectedDevices).Keys
        invariant forall a :: a in connectedDevices <==>
                    a in old(connectedDevices) && (a in pending || commandRaises(a))
        invariant disconnected == set a | a in old(connectedDevices) && a !in pending && !commandRaises(a)
        decreases pending
      {
        var a :| a in pending;
        var ok := DisconnectDevice(a, commandRaises(a));
        if ok {
          disconnected := disconnected + {a};
        }
        pending := pending - {a};
      }
      connectedDevices := map[];
      discoveredDevices := map[];
    }
  }
}
