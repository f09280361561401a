/**
 * `ConsoleBluetoothMusicPlayer` of portable/app/console_demo.py: three mock
 * devices, a table of connected devices keyed by address, a loaded file name
 * and a playing flag, driven by the text typed at each menu prompt.
 *
 * Python dictionaries keep insertion order, so the table is the sequence of
 * its values in that order; each value's address is its key.
 */
module ConsoleDemo {
  import opened Wrappers
  import opened Text
  import opened Menu

  datatype MockDevice = MockDevice(name: string, address: string, hasAudio: bool)

  const MockDevices: seq<MockDevice> := [
    MockDevice("Bluetooth Speaker 1", "00:11:22:33:44:55", true),
    MockDevice("Wireless Headphones", "AA:BB:CC:DD:EE:FF", true),
    MockDevice("Bluetooth Earbuds", "11:22:33:44:55:66", true)
  ]

  const SampleFiles: seq<string> := ["My Favorite Song.mp3", "Party Mix 2024.wav", "Relaxing Music.ogg", "Dance Track.m4a"]

  /** The keys of the table. */
  function Addresses(entries: seq<MockDevice>): (r: set<string>)
    ensures forall a :: a in r <==> exists i :: 0 <= i < |entries| && entries[i].address == a
  {
    if entries == [] then {}
    else
      var init := entries[..|entries| - 1];
      assert forall i :: 0 <= i < |init| ==> init[i] == entries[i];
      Addresses(init) + {entries[|entries| - 1].address}
  }

  /** No two entries share an address, as no two keys of a dictionary are equal. */
  predicate UniqueKeys(entries: seq<MockDevice>) {
    forall i, j :: 0 <= i < j < |entries| ==> entries[i].address != entries[j].address
  }

  /** `del table[address]`: the entries under other keys, in their order. */
  function DeleteKey(entries: seq<MockDevice>, address: string): (r: seq<MockDevice>)
    ensures |r| <= |entries|
    ensures forall i :: 0 <= i < |r| ==> r[i].address != address
  {
    if entries == [] then []
    else
      var rest := DeleteKey(entries[1..], address);
      if entries[0].address == address then rest else [entries[0]] + rest
  }

  /** The table without its `k`-th entry. */
  function RemoveAt(entries: seq<MockDevice>, k: nat): seq<MockDevice>
    requires k < |entries|
  {
    entries[..k] + entries[k + 1..]
  }

  /** Removing the key of entry `k` removes exactly entry `k` and keeps the others in order. */
  lemma {:induction false} DeleteKeyAt(entries: seq<MockDevice>, k: nat)
    requires UniqueKeys(entries) && k < |entries|
    ensures DeleteKey(entries, entries[k].address) == RemoveAt(entries, k)
  {
    var a := entries[k].address;
    if k == 0 {
      DeleteKeyAbsent(entries[1..], a);
    } else {
      assert UniqueKeys(entries[1..]);
      DeleteKeyAt(entries[1..], k - 1);
      assert entries[1..][k - 1] == entries[k];
      assert entries[..k] == [entries[0]] + entries[1..][..k - 1];
      assert entries[k + 1..] == entries[1..][k..];
    }
  }

  lemma {:induction false} DeleteKeyAbsent(entries: seq<MockDevice>, address: string)
    requires forall i :: 0 <= i < |entries| ==> entries[i].address != address
    ensures DeleteKey(entries, address) == entries
  {
    if entries != [] {
      DeleteKeyAbsent(entries[1..], address);
    }
  }

  /** Dropping one entry keeps the keys unique and every entry a mock device. */
  lemma RemoveAtKeepsTable(entries: seq<MockDevice>, k: nat)
    requires k < |entries| && UniqueKeys(entries)
    requires forall i :: 0 <= i < |entries| ==> entries[i] in MockDevices
    ensures UniqueKeys(RemoveAt(entries, k))
    ensures forall i :: 0 <= i < |entries| - 1 ==> RemoveAt(entries, k)[i] in MockDevices
  {
    var r := RemoveAt(entries, k);
    assert forall i :: 0 <= i < |r| ==> r[i] == entries[if i < k then i else i + 1];
  }

  /**
   * `load_music_file`: a digit string naming 1..4 picks that sample, any
   * other non-empty input is taken verbatim, and empty input gives a default.
   */
  function SelectedFile(choice: string): (f: string)
    ensures f != ""
    ensures IsDigits(Strip(choice)) && 1 <= DigitsValue(Strip(choice)) <= 4 ==>
              f == SampleFiles[DigitsValue(Strip(choice)) - 1]
    ensures !(IsDigits(Strip(choice)) && 1 <= DigitsValue(Strip(choice)) <= 4) ==>
              f == if Strip(choice) != "" then Strip(choice) else "Custom Song.mp3"
  {
    var c := Strip(choice);
    if IsDigits(c) && 1 <= DigitsValue(c) <= |SampleFiles| then SampleFiles[DigitsValue(c) - 1]
    else if c != "" then c else "Custom Song.mp3"
  }

  class ConsoleBluetoothMusicPlayer {
    var connectedDevices: seq<MockDevice>
    var currentFile: Option<string>
    var isPlaying: bool

    /** The table holds mock devices only, each at most once, and a loaded name is never empty. */
    ghost predicate Valid()
      reads this
    {
      UniqueKeys(connectedDevices)
      && (forall i :: 0 <= i < |connectedDevices| ==> connectedDevices[i] in MockDevices)
      && (currentFile.Some? ==> currentFile.value != "")
    }

    constructor ()
      ensures Valid() && connectedDevices == [] && currentFile == None && !isPlaying
    {
      connectedDevices := [];
      currentFile := None;
      isPlaying := false;
    }

    /** `connect_device`: a valid number adds that mock device unless its address is already a key. */
    method ConnectDevice(choice: string)
      requires Valid()
      modifies this
      ensures Valid()
      ensures var k := ChoiceIndex(choice, |MockDevices|);
              connectedDevices == if k.Some? && MockDevices[k.value].address !in Addresses(old(connectedDevices))
                                  then old(connectedDevices) + [MockDevices[k.value]]
                                  else old(connectedDevices)
      ensures currentFile == old(currentFile) && isPlaying == old(isPlaying)
    {
      var k := ChoiceIndex(choice, |MockDevices|);
      if k.Some? {
        var device := MockDevices[k.value];
        if device.address !in Addresses(connectedDevices) {
          connectedDevices := connectedDevices + [device];
        }
      }
    }

    /** `disconnect_device`: a valid number deletes that entry, in insertion order; all else is kept. */
    method DisconnectDevice(choice: string)
      requires Valid()
      modifies this
      ensures Valid()
      ensures var k := ChoiceIndex(choice, |old(connectedDevices)|);
              connectedDevices == if k.Some? then RemoveAt(old(connectedDevices), k.value) else old(connectedDevices)
      ensures currentFile == old(currentFile) && isPlaying == old(isPlaying)
    {
      if |connectedDevices| == 0 {
        return;
      }
      var devicesList := connectedDevices;
      var k := ChoiceIndex(choice, |devicesList|);
      if k.Some? {
        var device := devicesList[k.value];
        DeleteKeyAt(devicesList, k.value);
        RemoveAtKeepsTable(devicesList, k.value);
        connectedDevices := DeleteKey(connectedDevices, device.address);
      }
    }

    method LoadMusicFile(choice: string)
      requires Valid()
      modifies this
      ensures Valid()
      ensures currentFile == Some(SelectedFile(choice))
      ensures connectedDevices == old(connectedDevices) && isPlaying == old(isPlaying)
    {
      currentFile := Some(SelectedFile(choice));
    }

    /** `play_music`: playing starts only with a file loaded and at least one device connected. */
    method PlayMusic()
      requires Valid()
      modifies this
      ensures Valid()
      ensures isPlaying == (old(isPlaying) || (currentFile.Some? && connectedDevices != []))
      ensures connectedDevices == old(connectedDevices) && currentFile == old(currentFile)
    {
      if currentFile.None? || currentFile.value == "" {
        return;
      }
      if |connectedDevices| == 0 {
        return;
      }
      isPlaying := true;
    }

    method PauseMusic()
      modifies this
      ensures !isPlaying
      ensures connectedDevices == old(connectedDevices) && currentFile == old(currentFile)
    {
      if isPlaying {
        isPlaying := false;
      }
    }

    method StopMusic()
      modifies this
      ensures !isPlaying
      ensures connectedDevices == old(connectedDevices) && currentFile == old(currentFile)
    {
      if isPlaying {
        isPlaying := false;
      }
    }
  }
}
