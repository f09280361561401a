# Bluetooth multi-device music host — a Dafny model of its core

The system is a Python desktop application. It discovers Bluetooth audio
devices, keeps track of which ones are connected, and streams or plays music
to all of them at once. It has console and Tk front ends. This project
models the parts of it that are bookkeeping, arithmetic and string rules,
and proves what those parts promise:

- **AudioStreamProcessor** (`audio_capture.dfy`): a duplicate-free list of
  streaming targets and a sample buffer trimmed to the newest
  `sample_rate * channels * 2` samples.
- **WindowsBluetoothDevice / EnhancedBluetoothManager**
  (`enhanced_bluetooth.dfy`):
  - the keyword audio classifier;
  - the `name|id|type|connected` discovery-line parser and the simulated
    fallback;
  - the connect and disconnect workers and the connected list;
  - the audio filters, the send count and the first-match finders;
  - the `to_dict` / `load_known_devices` field round trip.
- **AudioEngine / AudioSynchronizer** (`audio_engine.dfy`):
  - the play/pause/resume/stop flag machine;
  - the volume and sync-delay clamps;
  - per-device latency calibration and the `max_delay - delay` alignment offsets.
- **BluetoothManager** (`bluetooth_manager.dfy`):
  - the `has_audio` rule, with the A2DP AudioSink service class UUID
    `0000110b-0000-1000-8000-00805f9b34fb` (0x110B on the Bluetooth Base UUID,
    section 2.5.1 of the Bluetooth Core Specification, Vol 3, Part B);
  - the discovery listing;
  - the address-keyed connection table with connect, disconnect, membership,
    the send guard and cleanup.
- **ConsoleMusicHost and its fallback stub manager**
  (`music_host_console.dfy`), and **ConsoleBluetoothMusicPlayer**
  (`console_demo.dfy`): menu-driven state machines. The typed text is a
  parameter, and the shared numbered-menu rule is in `menu.dfy`.
- **SimpleMusicHostGUI** (`music_host_gui_simple.dfy`) and
  **MusicPlayerGUI** (`gui_components.dfy`):
  - the text formats these windows build;
  - the parsers that read them back;
  - the small amount of state kept next to the widgets.

`wrappers.dfy` holds `Option`. `text.dfy` and `lists.dfy` model
the Python built-ins the code relies on:

- `str.find`, `in`, `split`, `split(sep, 1)`, `strip`, `lower`, `isdigit`,
  `int()` (with single underscores allowed between digits) and `str()` on
  integers;
- `list.remove`, list comprehensions and filters.

Each is proved against its Python meaning.

The source comes in byte-identical pairs:

- `enhanced_bluetooth.py` and `MusicHostByNadeemal_Portable/enhanced_bluetooth.py`;
- `portable/app/audio_engine.py` and its `dist/BluetoothMusicPlayer_Distribution/Portable/app/` copy;
- `bluetooth_manager.py` and `portable/app/bluetooth_manager.py`;
- `music_host_console.py` and its `MusicHostByNadeemal_Portable/` copy;
- `portable/app/console_demo.py` and its `dist/...` copy;
- `music_host_gui_simple.py` and its `MusicHostByNadeemal_Portable/` copy;
- `gui_components.py` and `portable/app/gui_components.py`.

One Dafny module serves each pair. The table cites one copy of each pair;
the same lines of the other copy say the same.

How the model is built:

- **Workers.** Worker threads are sequential methods.
- **Outside results.** What the outside world decides is a parameter:
  - the transport outcome (`success`, `commandRaises`, `CommandOutcome`, `Probe`);
  - the typed text;
  - the helper process's return code and output;
  - the current time `now`.
- **Real numbers.** Volume, delays and times are exact `real`s.
- **Objects and containers.**
  - An object whose fields the source updates in place is a `class`.
  - Lists are `seq` fields.
  - Python dictionaries are `map`s. Where iteration order matters (the
    console demo's connected table, the GUI's connected list), a dictionary is
    the `seq` of its entries in insertion order.

## Model

| member | source | states |
|---|---|---|
| AudioCapture.SliceFrom | MusicHostByNadeemal_Portable/audio_capture.py:261 | Python's `buf[start:]` for any integer start is a suffix of `buf` |
| AudioCapture.TrimBuffer | MusicHostByNadeemal_Portable/audio_capture.py:259-261 | the kept samples are the newest ones, in order. A positive bound keeps exactly `min(len, bound)` of them, and a buffer within the bound is untouched. A zero bound keeps everything (`[-0:]`), and a negative bound drops the oldest `-bound` |
| AudioCapture.AudioStreamProcessor.constructor | MusicHostByNadeemal_Portable/audio_capture.py:231-236 | no devices, not streaming, an empty buffer |
| AudioCapture.AudioStreamProcessor.AddDevice | MusicHostByNadeemal_Portable/audio_capture.py:238-243 | a present device leaves the list unchanged, otherwise it is appended at the end. The list stays duplicate-free |
| AudioCapture.AudioStreamProcessor.RemoveDevice | MusicHostByNadeemal_Portable/audio_capture.py:245-250 | the device is removed and every other device is kept, in its relative order. Removing an absent device changes nothing |
| AudioCapture.AudioStreamProcessor.ProcessAudioData | MusicHostByNadeemal_Portable/audio_capture.py:252-265 | the new buffer is the trim of `old + data` to `sample_rate*channels*2`. Data is dispatched to every device exactly when streaming with a non-empty list. The device list and the flag are unchanged |
| AudioCapture.AudioStreamProcessor.StreamToDevices | MusicHostByNadeemal_Portable/audio_capture.py:267-273 | the loop sends to every connected device, in order |
| AudioCapture.AudioStreamProcessor.StartStreaming | MusicHostByNadeemal_Portable/audio_capture.py:281-284 | only `is_streaming` changes, and it becomes true |
| AudioCapture.AudioStreamProcessor.StopStreaming | MusicHostByNadeemal_Portable/audio_capture.py:286-289 | only `is_streaming` changes, and it becomes false |
| AudioCapture.AudioStreamProcessor.GetDeviceCount | MusicHostByNadeemal_Portable/audio_capture.py:291-293 | the count is the length of the device list |
| AudioCapture.AudioStreamProcessor.ClearDevices | MusicHostByNadeemal_Portable/audio_capture.py:295-298 | the list becomes empty, and the flag and buffer are kept |
| AudioCapture.BufferStaysBounded | MusicHostByNadeemal_Portable/audio_capture.py:256-261 | with a positive bound, the buffer stays within the bound over any sequence of chunks |
| AudioCapture.TrimIdempotent | MusicHostByNadeemal_Portable/audio_capture.py:259-261 | for a non-negative bound, trimming twice is trimming once |
| EnhancedBluetooth.AnyKeywordFromIff | enhanced_bluetooth.py:29-37 | the `any(...)` scan from keyword i succeeds iff one of the remaining keywords occurs in the lowercased name or type |
| EnhancedBluetooth.IsAudioDeviceIff | enhanced_bluetooth.py:27-37 | a device is audio iff one of the 13 keywords is a substring of the lowercased name or of the lowercased type |
| EnhancedBluetooth.IsAudioDeviceCaseInsensitive | enhanced_bluetooth.py:34-37 | lowercasing the inputs first changes nothing |
| EnhancedBluetooth.IsAudioDeviceExtend | enhanced_bluetooth.py:34-37 | adding text on either side of the name or type never turns true into false |
| EnhancedBluetooth.BluetoothDevice.constructor | enhanced_bluetooth.py:18-25 | the fields are as given, `signal_strength` is `"Unknown"`, `last_seen` is `now`, and the audio flag follows the classifier |
| EnhancedBluetooth.ToDictRoundTrip | enhanced_bluetooth.py:39-49 | rebuilding a device from `to_dict` as the loader does gives back name, address, type, connected flag, signal strength and last-seen time. The stored audio flag is the classifier's |
| EnhancedBluetooth.ParseLinesAppend | enhanced_bluetooth.py:166-178 | parsing is line by line: the devices of a concatenation are the devices of each part, in order |
| EnhancedBluetooth.SplitFourFields | enhanced_bluetooth.py:169-170 | a line of four `\|`-free fields followed by more `\|`-fields splits into at least four parts, the first four being those fields |
| EnhancedBluetooth.ParseFourFields | enhanced_bluetooth.py:168-178 | such a line with a stripped name that is neither empty nor `"None"` gives the stripped fields. The flag is whether the stripped, lowercased fourth field is `"true"`, and fields past the fourth are ignored |
| EnhancedBluetooth.ParseEmittedLine | enhanced_bluetooth.py:156-178 | a `$Name\|$Id\|Unknown\|false` line printed by the discovery script gives a disconnected device of type `Unknown` |
| EnhancedBluetooth.ParseNoBarRejected | enhanced_bluetooth.py:167 | a line without `\|` is dropped |
| EnhancedBluetooth.ParseTwoFieldsRejected | enhanced_bluetooth.py:168-169 | a line of two `\|`-free fields has fewer than four parts and is dropped |
| EnhancedBluetooth.ParseThreeFieldsRejected | MusicHostByNadeemal_Portable/enhanced_bluetooth.py:168-169 | a line of three `\|`-free fields has fewer than four parts and is dropped |
| EnhancedBluetooth.ParseNamelessRejected | enhanced_bluetooth.py:168-175 | a line of four or more fields whose stripped name is empty or `None` is dropped, so the unnamed-device line `\|id\|Unknown\|false` gives no device |
| EnhancedBluetooth.FallbackDevicesAreAudio | enhanced_bluetooth.py:236-249 | the three simulated fallback devices are all classified as audio devices |
| EnhancedBluetooth.EnhancedBluetoothManager.constructor | enhanced_bluetooth.py:58-70 | no devices, none connected, not discovering |
| EnhancedBluetooth.EnhancedBluetoothManager.DiscoverDevices | enhanced_bluetooth.py:107-132 | while discovering, it returns the current list unchanged. Otherwise it sets the flag and clears `devices`, but never `connected_devices` |
| EnhancedBluetooth.EnhancedBluetoothManager.RealDiscoveryWorker | enhanced_bluetooth.py:134-193 | `devices` becomes its old value followed by fresh devices built from the accepted lines in line order (return code 0 and non-blank output), or from the three fallback devices. The flag ends false |
| EnhancedBluetooth.EnhancedBluetoothManager.AppendParsedLines | enhanced_bluetooth.py:165-181 | one fresh device is appended per accepted line, in order |
| EnhancedBluetooth.EnhancedBluetoothManager.SimulatedDiscoveryDevices | enhanced_bluetooth.py:236-249 | exactly the three fallback devices are appended, in order |
| EnhancedBluetooth.EnhancedBluetoothManager.AppendDevice | enhanced_bluetooth.py:177-178 | one fresh device built from the parsed fields is appended |
| EnhancedBluetooth.EnhancedBluetoothManager.ConnectDevice | enhanced_bluetooth.py:251-261 | always returns true. An already-connected device changes nothing, otherwise the connect worker's outcome applies. The device's signal strength and last-seen time are never changed |
| EnhancedBluetooth.EnhancedBluetoothManager.ConnectWorker | enhanced_bluetooth.py:263-284 | on success the flag is set and the device appended only if absent, so the list never gains a duplicate. On failure nothing changes. The device's signal strength and last-seen time are never changed |
| EnhancedBluetooth.EnhancedBluetoothManager.DisconnectDevice | enhanced_bluetooth.py:315-325 | always returns true. A device that is not connected changes nothing, otherwise the disconnect worker's outcome applies. The device's signal strength and last-seen time are never changed |
| EnhancedBluetooth.EnhancedBluetoothManager.DisconnectWorker | enhanced_bluetooth.py:327-348 | on success the flag is cleared and the device removed, with every other device kept. On failure nothing changes. The device's signal strength and last-seen time are never changed |
| EnhancedBluetooth.EnhancedBluetoothManager.GetConnectedDevices | enhanced_bluetooth.py:364-366 | the returned list equals `connected_devices` |
| EnhancedBluetooth.EnhancedBluetoothManager.AudioDevices | enhanced_bluetooth.py:368-370 | the order-preserving subsequence of `devices` holding exactly the audio devices. The manager's invariant keeps `devices` free of repeats, so this fixes the list |
| EnhancedBluetooth.EnhancedBluetoothManager.ConnectedAudioDevices | enhanced_bluetooth.py:372-374 | the order-preserving subsequence of `connected_devices` holding exactly the audio devices. The manager's invariant keeps `connected_devices` free of repeats, so this fixes the list |
| EnhancedBluetooth.EnhancedBluetoothManager.StopDiscovery | enhanced_bluetooth.py:376-379 | only the discovery flag changes, and it becomes false |
| EnhancedBluetooth.EnhancedBluetoothManager.SendAudioToDevice | enhanced_bluetooth.py:390-397 | accepted iff the device is connected and an audio device |
| EnhancedBluetooth.EnhancedBluetoothManager.SendAudioToAll | enhanced_bluetooth.py:399-407 | the count is the number of connected audio devices that accept the data, which in a consistent manager is all of them |
| EnhancedBluetooth.EnhancedBluetoothManager.ConnectedAudioAllSendable | enhanced_bluetooth.py:372-407 | every listed connected audio device has its connected flag set, so the send count equals the filter's length |
| EnhancedBluetooth.EnhancedBluetoothManager.GetDeviceByAddress | enhanced_bluetooth.py:409-414 | returns the first device with that address, or null iff there is none |
| EnhancedBluetooth.EnhancedBluetoothManager.GetDeviceByName | enhanced_bluetooth.py:416-421 | returns the first device with that name, or null iff there is none |
| EnhancedBluetooth.EnhancedBluetoothManager.LoadKnownDevices | enhanced_bluetooth.py:433-457 | a missing file returns false and changes nothing. Otherwise the list is rebuilt from the stored dictionaries in order, with the defaults for missing optional keys. It stops at the first dictionary missing `name`, `address` or `type` and returns false, and returns true iff every entry loaded |
| EnhancedBluetooth.RebuildDevice | enhanced_bluetooth.py:442-450 | the device built from one complete dictionary has exactly the dictionary's fields and defaults |
| EnhancedBluetooth.AddAbsent | enhanced_bluetooth.py:271-272 | `if x not in list: append`: x is present afterwards, nothing else is added, and no duplicate appears |
| EnhancedBluetooth.CountSendable | enhanced_bluetooth.py:402-405 | the count never exceeds the number of devices |
| EnhancedBluetooth.AllSendable | enhanced_bluetooth.py:402-405 | when every device is connected and audio, all of them are counted |
| EnhancedBluetooth.KeywordAtStart | enhanced_bluetooth.py:34-37 | a name that starts with a keyword, in any case, is an audio device |
| AudioEngine.PauseStep | portable/app/audio_engine.py:172-181 | pause takes effect only when playing, and keeps the paused-implies-playing invariant |
| AudioEngine.ResumeStep | portable/app/audio_engine.py:183-192 | resume clears `is_paused` only when playing, and keeps the invariant |
| AudioEngine.ResumeUndoesPause | portable/app/audio_engine.py:172-192 | on a playing, unpaused engine, resume after pause restores the flags |
| AudioEngine.ClampVolume | portable/app/audio_engine.py:214 | the result is in [0, 1], equals the input inside the range, and is 0 below it and 1 above it |
| AudioEngine.ClampDelay | portable/app/audio_engine.py:250 | the result is at least 0, and equals a non-negative input |
| AudioEngine.AudioEngine.constructor | portable/app/audio_engine.py:18-32 | no file, stopped, volume 0.7, sync delay 0 |
| AudioEngine.AudioEngine.LoadFile | portable/app/audio_engine.py:34-55 | succeeds iff the file exists and the mixer loads it. The path is recorded as soon as the file exists |
| AudioEngine.AudioEngine.Play | portable/app/audio_engine.py:72-97 | without a (non-empty) file it returns false and leaves the flags unchanged. Otherwise it ends playing and unpaused |
| AudioEngine.AudioEngine.Pause | portable/app/audio_engine.py:172-181 | the flags become `PauseStep` of the old flags |
| AudioEngine.AudioEngine.Resume | portable/app/audio_engine.py:183-192 | the flags become `ResumeStep` of the old flags |
| AudioEngine.AudioEngine.Stop | portable/app/audio_engine.py:194-209 | both flags are cleared and the stop event is set |
| AudioEngine.AudioEngine.SetVolume | portable/app/audio_engine.py:211-214 | volume becomes the clamped value, so it stays in [0, 1] |
| AudioEngine.AudioEngine.SetSyncDelay | portable/app/audio_engine.py:248-250 | sync delay becomes the clamped value, so it stays at 0 or more |
| AudioEngine.AudioEngine.IsFileLoaded | portable/app/audio_engine.py:268-270 | true iff a path is recorded, even the empty path that `play` refuses |
| AudioEngine.MaxDelay | portable/app/audio_engine.py:348 | the largest delay over the addresses, with 0.15 for an uncalibrated one. It is at least every delay and equal to one of them |
| AudioEngine.SyncDelays | portable/app/audio_engine.py:342-350 | the keys are exactly the addresses. An empty table gives 0.15 everywhere. Otherwise an empty address list raises (None), and every offset is at least 0, aligns every device to the same total delay, and is 0 for some device |
| AudioEngine.SyncOffsetIsGap | portable/app/audio_engine.py:348-350 | each offset is the maximum delay minus the device's own delay |
| AudioEngine.AudioSynchronizer.constructor | portable/app/audio_engine.py:331-333 | the delay table starts empty |
| AudioEngine.AudioSynchronizer.CalibrateDeviceDelay | portable/app/audio_engine.py:335-340 | exactly that address's entry becomes `ping + 0.15`, overwriting any earlier one |
| AudioEngine.AudioSynchronizer.GetSyncDelays | portable/app/audio_engine.py:342-350 | returns `SyncDelays` of the current table |
| AudioEngine.CalibratedEmptyRequestRaises | portable/app/audio_engine.py:344-348 | once any device is calibrated, asking for no addresses makes `max()` raise |
| BluetoothManager.AnySinkServiceIff | bluetooth_manager.py:33-34 | the service scan succeeds iff some service id contains the AudioSink UUID (case-insensitive) |
| BluetoothManager.AnyNameKeywordIff | bluetooth_manager.py:37-39 | the name scan succeeds iff one of the 6 keywords occurs in the lowercased name |
| BluetoothManager.HasAudioIff | bluetooth_manager.py:16-40 | `has_audio` iff an AudioSink service is advertised or a name keyword occurs |
| BluetoothManager.HasAudioExtend | bluetooth_manager.py:33-40 | more services or a longer name never lose `has_audio` |
| BluetoothManager.DisplayName | bluetooth_manager.py:44 | an empty name becomes `"Unknown Device (<address>)"`, otherwise the name is kept |
| BluetoothManager.ProbeEntry | bluetooth_manager.py:42-62 | the entry for a probed device. When the checks raise, it is still listed with has_audio true, 0 services and rssi -100 |
| BluetoothManager.DiscoveredList | bluetooth_manager.py:29-64 | one entry per nearby device |
| BluetoothManager.DiscoveredListEntries | bluetooth_manager.py:29-64 | entry i describes nearby device i |
| BluetoothManager.RecordedKeys | bluetooth_manager.py:51-62 | `discovered_devices` gains exactly the devices whose checks did not raise |
| BluetoothManager.BluetoothManager.constructor | bluetooth_manager.py:13-16 | both tables start empty |
| BluetoothManager.BluetoothManager.DiscoverAudioDevices | bluetooth_manager.py:18-70 | a failed inquiry returns the mock devices and records nothing. Otherwise it returns the entry list and records the successfully probed devices. The connection table is unchanged |
| BluetoothManager.BluetoothManager.ConnectDevice | bluetooth_manager.py:100-123 | returns the transport outcome. On success the address entry is written (or overwritten) with status `connected`, and on failure the table is unchanged |
| BluetoothManager.BluetoothManager.DisconnectDevice | bluetooth_manager.py:194-221 | true iff the address was connected and the command did not raise, in which case exactly that entry is deleted. Otherwise nothing changes |
| BluetoothManager.BluetoothManager.GetConnectedDevices | bluetooth_manager.py:223-225 | a copy equal to the connection table, returned as a value (the nested per-address dictionaries that Python's shallow copy shares are not modelled) |
| BluetoothManager.BluetoothManager.IsDeviceConnected | bluetooth_manager.py:227-229 | membership in the connection table |
| BluetoothManager.BluetoothManager.SendAudioData | bluetooth_manager.py:231-243 | false iff the address is not connected |
| BluetoothManager.BluetoothManager.Cleanup | bluetooth_manager.py:245-257 | every connected address whose command does not raise is disconnected, and both tables end empty |
| Menu.ChoiceIndex | portable/app/console_demo.py:65-68 | the typed text selects item k iff `int()` of it is k+1 within 1..n (so `0_1` selects the first item, as in Python). Empty, non-numeric and out-of-range input selects nothing |
| Menu.ChoiceOfShownNumber | music_host_console.py:221-231 | typing the number printed next to item i selects item i |
| Menu.EmptyChoice | music_host_console.py:226-228 | empty input selects nothing |
| MusicHostConsole.StubDevice.constructor | music_host_console.py:41-47 | the stub device keeps its fields and is always an audio device |
| MusicHostConsole.Available | music_host_console.py:214 | exactly the unconnected devices, in the order of the device list, which fixes the number each one is offered under |
| MusicHostConsole.StubBluetoothManager.constructor | music_host_console.py:52-55 | no devices and none connected |
| MusicHostConsole.StubBluetoothManager.DiscoverDevices | music_host_console.py:61-68 | the device list becomes four fresh, unconnected speakers with the fixed names and addresses. The connected list is kept |
| MusicHostConsole.StubBluetoothManager.GetDeviceByName | music_host_console.py:70-74 | the first device with that name, or null iff there is none |
| MusicHostConsole.StubBluetoothManager.ConnectDevice | music_host_console.py:76-80 | always true. The device is flagged and added at most once |
| MusicHostConsole.StubBluetoothManager.DisconnectDevice | music_host_console.py:82-86 | always true. A present device is removed and unflagged, and an absent one leaves the list unchanged |
| MusicHostConsole.StubBluetoothManager.ConnectedAudioIsConnected | music_host_console.py:91-92 | every stub device is made an audio device (line 46), so the connected audio devices are exactly the connected list |
| MusicHostConsole.ConsoleMusicHost.constructor | music_host_console.py:98-118 | not streaming, volume 75, both counters 0 |
| MusicHostConsole.ConsoleMusicHost.DiscoverDevices | music_host_console.py:165-187 | the device list becomes four fresh, unconnected stubs with the fixed names and addresses, in order; four are recorded in the statistics, and the connected list is kept |
| MusicHostConsole.ConsoleMusicHost.ConnectDevice | music_host_console.py:209-252 | only unconnected devices are offered. A number in 1..n connects that device and increments the connected counter, and any other input changes nothing |
| MusicHostConsole.ConsoleMusicHost.DisconnectDevice | music_host_console.py:254-292 | a number in 1..n removes and unflags that connected device, and any other input changes nothing |
| MusicHostConsole.ConsoleMusicHost.StartStreaming | music_host_console.py:319-368 | streaming starts only with a connected audio device and a stripped, lowercased answer of `""`, `y` or `yes`. When already streaming nothing changes |
| MusicHostConsole.ConsoleMusicHost.StopStreaming | music_host_console.py:370-394 | streaming ends off. It was a no-op when already off |
| MusicHostConsole.ConsoleMusicHost.AdjustVolume | music_host_console.py:396-417 | the volume becomes the typed integer if it is in 0..100 (`5_0` reads as 50, as in Python), and otherwise stays, so it never leaves 0..100 |
| ConsoleDemo.Addresses | portable/app/console_demo.py:71 | the key set of the connected table |
| ConsoleDemo.DeleteKey | portable/app/console_demo.py:106 | `del table[address]` leaves no entry with that key |
| ConsoleDemo.DeleteKeyAt | portable/app/console_demo.py:101-106 | deleting the key of entry k removes exactly entry k and keeps the other entries in insertion order |
| ConsoleDemo.DeleteKeyAbsent | portable/app/console_demo.py:106 | the removal helper leaves a table holding no entry with the key unchanged; this is the tail case of its recursion, as line 106 only deletes a key that is present |
| ConsoleDemo.RemoveAtKeepsTable | portable/app/console_demo.py:101-106 | removing an entry keeps the keys unique and every entry one of the three mock devices of lines 15-19 |
| ConsoleDemo.SelectedFile | portable/app/console_demo.py:144-150 | a digit string 1..4 picks that sample, any other non-empty input is the name verbatim, and empty input gives `Custom Song.mp3` |
| ConsoleDemo.ConsoleBluetoothMusicPlayer.constructor | portable/app/console_demo.py:14-22 | no device, no file, not playing |
| ConsoleDemo.ConsoleBluetoothMusicPlayer.ConnectDevice | portable/app/console_demo.py:60-83 | a number in 1..3 adds that mock device under its address unless the key is present. Any other input changes nothing. The keys stay unique mock addresses |
| ConsoleDemo.ConsoleBluetoothMusicPlayer.DisconnectDevice | portable/app/console_demo.py:85-112 | an empty table is left alone. A number k in 1..n removes exactly the k-th entry in insertion order, and any other input changes nothing |
| ConsoleDemo.ConsoleBluetoothMusicPlayer.LoadMusicFile | portable/app/console_demo.py:127-155 | the current file becomes `SelectedFile` of the input |
| ConsoleDemo.ConsoleBluetoothMusicPlayer.PlayMusic | portable/app/console_demo.py:157-178 | playing starts only with a file loaded and a device connected |
| ConsoleDemo.ConsoleBluetoothMusicPlayer.PauseMusic | portable/app/console_demo.py:180-186 | afterwards not playing, and nothing else changes |
| ConsoleDemo.ConsoleBluetoothMusicPlayer.StopMusic | portable/app/console_demo.py:188-194 | afterwards not playing, and nothing else changes |
| MusicHostGuiSimple.ParseThreeFields | music_host_gui_simple.py:192-200 | a line of three `\|`-free fields gives those fields, with the flag true iff the third is exactly `True` |
| MusicHostGuiSimple.ParseEmitLine | music_host_gui_simple.py:181-200 | parsing the helper's `name\|address\|is_audio` line recovers name, address and flag when name and address have no `\|` |
| MusicHostGuiSimple.IsAudioExactMatch | music_host_gui_simple.py:199 | `true` or ` True` in the third field reads as not audio: no stripping, case-sensitive |
| MusicHostGuiSimple.ShortLinesSkipped | music_host_gui_simple.py:193-196 | lines without `\|`, or with only two fields, are skipped |
| MusicHostGuiSimple.ParseDiscoveryOutput | music_host_gui_simple.py:190-205 | a non-zero return code is the error path. Otherwise the result is the accepted lines of the stripped output, in order |
| MusicHostGuiSimple.ExtractDisplayName | music_host_gui_simple.py:216-239 | taking the name back out of `"<icon> <name> (<address>)"` gives the name when it has no `" ("` |
| MusicHostGuiSimple.ExtractNameCutsAtParen | music_host_gui_simple.py:239 | a name containing `" ("` comes back cut at its first `" ("` |
| MusicHostGuiSimple.SimpleMusicHostGui.constructor | music_host_gui_simple.py:19-20 | no connected names, not streaming |
| MusicHostGuiSimple.SimpleMusicHostGui.ConnectDevice | music_host_gui_simple.py:231-245 | a selected row appends its extracted name with no duplicate check, so the list grows by exactly one. No selection (or text without a space, which raises) changes nothing |
| MusicHostGuiSimple.SimpleMusicHostGui.ToggleStreaming | music_host_gui_simple.py:247-262 | with no connected device nothing changes, otherwise `is_streaming` flips |
| GuiComponents.TruncateTitle | gui_components.py:393 | at most 50 characters. A title of 50 or fewer is unchanged, and a longer one shows its first 47 characters followed by `...` |
| GuiComponents.TruncateTitleIdempotent | gui_components.py:393 | truncating twice is truncating once |
| GuiComponents.RowColumns | gui_components.py:362-376 | row i's label reads back as i+1, the audio column is `✓` iff `has_audio` is true, and the signal column is `<rssi> dBm` (rssi -100 when missing) |
| GuiComponents.ExtractAddress | gui_components.py:320 | a line without `" - "` gives the empty address |
| GuiComponents.NameSeparableNoEarly | gui_components.py:386 | in the entry built at line 386 and read back at line 320, a name with no `" - "` that does not end in `" -"` cannot make the separator appear early |
| GuiComponents.ExtractEntryAddress | gui_components.py:384-386 | `split(" - ")[1]` of the entry `"<name> - <address>"` built at line 386 (name defaulting to `Unknown Device`) recovers the address when the name is separable and the address has no `" - "` |
| GuiComponents.NameEndingInDash | gui_components.py:386 | the name `A -` holds no `" - "`, yet the address `B` of the entry built at line 386 comes back at line 320 as `- B` |
| GuiComponents.MusicPlayerGui.constructor | gui_components.py:17-136 | no devices, no connected entries, `No file loaded`, not playing, all three playback buttons disabled |
| GuiComponents.MusicPlayerGui.ConnectSelectedDevice | gui_components.py:288-310 | the controller is asked to connect the selected row's address and name, which are the discovered device's (with defaults). No selection asks nothing |
| GuiComponents.MusicPlayerGui.DisconnectSelectedDevice | gui_components.py:312-323 | the address handed to the controller is never empty, and it is the selected entry's key when that entry is separable. No selection asks nothing |
| GuiComponents.MusicPlayerGui.LoadMusicFile | gui_components.py:325-329 | a successful load enables Play, and nothing else changes |
| GuiComponents.MusicPlayerGui.UpdateDeviceList | gui_components.py:355-378 | the tree becomes one row per device, in order, and the discovered list is replaced |
| GuiComponents.MusicPlayerGui.UpdateConnectedDevices | gui_components.py:380-388 | the list box becomes one `"<name> - <address>"` line per entry, in order, and the dictionary is replaced |
| GuiComponents.MusicPlayerGui.UpdateCurrentSong | gui_components.py:390-394 | the full title is kept and the label shows `TruncateTitle` of it |
| GuiComponents.MusicPlayerGui.UpdatePlaybackControls | gui_components.py:396-407 | Play is enabled iff not playing, Pause and Stop are enabled iff playing, and `is_playing` is set |

The `text.dfy` and `lists.dfy` members model Python built-ins rather than
lines of this repository. They carry their own contracts:

- `Split` and `SplitOnce` agree with Python (`SplitJoin`, `SplitOnce`'s
  ensures);
- `int(str(n)) == n` (`ParseIntOfString`);
- `int()` skips a single underscore between digits, so `int("5_0") == 50`
  (`ParseIntGrouped`);
- `strip` and `lower` are idempotent;
- `list.remove` removes exactly the first occurrence (`RemoveFirstExact`);
- the list-comprehension filter is an order-preserving subsequence.

## Left out

- Threads, `threading.Lock`, `root.after` scheduling and the callback hooks.
  Each worker is a sequential method, and callbacks and log messages have
  no effect on the modelled state.
- Processes, sockets and the operating system:
  - the PowerShell, `bluetoothctl`, `sc` and `net` calls;
  - pybluez inquiry and service probing, RFCOMM;
  - WASAPI/COM capture, the pygame mixer and mutagen.

  Their results are parameters. `_check_bluetooth_support`, `_real_connect_device`,
  `_simulated_connect_device`, `_connect_windows_bluetooth_audio` and
  `_fallback_bluetooth_connect` are such outcomes (`success`).
- Randomness and time:
  - `random.random()` connection success and `time.sleep`;
  - every `time.time()`, which is the parameter `now` (bluetooth_manager's
    `connected_at`, `last_seen` of each new device, the loader's default);
  - streaming-time statistics.
- EnhancedBluetooth.EnhancedBluetoothManager.RealDiscoveryWorker: all devices
  of one run share one `now`; the source calls `time.time()` per device.
- `_simulated_discovery_worker` (the eight-device timed simulation with
  signal-strength labels) and `refresh_device_status` (a loop with no
  effect). The first depends on the discovery flag changing during
  `time.sleep`, which is concurrency.
- File persistence: `save_known_devices`, the JSON reading half of
  `load_known_devices` (the parsed list is a parameter, and None stands for
  a missing or unreadable file), and the settings files.
- Floating point: values are exact `real`s, so IEEE rounding of
  `ping + 0.15` and of the offsets is not modelled. `AudioEffects` (numpy)
  and level thresholds are not part of this model.
- Unicode: `lower`, `isspace`, `isdigit` and `int()` are modelled on ASCII
  letters and digits and Python's whitespace set. Non-ASCII case folding
  and digits are not modelled.
- The Tk widgets, message boxes and file dialogs. Only what they display or
  hand to the controller is kept.
- BluetoothManager.BluetoothManager.DiscoverAudioDevices: names are
  strings, so a `None` name from pybluez is not modelled. With `None`, the
  keyword check's `name.lower()` would raise and take the exception path.
  The empty name is modelled.
- MusicHostConsole: modelled in the configuration where the fallback stub
  classes are in use. The real manager is `enhanced_bluetooth.dfy`, and
  the stub audio classes do nothing.
- MusicHostConsole.ConsoleMusicHost.StartStreaming: the audio capture and
  stream processor it starts are stubs. Only the guards and the flag are
  modelled.
- AudioEngine.AudioEngine.Play: the playback worker thread and the
  per-device stream workers are left out. Only the flags and the stop event
  are modelled.
- AudioEngine.AudioEngine.Pause, Resume, Stop and SetVolume: the pygame
  mixer calls are taken not to raise. The exception handlers that would
  then skip the rest of each body are not modelled.
- BluetoothManager.BluetoothManager.GetConnectedDevices: the table is a
  Dafny `map` value, so the model does not capture aliasing. Python's
  `.copy()` is shallow: the outer dictionary is new, but the per-address
  `{'connected_at', 'status'}` dictionaries are shared with the manager, so
  a caller that edits one of them changes the manager's entry.
- Live lists returned by the Python getters: the model returns `seq` values,
  which cannot alias, so it does not capture that a caller's change to these
  lists reaches the manager. `EnhancedBluetoothManager.discover_devices`
  returns `self.devices` itself (enhanced_bluetooth.py:111 and 132), and the
  stub manager's `discover_devices` and `get_connected_devices` return its
  own lists (music_host_console.py:68 and 89). Of the list getters, only
  `EnhancedBluetoothManager.get_connected_devices` copies
  (enhanced_bluetooth.py:366).
- Python's dynamic typing: dictionary values are given their expected
  types, and a missing key is an `Option`.

A note on the GUI's `" - "` split: the address comes back intact only when
the name has no `" - "` **and** does not end in `" -"`. A name such as `A -`
makes the separator's own leading space complete an earlier `" - "`.
`NameEndingInDash` exhibits this, and `ExtractEntryAddress` states the exact
condition.
