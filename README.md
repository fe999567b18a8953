# Anti-Idle recorder and hotkey listener, modelled in Dafny

The system is a desktop macro recorder made of two processes that share a
working directory.

- **The recorder** (`client/app.py`) records mouse and keyboard events while
  recording is on. It plays them back with their recorded gaps, and it loops
  the playback every `LOOP_INTERVAL` until end_task clears the loop flag. It keeps a keybind
  file, `client/keybinds.json`, and polls for trigger files named
  `<command>.trigger`.
- **The hotkey listener** (`client/modules/key_listener.py`) reloads its chords
  from the same keybind file when the file's modification time changes. It
  tracks the keys held down, and when a chord completes it creates the trigger
  file of the chord's command. It does nothing while its pause marker exists.

The model has these parts:

- `dicts.dfy` (`Dicts`): insertion-ordered dictionaries, as sequences of
  key/value items with distinct keys.
- `platform.dfy` (`Platform`): key values, ASCII `lower()`, the parsed JSON
  document of the keybind file, and the shared directory as a class `Disk`.
- `scheduler.dfy` (`Scheduler`): playback and the loop as pure functions of
  the recorded events and the values the `looping` flag is read as. Another
  thread clears that flag, so each read takes the next value of an input
  feed, and once the feed is used up every read sees false. Time is in
  integer milliseconds.
- `session.dfy` (`RecorderSession`): the recorder's session state, the four
  polled commands, and one poll of the trigger files.
- `keybinds.dfy` (`Keybinds`): the recorder's keybind defaults, loading and
  saving the keybind file, and editing a keybind.
- `recorder.dfy` (`Recorder`): class `App`, whose fields are the recorder's
  globals. Each method performs one function of `app.py` in place, and its
  contract ties the new state to the functions above.
- `hotkey_listener.dfy` (`HotkeyListener`): the listener's parsing and chord
  matching as functions, and class `Listener` with the listener's globals.
- `protocol.dfy` (`Protocol`): what the two processes see of each other.

The model follows the code in these places:

- The recorder does not fill in actions the keybind file leaves out (`NoBackfill`).
  It puts such a partial map in force. The label refresh that follows then
  raises KeyError on the first missing action. The load is reported as
  failed. No apply saves until `reset_to_defaults` or a load that binds all
  four actions, because editing keeps the set of actions
  (`Keybinds.KeybindLabels`, `Keybinds.UpdatePending`).
- The listener replaces its chord map with whatever it parsed, even an empty
  map (`HotkeyListener.Reload`).

The two processes disagree on command names. The listener signals
`start_recording`, `stop` and `play_task`. The recorder polls for
`start_recording`, `stop_recording`, `start_task` and `end_task`. So only the
start_record chord reaches the recorder (`Protocol.OnlyStartRecordIsPolled`);
the other trigger files pile up (`Protocol.UnpolledTriggerStays`). The
listener also drops the recorder's `stop_record` and `end_task` bindings
(`Protocol.ListenerReadsRecorderDefaults`). Both sides' default files bind
start_record and start_task to opposite keys. The recorder, reading the
listener's default file, puts its two bindings in force and reports the load
as failed, because stop_record and end_task are missing
(`Protocol.RecorderReadsListenerDefaults`).

## Model

| member | source | states |
|---|---|---|
| Platform.Lower | client/modules/key_listener.py:96 | lower-casing maps 'A'..'Z' to 'a'..'z' and leaves every other character alone |
| Scheduler.Wait | client/app.py:149-152 | a sliced wait only ever sleeps, each sleep at most 100 ms, and it never reads more of the flag than is left |
| Scheduler.LoopFrom | client/app.py:176-184 | the loop ends only on a read of the flag as false, and uses no more reads than the feed holds |
| Scheduler.SlicesAddUp | client/app.py:148-152 | an uninterrupted wait of a gap sleeps exactly the gap, in ceil(gap/100) slices of at most 100 ms |
| Scheduler.WaitUninterrupted | client/app.py:149-152 | with the flag set throughout, the wait sleeps exactly the slices of the remaining time and reads the flag once per slice |
| Scheduler.WaitInterrupted | client/app.py:150-155 | a false read after n slices ends the wait after exactly those n slices |
| Scheduler.PlayFromUninterrupted | client/app.py:142-166 | with the flag set for every read, each event is replayed after sleeping its gap to the previous event, and exactly the reads counted are used |
| Scheduler.PlayUninterrupted | client/app.py:134-169 | an uninterrupted playback replays the whole recording with its gaps and then releases the six modifier keys |
| Scheduler.PlayFromInOrder | client/app.py:143-166 | playback dispatches a prefix of the recording in recorded order and nothing else, and stops short only after reading the flag as false |
| Scheduler.DispatchedCalls | client/app.py:157-168 | effects without a sleep are all controller calls |
| Scheduler.PlayEndsWithRelease | client/app.py:143-168 | for every flag, a non-empty playback ends with the release of the six modifiers, after a prefix of the recording in order |
| Scheduler.DispatchedReplay | client/app.py:156-165 | replaying an event only makes controller calls, never a sleep |
| Scheduler.IntervalUninterrupted | client/app.py:180-183 | the wait between iterations is 50 slices of 100 ms when the flag stays set |
| Scheduler.IterationUninterrupted | client/app.py:176-184 | one uninterrupted iteration replays the recording, releases the modifiers, then waits LOOP_INTERVAL |
| Scheduler.LoopStopsAtFalse | client/app.py:176 | once the loop reads the flag as false, no further iteration runs and nothing is played |
| Scheduler.PlayStopsOnceFalse | client/app.py:143-168 | after end_task has cleared the flag for good, later false reads change nothing in what playback does |
| Scheduler.PlayAfterEnd | client/app.py:143-168 | playback after end_task has cleared the flag dispatches nothing and only releases the modifier keys |
| Scheduler.FlipBackFiresEarly | client/app.py:144-155 | the flag is read separately at the top of the loop, during the wait and after it; a flag cleared and set again between reads lets an event fire before its gap has passed |
| Scheduler.LoopIgnoresTrailingFalse | client/app.py:176-184 | trailing false reads after the flag is cleared begin no new iteration |
| RecorderSession.CaptureAllWhileRecording | client/app.py:97-111 | while recording, every callback appends its event, in order |
| RecorderSession.CaptureAllWhileIdle | client/app.py:97-111 | while not recording, the callbacks change nothing |
| RecorderSession.RecordingSession | client/app.py:114-132 | start, capture, stop leaves exactly the captured events under "Untitled"; a start while recording keeps what was recorded |
| RecorderSession.StopKeepsEvents | client/app.py:123-132 | stopping keeps the events and a second stop changes nothing |
| RecorderSession.StartTaskTwiceStartsTwoLoops | client/app.py:189-193 | start_task does not set looping, so two calls before the thread runs start two loops |
| RecorderSession.TriggerFileInjective | client/app.py:496 | two commands never share a trigger file |
| RecorderSession.PollFromPaths | client/app.py:495-504 | a poll removes exactly the trigger files whose handler returned, and no other file |
| RecorderSession.PollPaths | client/app.py:488-505 | while the settings page is shown a poll changes nothing; otherwise it removes exactly the consumed trigger files |
| RecorderSession.FailingTriggerStays | client/app.py:499-504 | a handler that raises leaves its trigger file for the next poll |
| RecorderSession.PollStartThenStop | client/app.py:495-502 | commands run in the fixed order: start and stop triggers together start a fresh recording and stop it with no events |
| Keybinds.ActionsAreDefaultKeys | client/app.py:78-83 | the known actions are exactly the keys of the default map |
| Keybinds.KnownActionsGet | client/app.py:324-328 | after filtering an action is bound exactly when it is known and the file binds it, to the file's pair |
| Keybinds.KnownActionsIsDict | client/app.py:325-328 | the filtered map has one entry per action |
| Keybinds.FileKeybinds | client/app.py:324-344 | the keybinds member parses exactly when it is absent or an object of pairs, and only known actions survive |
| Keybinds.PackAll | client/app.py:308 | the saved map has the same actions in the same order, each as its [modifier, key] pair |
| Keybinds.LoadFromFile | client/app.py:313-344 | the outcomes: a missing file is written and false; a non-empty known map is adopted, and the result is true exactly when it binds all four actions (otherwise the label refresh raises); an empty one resets to the defaults, is written and false; a malformed file keeps the maps and false; the app name is taken whenever present |
| Keybinds.LabelsFor | client/app.py:409-421 | the rows' label texts are each row's pending binding as modifier+key, and the lookup fails exactly when some row's action is missing |
| Keybinds.RowsCoverActions | client/app.py:402-407 | the four rows of the settings page are bound exactly when all four actions are |
| Keybinds.KeybindLabels | client/app.py:401-421 | update_keybind_labels succeeds exactly when the pending map binds all four actions, and then shows each row's binding |
| Keybinds.KnownActionsOfPacked | client/app.py:307-311 | filtering a saved map of known actions gives it back unchanged |
| Keybinds.SaveLoadRoundTrip | client/app.py:307-334 | saving and loading again gives back the app name and the keybinds, and reports success exactly when all four actions are bound |
| Keybinds.DefaultsRoundTrip | client/app.py:307-334 | the defaults survive a save and a load, which succeeds |
| Keybinds.LoadedMapStaysComplete | client/app.py:330-334 | after a successful load the pending map binds every action, and editing one binding keeps it so |
| Keybinds.NoBackfill | client/app.py:325-344 | actions the file leaves out are not filled in from the defaults; the partial map is in force and the load reports failure |
| Keybinds.UpdatePending | client/app.py:355-358 | only a recognised modifier for an action already pending changes that one entry; the actions stay the same |
| HotkeyListener.Chords | client/modules/key_listener.py:51-56 | every kept chord is for a known action and has a special key as modifier |
| HotkeyListener.ChordsGet | client/modules/key_listener.py:52-56 | an action has a chord exactly when the file binds it to a pair whose modifier names a special key |
| HotkeyListener.ChordsIsDict | client/modules/key_listener.py:51-56 | the parsed map has one chord per action |
| HotkeyListener.FileChords | client/modules/key_listener.py:46-66 | the keybinds member parses exactly when it is absent (empty map) or an object of pairs |
| HotkeyListener.Reload | client/modules/key_listener.py:33-66 | a missing file fails and keeps everything; an unchanged time succeeds without parsing; otherwise success means the parsed map and the new time replace the old ones, even when the map is empty |
| HotkeyListener.FirstMatch | client/modules/key_listener.py:92-105 | finds the first chord in map order that fires, or none exactly when no chord fires |
| HotkeyListener.Press | client/modules/key_listener.py:85-105 | a press signals a command exactly when some chord fires, and then forgets every held key |
| HotkeyListener.PressSignalsFirstMatch | client/modules/key_listener.py:92-105 | the command signalled is the first firing chord's, so one press signals one command |
| HotkeyListener.SecondPressNeedsModifier | client/modules/key_listener.py:85-105 | after any press that signals a command, pressing the same character again signals nothing, since the held keys were cleared and the modifier must be pressed again |
| HotkeyListener.Release | client/modules/key_listener.py:107-115 | exactly the released key stops being held and every other held key stays held; the listener stops exactly on esc released with ctrl_l held |
| HotkeyListener.PressThenRelease | client/modules/key_listener.py:85-115 | pressing a key that was not held and fires nothing, then releasing it, restores the held keys and does not stop the listener |
| HotkeyListener.ListenerDefaultsKept | client/modules/key_listener.py:117-127 | the listener keeps all three entries of its own default file |
| HotkeyListener.Listener.constructor | client/modules/key_listener.py:24-31 | starts with no keys held, no chords and modification time 0 |
| HotkeyListener.Listener.LoadKeybinds | client/modules/key_listener.py:33-66 | load_keybinds in place, as Reload states |
| HotkeyListener.Listener.ParseChords | client/modules/key_listener.py:50-58 | the loop over the entries fails exactly on a malformed entry and otherwise builds the chords Chords describes |
| HotkeyListener.Listener.CheckKeybindsFileOnce | client/modules/key_listener.py:72-77 | while paused nothing is reloaded; otherwise one reload as Reload states |
| HotkeyListener.Listener.ExecuteCommand | client/modules/key_listener.py:79-83 | the command's trigger file exists afterwards and nothing else changes |
| HotkeyListener.Listener.OnPress | client/modules/key_listener.py:85-105 | while paused nothing changes; otherwise the held keys and trigger files change as Press states |
| HotkeyListener.Listener.OnRelease | client/modules/key_listener.py:107-115 | while paused nothing changes and it does not stop; otherwise as Release states |
| HotkeyListener.Listener.Start | client/modules/key_listener.py:117-127 | if the first load fails the default file is written and loaded again; otherwise the disk is untouched |
| Recorder.App.constructor | client/app.py:88-90 | starts idle with no events, with the keybinds in force and the pending map both equal to the default keybinds |
| Recorder.App.OnMove | client/app.py:97-99 | a move is appended only while recording |
| Recorder.App.OnClick | client/app.py:101-103 | only a button press is appended, only while recording |
| Recorder.App.OnPress | client/app.py:105-107 | a key press is appended only while recording |
| Recorder.App.OnRelease | client/app.py:109-111 | a key release is appended only while recording |
| Recorder.App.StartRecording | client/app.py:114-121 | start_recording in place, as RecorderSession.StartRecording |
| Recorder.App.StopRecording | client/app.py:123-132 | stop_recording in place, as RecorderSession.StopRecording |
| Recorder.App.StartTask | client/app.py:189-193 | a loop is started only when not looping and there are events |
| Recorder.App.EndTask | client/app.py:195-201 | looping is cleared and the six modifier keys are released |
| Recorder.App.ReleaseGuardKeys | client/app.py:167-168 | releases shift, ctrl and alt, left and right, in that order |
| Recorder.App.HandleCommand | client/app.py:500 | runs the handler named by the command |
| Recorder.App.CheckForTriggers | client/app.py:488-505 | one poll in place, as RecorderSession.Poll |
| Recorder.App.WaitSliced | client/app.py:148-152 | the sliced wait in place, as Scheduler.Wait |
| Recorder.App.Dispatch | client/app.py:156-165 | the controller calls that replay one event |
| Recorder.App.PlayEvent | client/app.py:143-166 | one turn of the event loop, as Scheduler.Step |
| Recorder.App.Playback | client/app.py:134-170 | playback in place, as Scheduler.Play; playing is cleared afterwards unless there were no events |
| Recorder.App.LoopIteration | client/app.py:177-184 | one pass of the loop body, as Scheduler.Iteration |
| Recorder.App.LoopPlayback | client/app.py:172-187 | the loop in place, as Scheduler.Loop; it ends with looping and playing cleared |
| Recorder.App.SaveKeybindsToFile | client/app.py:307-311 | the keybind file exists and holds the app name and the keybinds in force |
| Recorder.App.ReadKnownActions | client/app.py:324-328 | the filtering loop computes FileKeybinds |
| Recorder.App.LoadKeybindsFromFile | client/app.py:313-344 | load_keybinds_from_file in place, as Keybinds.LoadFromFile (including the failure a partial map causes), writing the file exactly when that says so |
| Recorder.App.ResetToDefaults | client/app.py:346-353 | the app name and both maps return to the defaults |
| Recorder.App.UpdateKeybind | client/app.py:355-358 | the pending map changes as Keybinds.UpdatePending |
| Recorder.App.ApplyKeybinds | client/app.py:392-399 | the pending map comes into force; it is saved exactly when it binds all four actions, and otherwise the file is untouched |
| Recorder.App.ShowMain | client/app.py:508-516 | triggers resume and the recorder's pause marker is removed |
| Recorder.App.ShowSequences | client/app.py:518-526 | triggers resume and the recorder's pause marker is removed |
| Recorder.App.ShowSettings | client/app.py:528-538 | triggers pause and the recorder's pause marker is created |
| Protocol.OnlyStartRecordIsPolled | client/modules/key_listener.py:11-15 | of the listener's three commands only start_record's is one the recorder polls for |
| Protocol.UnpolledTriggerStays | client/app.py:495-504 | the trigger files of stop and play_task survive every poll |
| Protocol.StartRecordChordStartsRecording | client/app.py:495-502 | a start_record trigger alone makes the next poll start recording and remove the file |
| Protocol.RecorderPauseFileIgnored | client/app.py:528-538 | as written, the recorder's marker never changes whether the listener is paused |
| Protocol.PageShown | client/app.py:508-538 | with the marker at the listener's path, it exists exactly while the settings page is shown, and no other file changes |
| Protocol.ListenerPausedOnSettings | client/modules/key_listener.py:68-70 | with that marker, the listener is paused exactly on the settings page |
| Protocol.ListenerReadsRecorderDefaults | client/modules/key_listener.py:50-56 | the listener keeps only start_record and start_task of the recorder's saved defaults |
| Protocol.RecorderReadsListenerDefaults | client/app.py:313-344 | the recorder puts the listener's default file in force without "stop", with start_record and start_task on opposite keys from its own defaults, and reports failure since stop_record and end_task are missing |

## Findings

| source | as written | input that shows it | evidently intended | confidence | as-written member | corrected member |
|---|---|---|---|---|---|---|
| client/app.py:514-536 | the pages create and remove `client/pause_listener.trigger`, but the listener checks `pause_listener.trigger` (client/modules/key_listener.py:70). Both processes run in the same working directory | open the settings page in a directory without `pause_listener.trigger`: the listener is not paused, so keys typed into the settings fields can fire chords | the marker at the listener's path, the one the recorder's close handler removes (client/app.py:446-447); the listener is then paused exactly while the settings page is shown | high, not executed | Protocol.RecorderPauseFileIgnored | Protocol.ListenerPausedOnSettings |

## Left out

- The GUI: frames, labels, status messages, the tray icon and the window title. `update_keybind_labels` is modelled only for its outcome and the texts it would show (`Keybinds.KeybindLabels`); the label widgets, and the rows already relabelled before the KeyError, are not.
- `ask_to_save`, saving and loading sequences, and the sequence list. Only the in-memory recording is modelled.
- Starting and stopping the listener subprocess, `close_app`, `record_keybind`, and the licence and network code. They start or end the processes, or sit beside them, and change nothing about recording, playback, keybinds or trigger handling while both processes run.
- Wall-clock time is a parameter: capture callbacks take `now`, and writes to the keybind file take their modification time.
- The sleeps are recorded as `Sleep` effects, not performed.
- Scheduler.Wait: integer milliseconds, not floating-point seconds, so the accumulation of `elapsed += 0.1` and its rounding are not modelled.
- Scheduler.IntervalUninterrupted: states 50 slices for the 5-second wait between iterations. In floating point, fifty additions of 0.1 give just under 5, so the source takes a 51st, near-zero slice and one more read of the flag. Some gaps between events that are multiples of 100 ms take such an extra slice too (800-1100 ms, for example), and others do not (100-700 ms).
- Scheduler.Play: the other thread's writes to `looping` are an input feed of read values. Other races between threads are not modelled, such as `events` changing during playback or two loop threads interleaving.
- Recorder.App.StartTask: the started thread is counted in `loopsStarted`; its run is `LoopPlayback`, not an actual thread.
- Recorder.App.CheckForTriggers: a handler that raises is modelled as having no effect (the `failing` set), not as failing part way through. The rescheduling with `root.after` is one call per poll.
- Platform.Lower: only ASCII letters are lower-cased; Unicode case mapping is not modelled.
- JSON parsing is not modelled. The keybind file is an already-parsed document: anything `json.load` or the `.get` calls reject is `Unparsable`, and any value that is not a two-string list is `Malformed`. The source's `[modifier_str, key_str]` unpacking accepts any two-element iterable, such as the string "sh" or a list of two numbers. The recorder would adopt such a value. The listener would keep it as a chord when its first element names a special key, and such a chord may never fire. The model instead rejects the whole file.
- Keys that pynput reports with neither a name nor a character are `NoChar` keys, which match no chord.
- Mouse buttons are limited to left, right and middle.
- HotkeyListener.Listener.Start: the input hooks, the reload thread and the sleeping main loop are not modelled.
- The listener's sleep of `CHECK_INTERVAL` is not modelled; `CheckKeybindsFileOnce` is one pass of the loop.
- The listener's `print` calls are left out.
