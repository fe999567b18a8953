/** The recorder's main process (client/app.py) as a class whose fields are
    the module's globals. Each method performs one function of the source in
    place and states its effect through the functions of RecorderSession,
    Scheduler and Keybinds. */
module Recorder {
  import opened Dicts
  import opened Platform
  import opened Scheduler
  import opened Keybinds
  import opened RecorderSession

  /** The marker the settings page creates to pause the hotkey listener. */
  const APP_PAUSE_FILE := "client/pause_listener.trigger"

  class App {
    const disk: Disk
    var recording: bool
    var looping: bool
    var playing: bool
    var events: seq<Event>
    var sequenceName: string
    /** The calls made on the mouse and keyboard controllers, and the sleeps
        of the playback thread, in order. */
    var controller: seq<Effect>
    /** How many loop_playback threads start_task has started. */
    var loopsStarted: nat
    var appName: string
    var keybinds: Dict<Binding>
    var pendingKeybinds: Dict<Binding>
    var settingsActive: bool

    function State(): Session
      reads this
    {
      Session(recording, looping, events, sequenceName, controller, loopsStarted)
    }

    function KeybindState(): Settings
      reads this
    {
      Settings(appName, keybinds, pendingKeybinds)
    }

    /** The state at start-up; the app name is whatever the title field was
        created with. */
    constructor (disk: Disk, appName: string)
      ensures this.disk == disk && this.appName == appName
      ensures State() == Session(false, false, [], "Untitled", [], 0)
      ensures keybinds == pendingKeybinds == DEFAULT_KEYBINDS
      ensures !playing && !settingsActive
    {
      this.disk := disk;
      recording, looping, playing := false, false, false;
      events := [];
      sequenceName := "Untitled";
      controller := [];
      loopsStarted := 0;
      this.appName := appName;
      keybinds := DEFAULT_KEYBINDS;
      pendingKeybinds := DEFAULT_KEYBINDS;
      settingsActive := false;
    }

    // ------------------------------------------------------------------
    // Capture callbacks (client/app.py:97-111).

    method OnMove(x: int, y: int, now: int)
      modifies this`events
      ensures State() == Capture(old(State()), Event(Move(x, y), now))
    {
      if recording {
        events := events + [Event(Move(x, y), now)];
      }
    }

    /** Only the press of a button is recorded, never its release. */
    method OnClick(x: int, y: int, button: Button, pressed: bool, now: int)
      modifies this`events
      ensures State() == if pressed then Capture(old(State()), Event(Click(x, y, button), now)) else old(State())
    {
      if recording && pressed {
        events := events + [Event(Click(x, y, button), now)];
      }
    }

    method OnPress(key: Key, now: int)
      modifies this`events
      ensures State() == Capture(old(State()), Event(KeyPress(key), now))
    {
      if recording {
        events := events + [Event(KeyPress(key), now)];
      }
    }

    method OnRelease(key: Key, now: int)
      modifies this`events
      ensures State() == Capture(old(State()), Event(KeyRelease(key), now))
    {
      if recording {
        events := events + [Event(KeyRelease(key), now)];
      }
    }

    // ------------------------------------------------------------------
    // The commands (client/app.py:114-132, 187-201).

    method StartRecording()
      modifies this`recording, this`sequenceName, this`events
      ensures State() == RecorderSession.StartRecording(old(State()))
    {
      if !recording {
        sequenceName := "Untitled";
        recording := true;
        events := [];
      }
    }

    method StopRecording()
      modifies this`recording
      ensures State() == RecorderSession.StopRecording(old(State()))
    {
      if recording {
        recording := false;
      }
    }

    /** The started thread runs LoopPlayback. */
    method StartTask()
      modifies this`loopsStarted
      ensures State() == RecorderSession.StartTask(old(State()))
    {
      if !looping && events != [] {
        loopsStarted := loopsStarted + 1;
      }
    }

    method EndTask()
      modifies this`looping, this`controller
      ensures State() == RecorderSession.EndTask(old(State()))
    {
      looping := false;
      ReleaseGuardKeys();
    }

    /** The six modifier releases. */
    method ReleaseGuardKeys()
      modifies this`controller
      ensures controller == old(controller) + RELEASE_GUARD
    {
      var keys := ["shift_l", "shift_r", "ctrl_l", "ctrl_r", "alt_l", "alt_r"];
      var i := 0;
      while i < |keys|
        invariant 0 <= i <= |keys|
        invariant controller == old(controller) + RELEASE_GUARD[..i]
      {
        controller := controller + [ReleaseKey(Special(keys[i]))];
        assert RELEASE_GUARD[..i + 1] == RELEASE_GUARD[..i] + [RELEASE_GUARD[i]];
        i := i + 1;
      }
    }

    /** `globals()[command]()` for the four polled commands. */
    method HandleCommand(command: string)
      modifies this`recording, this`sequenceName, this`events, this`looping, this`controller, this`loopsStarted
      ensures State() == Handle(old(State()), command)
    {
      if command == "start_recording" {
        StartRecording();
      } else if command == "stop_recording" {
        StopRecording();
      } else if command == "start_task" {
        StartTask();
      } else if command == "end_task" {
        EndTask();
      }
    }

    /** check_for_triggers, one poll, without rescheduling itself. */
    method CheckForTriggers(failing: set<string>)
      modifies this`recording, this`sequenceName, this`events, this`looping, this`controller, this`loopsStarted
      modifies disk`paths
      ensures Polled(State(), disk.paths) == Poll(old(State()), old(disk.paths), settingsActive, failing)
    {
      if settingsActive {
        return;
      }
      var i := 0;
      while i < |POLLED_COMMANDS|
        invariant 0 <= i <= |POLLED_COMMANDS|
        invariant PollFrom(State(), disk.paths, POLLED_COMMANDS[i..], failing)
               == PollFrom(old(State()), old(disk.paths), POLLED_COMMANDS, failing)
      {
        var command := POLLED_COMMANDS[i];
        var file := TriggerFile(command);
        if file in disk.paths && command !in failing {
          HandleCommand(command);
          disk.Remove(file);
        }
        assert POLLED_COMMANDS[i..][1..] == POLLED_COMMANDS[i + 1..];
        i := i + 1;
      }
    }

    // ------------------------------------------------------------------
    // Playback (client/app.py:134-185). `feed` holds the values the reads
    // of `looping` see; each method returns the part it did not use.

    /** One read of `looping` by the playback thread. */
    method ReadLooping(feed: seq<bool>) returns (rest: seq<bool>)
      modifies this`looping
      ensures Flag(looping, rest) == Read(Flag(old(looping), feed))
    {
      if feed == [] {
        looping, rest := false, [];
      } else {
        looping, rest := feed[0], feed[1..];
      }
    }

    /** `while elapsed < sleep_time and looping: sleep(...)`. */
    method WaitSliced(sleep: int, feed: seq<bool>) returns (rest: seq<bool>)
      modifies this`controller, this`looping
      ensures var w := Wait(sleep, 0, Flag(old(looping), feed));
        controller == old(controller) + w.effects && Flag(looping, rest) == w.flag
    {
      rest := feed;
      var elapsed: nat := 0;
      while elapsed < sleep
        invariant Then(controller, Wait(sleep, elapsed, Flag(looping, rest)))
               == Then(old(controller), Wait(sleep, 0, Flag(old(looping), feed)))
        decreases sleep - elapsed
      {
        rest := ReadLooping(rest);
        if !looping {
          break;
        }
        var slice := Min(SLICE, sleep - elapsed);
        ghost var next := Wait(sleep, elapsed + SLICE, Flag(looping, rest));
        assert controller + ([Sleep(slice)] + next.effects) == controller + [Sleep(slice)] + next.effects;
        controller := controller + [Sleep(slice)];
        elapsed := elapsed + SLICE;
      }
    }

    /** The controller calls that replay one event. */
    method Dispatch(input: Input)
      modifies this`controller
      ensures controller == old(controller) + Replay(input)
    {
      match input {
        case Move(x, y) =>
          controller := controller + [SetPosition(x, y)];
        case Click(x, y, button) =>
          controller := controller + [SetPosition(x, y)];
          controller := controller + [ClickButton(button)];
        case KeyPress(key) =>
          controller := controller + [PressKey(key)];
        case KeyRelease(key) =>
          controller := controller + [ReleaseKey(key)];
      }
    }

    /** One turn of playback's loop over the events. */
    method PlayEvent(event: Event, start: int, feed: seq<bool>) returns (rest: seq<bool>)
      modifies this`controller, this`looping
      ensures var st := Step(event, start, Flag(old(looping), feed));
        controller == old(controller) + st.effects && Flag(looping, rest) == st.flag
    {
      rest := ReadLooping(feed);
      if !looping {
        assert controller + [] == controller;
        return;
      }
      rest := WaitSliced(Max(0, event.time - start), rest);
      rest := ReadLooping(rest);
      if !looping {
        return;
      }
      Dispatch(event.input);
    }

    /** playback: replays the events with their recorded gaps, as long as
        `looping` stays set, then releases the modifier keys. */
    method Playback(feed: seq<bool>) returns (rest: seq<bool>)
      modifies this`controller, this`looping, this`playing
      ensures var p := Play(events, Flag(old(looping), feed));
        controller == old(controller) + p.effects && Flag(looping, rest) == p.flag
      ensures events == [] ==> playing == old(playing)
      ensures events != [] ==> !playing
    {
      rest := feed;
      if events == [] {
        assert controller + [] == controller;
        return;
      }
      playing := true;
      var start := events[0].time;
      ghost var whole := PlayFrom(events, start, Flag(looping, feed));
      ghost var left := whole;
      var i := 0;
      while i < |events|
        invariant 0 <= i <= |events|
        invariant left == PlayFrom(events[i..], start, Flag(looping, rest))
        invariant Then(controller, left) == Then(old(controller), whole)
      {
        ghost var before := controller;
        PlayFromStep(events[i..], start, Flag(looping, rest));
        var event := events[i];
        rest := PlayEvent(event, start, rest);
        if !looping {
          left := Run([], Flag(looping, rest));
          assert controller + [] == controller;
          break;
        }
        assert events[i..][1..] == events[i + 1..];
        left := PlayFrom(events[i + 1..], event.time, Flag(looping, rest));
        ghost var st := controller[|before|..];
        assert controller == before + st;
        EffectsAssoc(before, st, left.effects);
        start := event.time;
        i := i + 1;
      }
      assert events[i..] == [] ==> left == Run([], Flag(looping, rest));
      assert controller + [] == controller;
      ReleaseGuardKeys();
      playing := false;
    }

    /** One pass of loop_playback's `while looping` body. */
    method LoopIteration(feed: seq<bool>) returns (rest: seq<bool>)
      modifies this`controller, this`looping, this`playing
      ensures var it := Iteration(events, Flag(old(looping), feed));
        controller == old(controller) + it.effects && Flag(looping, rest) == it.flag
    {
      rest := Playback(feed);
      ghost var afterPlay := controller;
      rest := ReadLooping(rest);
      if looping {
        ghost var w := Wait(LOOP_INTERVAL, 0, Flag(looping, rest));
        rest := WaitSliced(LOOP_INTERVAL, rest);
        EffectsAssoc(old(controller), afterPlay[|old(controller)|..], w.effects);
      } else {
        assert controller == afterPlay;
      }
    }

    /** loop_playback: the body of the thread start_task starts. */
    method LoopPlayback(feed: seq<bool>) returns (rest: seq<bool>)
      modifies this`controller, this`looping, this`playing
      ensures var l := Loop(events, feed);
        controller == old(controller) + l.effects && rest == l.flag.feed
      ensures !looping && !playing
    {
      looping := true;
      rest := feed;
      ghost var evs := events;
      ghost var whole := LoopFrom(evs, Flag(true, feed));
      while true
        invariant events == evs
        invariant Then(controller, LoopFrom(evs, Flag(looping, rest))) == Then(old(controller), whole)
        decreases |rest|
      {
        ghost var f0 := Flag(looping, rest);
        rest := ReadLooping(rest);
        if !looping {
          assert controller + [] == controller;
          break;
        }
        ghost var before := controller;
        ghost var it := Iteration(evs, Flag(looping, rest));
        ghost var tail := LoopFrom(evs, it.flag);
        assert LoopFrom(evs, f0) == Then(it.effects, tail);
        rest := LoopIteration(rest);
        assert controller == before + it.effects;
        assert Flag(looping, rest) == it.flag;
        EffectsAssoc(before, it.effects, tail.effects);
      }
      playing := false;
    }

    // ------------------------------------------------------------------
    // Keybinds (client/app.py:307-358, 392-399).

    method SaveKeybindsToFile(now: int)
      modifies disk
      ensures disk.paths == old(disk.paths) + {KEYBINDS_FILE}
      ensures disk.config == SavedDocument(appName, keybinds) && disk.configModified == now
    {
      disk.WriteConfig(SavedDocument(appName, keybinds), now);
    }

    /** The `for action, [modifier_str, key_str] in ...` loop of
        load_keybinds_from_file, with the exception a malformed value raises
        as None. */
    method ReadKnownActions(field: Field) returns (r: Option<Dict<Binding>>)
      ensures r == FileKeybinds(field)
    {
      match field {
        case Absent =>
          var none: Dict<Binding> := [];
          return Some(none);
        case NotAnObject =>
          return None;
        case Object(ms) =>
          var known: seq<Item<Binding>> := [];
          var i := 0;
          while i < |ms|
            invariant 0 <= i <= |ms|
            invariant AllPairs(ms[..i])
            invariant known == KnownActions(ms[..i])
          {
            var item := ms[i];
            if item.value.Malformed? {
              return None;
            }
            if item.key in ACTIONS {
              known := known + [Item(item.key, Binding(item.value.modifier, item.value.key))];
            }
            assert ms[..i + 1][..i] == ms[..i];
            i := i + 1;
          }
          assert ms[..i] == ms;
          KnownActionsIsDict(ms);
          var kb: Dict<Binding> := known;
          return Some(kb);
      }
    }

    method LoadKeybindsFromFile(now: int) returns (ok: bool)
      modifies this`appName, this`keybinds, this`pendingKeybinds, disk
      ensures var r := LoadFromFile(old(KEYBINDS_FILE in disk.paths), old(disk.config), old(KeybindState()));
        ok == r.ok && KeybindState() == r.settings &&
        if r.saved then
          disk.paths == old(disk.paths) + {KEYBINDS_FILE}
          && disk.config == SavedDocument(r.settings.appName, r.settings.keybinds) && disk.configModified == now
        else
          disk.paths == old(disk.paths) && disk.config == old(disk.config)
          && disk.configModified == old(disk.configModified)
    {
      if KEYBINDS_FILE !in disk.paths {
        SaveKeybindsToFile(now);
        return false;
      }
      match disk.config {
        case Unparsable =>
          return false;
        case Json(name, field) =>
          if name.Some? {
            appName := name.value;
          }
          var parsed := ReadKnownActions(field);
          match parsed {
            case None =>
              return false;
            case Some(kb) =>
              if kb != [] {
                keybinds := kb;
                pendingKeybinds := kb;
                ok := KeybindLabels(pendingKeybinds).Some?;
                return;
              }
              keybinds := DEFAULT_KEYBINDS;
              pendingKeybinds := DEFAULT_KEYBINDS;
              SaveKeybindsToFile(now);
              return false;
          }
      }
    }

    /** The map part of reset_to_defaults; nothing is written. */
    method ResetToDefaults()
      modifies this`appName, this`keybinds, this`pendingKeybinds
      ensures KeybindState() == Settings(DEFAULT_APP_NAME, DEFAULT_KEYBINDS, DEFAULT_KEYBINDS)
    {
      appName := DEFAULT_APP_NAME;
      keybinds := DEFAULT_KEYBINDS;
      pendingKeybinds := DEFAULT_KEYBINDS;
    }

    method UpdateKeybind(action: string, modifier: string, key: string)
      modifies this`pendingKeybinds
      ensures pendingKeybinds == UpdatePending(old(pendingKeybinds), action, modifier, key)
    {
      if modifier in SPECIAL_KEY_NAMES && action in Keys(pendingKeybinds) {
        pendingKeybinds := Replace(pendingKeybinds, action, Binding(modifier, key));
      }
    }

    /** apply_keybinds: the edited map comes into force; the label refresh
        that comes next raises when the map lacks an action, and the save
        after it is then never reached. */
    method ApplyKeybinds(now: int) returns (saved: bool)
      modifies this`keybinds, disk
      ensures keybinds == pendingKeybinds
      ensures saved <==> ACTIONS <= Keys(pendingKeybinds)
      ensures saved ==> disk.paths == old(disk.paths) + {KEYBINDS_FILE}
                        && disk.config == SavedDocument(appName, pendingKeybinds) && disk.configModified == now
      ensures !saved ==> disk.paths == old(disk.paths) && disk.config == old(disk.config)
                         && disk.configModified == old(disk.configModified)
    {
      keybinds := pendingKeybinds;
      saved := KeybindLabels(pendingKeybinds).Some?;
      if saved {
        SaveKeybindsToFile(now);
      }
    }

    // ------------------------------------------------------------------
    // Pages and the pause marker (client/app.py:508-538).

    method ShowMain()
      modifies this`settingsActive, disk`paths
      ensures !settingsActive && disk.paths == old(disk.paths) - {APP_PAUSE_FILE}
    {
      settingsActive := false;
      if APP_PAUSE_FILE in disk.paths {
        disk.Remove(APP_PAUSE_FILE);
      }
    }

    method ShowSequences()
      modifies this`settingsActive, disk`paths
      ensures !settingsActive && disk.paths == old(disk.paths) - {APP_PAUSE_FILE}
    {
      settingsActive := false;
      if APP_PAUSE_FILE in disk.paths {
        disk.Remove(APP_PAUSE_FILE);
      }
    }

    method ShowSettings()
      modifies this`settingsActive, disk`paths
      ensures settingsActive && disk.paths == old(disk.paths) + {APP_PAUSE_FILE}
    {
      settingsActive := true;
      disk.Create(APP_PAUSE_FILE);
    }
  }
}
