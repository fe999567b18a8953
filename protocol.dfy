/** How the recorder and the hotkey listener talk to each other through the
    shared working directory: the listener's trigger files against the
    recorder's poll, the pause marker, and each side reading the keybind file
    the other side writes. */
module Protocol {
  import opened Dicts
  import opened Platform
  import opened Keybinds
  import opened HotkeyListener
  import opened RecorderSession
  import opened Recorder

  // ---------------------------------------------------------------------
  // Trigger files

  /** Of the three commands the listener signals, the recorder's poll only
      looks for the one start_record sends; "stop" and "play_task" name no
      handler the recorder polls for. */
  lemma OnlyStartRecordIsPolled(a: string)
    requires a in COMMANDS
    ensures COMMANDS[a] in POLLED_COMMANDS <==> a == "start_record"
  {
    assert POLLED_COMMANDS == ["start_recording", "stop_recording", "start_task", "end_task"];
    if a != "start_record" {
      assert a == "stop" || a == "start_task";
      assert COMMANDS[a] == "stop" || COMMANDS[a] == "play_task";
    }
  }

  /** The trigger file of a listener command the recorder does not poll is
      never consumed: it is still there after any poll. */
  lemma UnpolledTriggerStays(s: Session, paths: set<string>, settingsActive: bool, failing: set<string>, a: string)
    requires a in COMMANDS && a != "start_record"
    requires TriggerFile(COMMANDS[a]) in paths
    ensures TriggerFile(COMMANDS[a]) in Poll(s, paths, settingsActive, failing).paths
  {
    OnlyStartRecordIsPolled(a);
    PollPaths(s, paths, settingsActive, failing);
    forall d | d in POLLED_COMMANDS
      ensures TriggerFile(d) != TriggerFile(COMMANDS[a])
    {
      TriggerFileInjective(d, COMMANDS[a]);
    }
  }

  /** A start_record chord reaches the recorder: with only its trigger file
      present, the next poll outside the settings page starts a recording
      and removes the file. */
  lemma StartRecordChordStartsRecording(s: Session, paths: set<string>)
    requires TriggerFile(COMMANDS["start_record"]) in paths
    requires forall c | c in POLLED_COMMANDS[1..] :: TriggerFile(c) !in paths
    ensures var r := Poll(s, paths, false, {});
      r.session == StartRecording(s) && r.session.recording
      && r.paths == paths - {TriggerFile("start_recording")}
  {
    var p1 := paths - {TriggerFile("start_recording")};
    assert POLLED_COMMANDS[1..] == ["stop_recording", "start_task", "end_task"];
    assert TriggerFile("stop_recording") !in p1;
    assert TriggerFile("start_task") !in p1 && TriggerFile("end_task") !in p1;
    assert POLLED_COMMANDS[1..][1..][1..][1..] == [];
  }

  // ---------------------------------------------------------------------
  // The pause marker

  /** As written, the recorder's pages create and remove a marker the
      listener does not look at: the listener pauses exactly when it did
      before the page was shown, so a fresh directory leaves it running
      while the settings page is open. */
  lemma RecorderPauseFileIgnored(l: Listener, paths: set<string>, shown: bool)
    requires l.disk.paths == if shown then paths + {APP_PAUSE_FILE} else paths - {APP_PAUSE_FILE}
    ensures l.IsPaused() <==> PAUSE_FILE in paths
    ensures shown && paths == {} ==> !l.IsPaused()
  {
  }

  /** The recorder's pages. */
  datatype Page = MainPage | SequencesPage | SettingsPage

  /** The files after a page is shown, with the marker at the path the
      listener checks (and that the recorder removes when it closes). */
  function PageShown(page: Page, paths: set<string>): (r: set<string>)
    ensures PAUSE_FILE in r <==> page == SettingsPage
    ensures r - {PAUSE_FILE} == paths - {PAUSE_FILE}
  {
    if page == SettingsPage then paths + {PAUSE_FILE} else paths - {PAUSE_FILE}
  }

  /** With the shared marker, the listener is paused exactly while the
      settings page is shown, and no other file is touched. */
  lemma ListenerPausedOnSettings(l: Listener, page: Page, paths: set<string>)
    requires l.disk.paths == PageShown(page, paths)
    ensures l.IsPaused() <==> page == SettingsPage
  {
  }

  // ---------------------------------------------------------------------
  // Each side reading the other's keybind file

  /** The recorder's defaults as its save writes them. */
  lemma PackedDefaults()
    ensures PackAll(DEFAULT_KEYBINDS)
         == [Item("start_record", Pair("shift_l", "s")), Item("stop_record", Pair("shift_l", "p")),
             Item("start_task", Pair("shift_l", "r")), Item("end_task", Pair("shift_l", "q"))]
  {
  }

  /** The listener's chords for the recorder's default bindings. */
  lemma ChordsOfRecorderDefaults()
    ensures Chords(PackAll(DEFAULT_KEYBINDS)) ==
        [Item("start_record", Chord(Special("shift_l"), BoundText("s"))),
         Item("start_task", Chord(Special("shift_l"), BoundText("r")))]
  {
    var a := Item("start_record", Pair("shift_l", "s"));
    var b := Item("stop_record", Pair("shift_l", "p"));
    var c := Item("start_task", Pair("shift_l", "r"));
    var d := Item("end_task", Pair("shift_l", "q"));
    PackedDefaults();
    ChordsSnoc([a, b, c], d);
    assert [a, b, c] + [d] == PackAll(DEFAULT_KEYBINDS);
    assert Accept(d.key, Some(d.value)).None?;
    ChordsOfFirstThree(a, b, c);
  }

  lemma ChordsOfFirstThree(a: Item<Value>, b: Item<Value>, c: Item<Value>)
    requires a == Item("start_record", Pair("shift_l", "s"))
    requires b == Item("stop_record", Pair("shift_l", "p"))
    requires c == Item("start_task", Pair("shift_l", "r"))
    ensures Chords([a, b, c]) ==
        [Item("start_record", Chord(Special("shift_l"), BoundText("s"))),
         Item("start_task", Chord(Special("shift_l"), BoundText("r")))]
  {
    ChordsOfThree(a, b, c);
    assert "s" !in SPECIAL_KEY_NAMES && "r" !in SPECIAL_KEY_NAMES;
    assert Kept(a) == [Item("start_record", Chord(Special("shift_l"), BoundText("s")))];
    assert Kept(b) == [];
    assert Kept(c) == [Item("start_task", Chord(Special("shift_l"), BoundText("r")))];
  }

  /** The listener reading the file the recorder saves with its defaults
      keeps start_record (shift_l and "s") and start_task (shift_l and "r"):
      stop_record and end_task are not actions it knows. */
  lemma ListenerReadsRecorderDefaults()
    ensures var r := FileChords(SavedDocument(DEFAULT_APP_NAME, DEFAULT_KEYBINDS).keybinds);
      r.Some? && r.value ==
        [Item("start_record", Chord(Special("shift_l"), BoundText("s"))),
         Item("start_task", Chord(Special("shift_l"), BoundText("r")))]
  {
    ChordsOfRecorderDefaults();
  }

  /** The recorder's bindings for the listener's default entries. */
  lemma KnownActionsOfListenerDefaults()
    ensures KnownActions(LISTENER_DEFAULTS)
         == [Item("start_record", Binding("shift_l", "r")), Item("start_task", Binding("shift_l", "s"))]
  {
    var a := Item("start_record", Pair("shift_l", "r"));
    var b := Item("stop", Pair("shift_l", "q"));
    var c := Item("start_task", Pair("shift_l", "s"));
    var none: seq<Item<Value>> := [];
    KnownActionsSnoc(none, a);
    assert none + [a] == [a];
    KnownActionsSnoc([a], b);
    assert [a] + [b] == [a, b];
    KnownActionsSnoc([a, b], c);
    assert [a, b] + [c] == LISTENER_DEFAULTS;
  }

  /** The recorder reading the listener's default file takes its name and
      keeps start_record (shift_l and "r") and start_task (shift_l and "s"),
      the other way round from its own defaults; "stop" is dropped. That map
      is put in force, but it lacks stop_record and end_task, so the label
      refresh raises and the load reports failure. */
  lemma RecorderReadsListenerDefaults(s: Settings)
    ensures var kb := [Item("start_record", Binding("shift_l", "r")), Item("start_task", Binding("shift_l", "s"))];
      LoadFromFile(true, LISTENER_DEFAULT_DOC, s) == Loaded(false, Settings("Recorder", kb, kb), false)
  {
    KnownActionsOfListenerDefaults();
    var kb := [Item("start_record", Binding("shift_l", "r")), Item("start_task", Binding("shift_l", "s"))];
    assert Get(kb, "stop_record").None?;
  }
}
