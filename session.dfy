/** The recorder's session state and the four commands the trigger poller
    dispatches (client/app.py:97-132, 172-201, 488-505), as functions of the
    state. The class in recorder.dfy performs them in place. */
module RecorderSession {
  import opened Platform
  import opened Scheduler

  /** The part of the recorder's state the commands change: whether it is
      recording, the `looping` flag, the recorded events, the sequence name,
      the controller calls made so far, and how many loop threads start_task
      has started. */
  datatype Session = Session(
    recording: bool,
    looping: bool,
    events: seq<Event>,
    sequenceName: string,
    controller: seq<Effect>,
    loopsStarted: nat)

  /** A capture callback's event, kept only while recording. */
  function Capture(s: Session, ev: Event): Session {
    if s.recording then s.(events := s.events + [ev]) else s
  }

  /** Several callbacks in a row. */
  function CaptureAll(s: Session, evs: seq<Event>): Session
    decreases |evs|
  {
    if evs == [] then s else CaptureAll(Capture(s, evs[0]), evs[1..])
  }

  function StartRecording(s: Session): Session {
    if s.recording then s else s.(sequenceName := "Untitled", recording := true, events := [])
  }

  function StopRecording(s: Session): Session {
    if s.recording then s.(recording := false) else s
  }

  /** start_task starts a loop thread; `looping` is only set once that thread
      runs. */
  function StartTask(s: Session): Session {
    if !s.looping && s.events != [] then s.(loopsStarted := s.loopsStarted + 1) else s
  }

  function EndTask(s: Session): Session {
    s.(looping := false, controller := s.controller + RELEASE_GUARD)
  }

  /** While recording every callback appends its event, in order. */
  lemma {:induction false} CaptureAllWhileRecording(s: Session, evs: seq<Event>)
    requires s.recording
    ensures CaptureAll(s, evs) == s.(events := s.events + evs)
    decreases |evs|
  {
    if evs != [] {
      CaptureAllWhileRecording(Capture(s, evs[0]), evs[1..]);
      assert s.events + [evs[0]] + evs[1..] == s.events + evs;
    }
  }

  /** While not recording the callbacks change nothing. */
  lemma {:induction false} CaptureAllWhileIdle(s: Session, evs: seq<Event>)
    requires !s.recording
    ensures CaptureAll(s, evs) == s
    decreases |evs|
  {
    if evs != [] {
      CaptureAllWhileIdle(s, evs[1..]);
    }
  }

  /** A recording session: starting, capturing and stopping leaves exactly the
      captured events, in order, under the name "Untitled". A start while
      already recording keeps what was recorded so far. */
  lemma RecordingSession(s: Session, evs: seq<Event>)
    ensures var r := StopRecording(CaptureAll(StartRecording(s), evs));
      !r.recording && r.events == (if s.recording then s.events + evs else evs)
      && r.sequenceName == (if s.recording then s.sequenceName else "Untitled")
      && r.looping == s.looping && r.controller == s.controller
  {
    CaptureAllWhileRecording(StartRecording(s), evs);
  }

  /** Stopping forgets nothing: the events stay as recorded, and a second
      stop changes nothing. */
  lemma StopKeepsEvents(s: Session)
    ensures StopRecording(s).events == s.events && !StopRecording(s).recording
    ensures StopRecording(StopRecording(s)) == StopRecording(s)
  {
  }

  /** start_task does not set `looping` itself, so two start_task calls
      before the first thread runs start two loops over the same events. */
  lemma StartTaskTwiceStartsTwoLoops(s: Session)
    requires !s.looping && s.events != []
    ensures StartTask(StartTask(s)).loopsStarted == s.loopsStarted + 2
  {
  }

  /** The commands the poller looks for, in the order it looks. */
  const POLLED_COMMANDS: seq<string> := ["start_recording", "stop_recording", "start_task", "end_task"]

  /** The handler `globals()[command]()` runs. */
  function Handle(s: Session, command: string): Session {
    if command == "start_recording" then StartRecording(s)
    else if command == "stop_recording" then StopRecording(s)
    else if command == "start_task" then StartTask(s)
    else if command == "end_task" then EndTask(s)
    else s
  }

  /** The state and the existing files after a poll. */
  datatype Polled = Polled(session: Session, paths: set<string>)

  /** The poller's loop over `commands`. `failing` are the commands whose
      handler raises: its file stays and it changes nothing. */
  function PollFrom(s: Session, paths: set<string>, commands: seq<string>, failing: set<string>): Polled
    decreases |commands|
  {
    if commands == [] then Polled(s, paths)
    else
      var c := commands[0];
      if TriggerFile(c) in paths && c !in failing
      then PollFrom(Handle(s, c), paths - {TriggerFile(c)}, commands[1..], failing)
      else PollFrom(s, paths, commands[1..], failing)
  }

  /** check_for_triggers: nothing at all while the settings page is shown. */
  function Poll(s: Session, paths: set<string>, settingsActive: bool, failing: set<string>): Polled {
    if settingsActive then Polled(s, paths) else PollFrom(s, paths, POLLED_COMMANDS, failing)
  }

  /** The trigger files a poll consumes. */
  function Consumed(commands: seq<string>, failing: set<string>): set<string> {
    set c | c in commands && c !in failing :: TriggerFile(c)
  }

  /** Two commands never share a trigger file. */
  lemma TriggerFileInjective(a: string, b: string)
    ensures TriggerFile(a) == TriggerFile(b) ==> a == b
  {
    if TriggerFile(a) == TriggerFile(b) {
      assert |a| == |b|;
      assert forall i :: 0 <= i < |a| ==> a[i] == TriggerFile(a)[i] == TriggerFile(b)[i] == b[i];
    }
  }

  /** A poll removes exactly the trigger files of the commands whose handler
      returned, and no other file. */
  lemma {:induction false} PollFromPaths(s: Session, paths: set<string>, commands: seq<string>, failing: set<string>)
    ensures PollFrom(s, paths, commands, failing).paths == paths - Consumed(commands, failing)
    decreases |commands|
  {
    if commands != [] {
      var c := commands[0];
      var rest := commands[1..];
      if TriggerFile(c) in paths && c !in failing {
        PollFromPaths(Handle(s, c), paths - {TriggerFile(c)}, rest, failing);
      } else {
        PollFromPaths(s, paths, rest, failing);
      }
      if c !in failing {
        assert Consumed(commands, failing) == {TriggerFile(c)} + Consumed(rest, failing);
      } else {
        assert Consumed(commands, failing) == Consumed(rest, failing) by {
          forall f | f in Consumed(commands, failing) ensures f in Consumed(rest, failing) {
            var d :| d in commands && d !in failing && f == TriggerFile(d);
            assert d != c;
          }
        }
      }
    }
  }

  /** While the settings page is shown a poll changes nothing; otherwise it
      removes exactly the files of the polled commands whose handler
      returned, and leaves every other file in place. */
  lemma PollPaths(s: Session, paths: set<string>, settingsActive: bool, failing: set<string>)
    ensures settingsActive ==> Poll(s, paths, settingsActive, failing) == Polled(s, paths)
    ensures !settingsActive ==>
      Poll(s, paths, settingsActive, failing).paths == paths - Consumed(POLLED_COMMANDS, failing)
  {
    PollFromPaths(s, paths, POLLED_COMMANDS, failing);
  }

  /** A handler that raises leaves its trigger file, so the command is tried
      again at the next poll. */
  lemma FailingTriggerStays(s: Session, paths: set<string>, failing: set<string>, c: string)
    requires c in failing && TriggerFile(c) in paths
    ensures TriggerFile(c) in Poll(s, paths, false, failing).paths
  {
    PollPaths(s, paths, false, failing);
    forall d | d in POLLED_COMMANDS && d !in failing ensures TriggerFile(d) != TriggerFile(c) {
      TriggerFileInjective(d, c);
    }
  }

  /** The commands are handled in the fixed order: with both the start and
      the stop trigger present, one poll starts a fresh recording and stops
      it again, leaving no events. */
  lemma PollStartThenStop(s: Session, paths: set<string>)
    requires !s.recording
    requires TriggerFile("start_recording") in paths && TriggerFile("stop_recording") in paths
    requires TriggerFile("start_task") !in paths && TriggerFile("end_task") !in paths
    ensures var r := Poll(s, paths, false, {}).session;
      !r.recording && r.events == [] && r.sequenceName == "Untitled"
  {
    var p1 := paths - {TriggerFile("start_recording")};
    assert TriggerFile("stop_recording") in p1;
    var p2 := p1 - {TriggerFile("stop_recording")};
    assert TriggerFile("start_task") !in p2 && TriggerFile("end_task") !in p2;
    assert POLLED_COMMANDS[1..][1..][1..][1..] == [];
  }
}
