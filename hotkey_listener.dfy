/** The hotkey listener process (client/modules/key_listener.py): it reloads
    its chords from the keybind file when the file's modification time
    changes, tracks the keys held down, and signals the recorder by creating
    a trigger file when a chord completes. */
module HotkeyListener {
  import opened Dicts
  import opened Platform

  /** The actions the listener knows and the command each one signals. */
  const COMMANDS: map<string, string> :=
    map["start_record" := "start_recording", "stop" := "stop", "start_task" := "play_task"]

  /** The marker whose presence pauses the listener. */
  const PAUSE_FILE := "pause_listener.trigger"

  /** The second key of a chord: a special key when its name is one, and
      otherwise the name itself, compared against typed characters. */
  datatype BindKey = BoundKey(key: Key) | BoundText(text: string)

  /** A modifier key and the key to press while it is held. */
  datatype Chord = Chord(modifier: Key, key: BindKey)

  function ToBindKey(name: string): BindKey {
    if name in SPECIAL_KEY_NAMES then BoundKey(Special(name)) else BoundText(name)
  }

  /** The chord a "keybinds" entry becomes, if the listener keeps it: only for
      a known action whose modifier names a special key. */
  function Accept(action: string, v: Option<Value>): Option<Chord> {
    if v.Some? && v.value.Pair? && action in COMMANDS && v.value.modifier in SPECIAL_KEY_NAMES
    then Some(Chord(Special(v.value.modifier), ToBindKey(v.value.key)))
    else None
  }

  /** Every chord is for a known action and has a special key as modifier. */
  predicate WellFormed(kb: seq<Item<Chord>>) {
    forall i :: 0 <= i < |kb| ==>
      kb[i].key in COMMANDS && kb[i].value.modifier.Special? && kb[i].value.modifier.name in SPECIAL_KEY_NAMES
  }

  /** The entries the listener keeps, in file order. */
  function Chords(ms: seq<Item<Value>>): (r: seq<Item<Chord>>)
    requires AllPairs(ms)
    ensures WellFormed(r)
    decreases |ms|
  {
    if ms == [] then []
    else
      var last := ms[|ms| - 1];
      var c := Accept(last.key, Some(last.value));
      Chords(ms[..|ms| - 1]) + if c.Some? then [Item(last.key, c.value)] else []
  }

  /** Appending an entry appends its chord, if the listener keeps it. */
  lemma ChordsSnoc(init: seq<Item<Value>>, x: Item<Value>)
    requires AllPairs(init + [x])
    ensures AllPairs(init)
    ensures var c := Accept(x.key, Some(x.value));
      Chords(init + [x]) == Chords(init) + if c.Some? then [Item(x.key, c.value)] else []
  {
    assert (init + [x])[..|init|] == init;
  }

  /** The chord an entry contributes, as a sequence of at most one. */
  function Kept(x: Item<Value>): seq<Item<Chord>> {
    var c := Accept(x.key, Some(x.value));
    if c.Some? then [Item(x.key, c.value)] else []
  }

  /** Three entries give their chords in order. */
  lemma ChordsOfThree(a: Item<Value>, b: Item<Value>, c: Item<Value>)
    requires AllPairs([a, b, c])
    ensures Chords([a, b, c]) == Kept(a) + Kept(b) + Kept(c)
  {
    assert a.value.Pair? && b.value.Pair? && c.value.Pair? by {
      assert [a, b, c][0] == a && [a, b, c][1] == b && [a, b, c][2] == c;
    }
    var none: seq<Item<Value>> := [];
    assert none + [a] == [a];
    ChordsSnoc(none, a);
    assert [a] + [b] == [a, b];
    ChordsSnoc([a], b);
    assert [a, b] + [c] == [a, b, c];
    ChordsSnoc([a, b], c);
  }

  /** An action has a chord after loading exactly when the file binds it to
      a pair the listener accepts. */
  lemma {:induction false} ChordsGet(ms: Dict<Value>, a: string)
    requires AllPairs(ms)
    ensures Get(Chords(ms), a) == Accept(a, Get(ms, a))
    decreases |ms|
  {
    if ms != [] {
      var init: Dict<Value> := ms[..|ms| - 1];
      var last := ms[|ms| - 1];
      assert ms == init + [last];
      assert Get(init, last.key).None?;
      var r0 := Chords(init);
      var c := Accept(last.key, Some(last.value));
      ChordsGet(init, a);
      GetSnoc(init, last, a);
      if c.Some? {
        assert Chords(ms) == r0 + [Item(last.key, c.value)];
        GetSnoc(r0, Item(last.key, c.value), a);
      } else {
        assert Chords(ms) == r0;
      }
    }
  }

  lemma {:induction false} ChordsIsDict(ms: Dict<Value>)
    requires AllPairs(ms)
    ensures IsDict(Chords(ms))
    decreases |ms|
  {
    if ms != [] {
      var init: Dict<Value> := ms[..|ms| - 1];
      var last := ms[|ms| - 1];
      ChordsIsDict(init);
      if Accept(last.key, Some(last.value)).Some? {
        assert Get(init, last.key).None?;
        ChordsGet(init, last.key);
      }
    }
  }

  /** The "keybinds" member as load_keybinds reads it: a missing member is an
      empty object; a member that is not an object, or any value that does
      not unpack, raises and is None. */
  function FileChords(f: Field): (r: Option<Dict<Chord>>)
    ensures r.Some? <==> f.Absent? || (f.Object? && AllPairs(f.members))
    ensures r.Some? ==> WellFormed(r.value)
    ensures f.Absent? ==> r.Some? && r.value == []
    ensures r.Some? && f.Object? ==> forall a :: Get(r.value, a) == Accept(a, Get(f.members, a))
  {
    match f
    case Absent => var none: Dict<Chord> := []; Some(none)
    case NotAnObject => None
    case Object(ms) =>
      if AllPairs(ms) then
        ChordsIsDict(ms);
        assert forall a :: Get(Chords(ms), a) == Accept(a, Get(ms, a)) by {
          forall a {
            ChordsGet(ms, a);
          }
        }
        var kb: Dict<Chord> := Chords(ms);
        Some(kb)
      else None
  }

  /** What load_keybinds returns, and the chords and modification time it
      leaves behind. */
  datatype Reloaded = Reloaded(ok: bool, keybinds: Dict<Chord>, lastModified: int)

  /** load_keybinds, given whether the file exists, its content and its
      modification time. */
  function Reload(present: bool, doc: Document, mtime: int, last: int, kb: Dict<Chord>): (r: Reloaded)
    ensures !present ==> r == Reloaded(false, kb, last)
    ensures present && mtime == last ==> r == Reloaded(true, kb, last)
    ensures !r.ok ==> r.keybinds == kb && r.lastModified == last
    ensures present && mtime != last ==>
      (r.ok <==> doc.Json? && FileChords(doc.keybinds).Some?) &&
      (r.ok ==> r.keybinds == FileChords(doc.keybinds).value && r.lastModified == mtime)
  {
    if !present then Reloaded(false, kb, last)
    else if mtime == last then Reloaded(true, kb, last)
    else match doc
      case Unparsable => Reloaded(false, kb, last)
      case Json(_, f) =>
        match FileChords(f)
        case None => Reloaded(false, kb, last)
        case Some(parsed) => Reloaded(true, parsed, mtime)
  }

  /** Whether a pressed key is the second key of a chord: a typed character
      matches a name equal to its lower-case form, a special key matches
      itself. */
  predicate Matches(b: BindKey, key: Key) {
    match b
    case BoundText(s) => key.Char? && [Lower(key.c)] == s
    case BoundKey(k) => key.Special? && key == k
  }

  /** A chord fires when its modifier is held and the key pressed matches. */
  predicate Fires(c: Chord, held: set<Key>, key: Key) {
    c.modifier in held && Matches(c.key, key)
  }

  /** The position of the first chord, in map order, that fires. */
  function FirstMatch(kb: seq<Item<Chord>>, held: set<Key>, key: Key): (r: Option<nat>)
    ensures r.None? <==> forall j :: 0 <= j < |kb| ==> !Fires(kb[j].value, held, key)
    ensures r.Some? ==> r.value < |kb| && Fires(kb[r.value].value, held, key)
    ensures r.Some? ==> forall j :: 0 <= j < r.value ==> !Fires(kb[j].value, held, key)
    decreases |kb|
  {
    if kb == [] then None
    else if Fires(kb[0].value, held, key) then Some(0)
    else
      var r := FirstMatch(kb[1..], held, key);
      if r.None? then None else Some(r.value + 1)
  }

  /** The keys held after a press and the command it signals, if any. */
  datatype Pressed = Pressed(held: set<Key>, fired: Option<string>)

  /** on_press when not paused: the key joins the held keys; the first chord
      that fires signals its command and every key is forgotten. */
  function Press(held: set<Key>, kb: Dict<Chord>, key: Key): (r: Pressed)
    requires WellFormed(kb)
    ensures r.fired.None? ==> r.held == held + {key}
    ensures r.fired.Some? ==> r.held == {}
    ensures r.fired.Some? <==> exists j :: 0 <= j < |kb| && Fires(kb[j].value, held + {key}, key)
  {
    match FirstMatch(kb, held + {key}, key)
    case None => Pressed(held + {key}, None)
    case Some(i) => Pressed({}, Some(COMMANDS[kb[i].key]))
  }

  /** The command signalled by a press is the first matching chord's, so a
      press signals at most one command. */
  lemma PressSignalsFirstMatch(held: set<Key>, kb: Dict<Chord>, key: Key, i: nat)
    requires WellFormed(kb) && i < |kb|
    requires Fires(kb[i].value, held + {key}, key)
    requires forall j :: 0 <= j < i ==> !Fires(kb[j].value, held + {key}, key)
    ensures Press(held, kb, key) == Pressed({}, Some(COMMANDS[kb[i].key]))
  {
    var m := FirstMatch(kb, held + {key}, key);
    assert m.Some?;
    assert !(m.value < i) && !(i < m.value);
  }

  /** A match forgets the held modifier: after any press that signals a
      command, pressing the same character again while the modifier is still
      physically down signals nothing until the modifier is pressed again. */
  lemma SecondPressNeedsModifier(held: set<Key>, kb: Dict<Chord>, key: Key)
    requires WellFormed(kb) && key.Char?
    requires Press(held, kb, key).fired.Some?
    ensures Press(Press(held, kb, key).held, kb, key).fired.None?
  {
    var first := Press(held, kb, key);
    forall j | 0 <= j < |kb| ensures !Fires(kb[j].value, first.held + {key}, key) {
      assert kb[j].value.modifier.Special?;
    }
  }

  /** on_release when not paused: the key is no longer held, and the
      listener stops exactly when esc is released while ctrl_l is held. */
  function Release(held: set<Key>, key: Key): (r: (set<Key>, bool))
    ensures forall k :: k in r.0 <==> k in held && k != key
    ensures r.1 <==> key == Special("esc") && Special("ctrl_l") in held
  {
    (held - {key}, key == Special("esc") && Special("ctrl_l") in held - {key})
  }

  /** Pressing a key that was not held and fires nothing, then releasing
      it, leaves the held keys as they were and does not stop the listener. */
  lemma PressThenRelease(held: set<Key>, kb: Dict<Chord>, key: Key)
    requires WellFormed(kb) && key !in held && key != Special("esc")
    requires Press(held, kb, key).fired.None?
    ensures Release(Press(held, kb, key).held, key) == (held, false)
  {
    var r := Release(Press(held, kb, key).held, key);
    assert r.0 == held;
  }

  /** The listener's own default file, written when the keybind file cannot
      be loaded at start-up. */
  const LISTENER_DEFAULTS: Dict<Value> :=
    [Item("start_record", Pair("shift_l", "r")),
     Item("stop", Pair("shift_l", "q")),
     Item("start_task", Pair("shift_l", "s"))]

  const LISTENER_DEFAULT_DOC: Document := Json(Some("Recorder"), Object(LISTENER_DEFAULTS))

  /** The listener keeps all three of its own defaults. */
  lemma ListenerDefaultsKept()
    ensures var r := FileChords(LISTENER_DEFAULT_DOC.keybinds);
      r.Some? && r.value ==
        [Item("start_record", Chord(Special("shift_l"), BoundText("r"))),
         Item("stop", Chord(Special("shift_l"), BoundText("q"))),
         Item("start_task", Chord(Special("shift_l"), BoundText("s")))]
  {
    var a := Item("start_record", Pair("shift_l", "r"));
    var b := Item("stop", Pair("shift_l", "q"));
    var c := Item("start_task", Pair("shift_l", "s"));
    assert LISTENER_DEFAULTS == [a, b, c];
    ChordsOfThree(a, b, c);
    assert "r" !in SPECIAL_KEY_NAMES && "q" !in SPECIAL_KEY_NAMES && "s" !in SPECIAL_KEY_NAMES;
    assert Kept(a) == [Item("start_record", Chord(Special("shift_l"), BoundText("r")))];
    assert Kept(b) == [Item("stop", Chord(Special("shift_l"), BoundText("q")))];
    assert Kept(c) == [Item("start_task", Chord(Special("shift_l"), BoundText("s")))];
  }

  /** The state of the listener process. */
  class Listener {
    const disk: Disk
    /** The keys currently held, as far as the listener knows. */
    var pressed: set<Key>
    var keybinds: Dict<Chord>
    /** The modification time of the keybind file when it was last parsed. */
    var lastModified: int

    predicate Valid()
      reads this
    {
      WellFormed(keybinds)
    }

    constructor (disk: Disk)
      ensures this.disk == disk && Valid()
      ensures pressed == {} && keybinds == [] && lastModified == 0
    {
      this.disk := disk;
      pressed := {};
      keybinds := [];
      lastModified := 0;
    }

    /** is_paused. */
    predicate IsPaused()
      reads disk
    {
      PAUSE_FILE in disk.paths
    }

    /** load_keybinds. */
    method LoadKeybinds() returns (ok: bool)
      requires Valid()
      modifies this`keybinds, this`lastModified
      ensures Valid()
      ensures Reloaded(ok, keybinds, lastModified)
           == Reload(KEYBINDS_FILE in disk.paths, disk.config, disk.configModified, old(lastModified), old(keybinds))
    {
      if KEYBINDS_FILE !in disk.paths {
        return false;
      }
      var current := disk.configModified;
      if current == lastModified {
        return true;
      }
      match disk.config {
        case Unparsable =>
          return false;
        case Json(_, field) =>
          match field {
            case NotAnObject =>
              return false;
            case Absent =>
              keybinds := [];
              lastModified := current;
              return true;
            case Object(ms) =>
              var parsed;
              ok, parsed := ParseChords(ms);
              if ok {
                keybinds := parsed;
                lastModified := current;
              }
          }
      }
    }

    /** load_keybinds' loop over the "keybinds" entries: a malformed entry
        makes it fail, and otherwise the kept chords replace the old map. */
    static method ParseChords(ms: Dict<Value>) returns (ok: bool, parsed: Dict<Chord>)
      ensures ok <==> AllPairs(ms)
      ensures ok ==> parsed == Chords(ms)
    {
      var acc: seq<Item<Chord>> := [];
      var i := 0;
      while i < |ms|
        invariant 0 <= i <= |ms|
        invariant AllPairs(ms[..i])
        invariant acc == Chords(ms[..i])
      {
        var item := ms[i];
        if item.value.Malformed? {
          return false, [];
        }
        if item.value.modifier in SPECIAL_KEY_NAMES && item.key in COMMANDS {
          acc := acc + [Item(item.key, Chord(Special(item.value.modifier), ToBindKey(item.value.key)))];
        }
        assert ms[..i + 1][..i] == ms[..i];
        i := i + 1;
      }
      assert ms[..i] == ms;
      ChordsIsDict(ms);
      return true, acc;
    }

    /** One pass of check_keybinds_file's loop, without its sleep. */
    method CheckKeybindsFileOnce()
      requires Valid()
      modifies this`keybinds, this`lastModified
      ensures Valid()
      ensures IsPaused() ==> keybinds == old(keybinds) && lastModified == old(lastModified)
      ensures !IsPaused() ==>
        var r := Reload(KEYBINDS_FILE in disk.paths, disk.config, disk.configModified, old(lastModified), old(keybinds));
        keybinds == r.keybinds && lastModified == r.lastModified
    {
      if !IsPaused() {
        var _ := LoadKeybinds();
      }
    }

    /** execute_command: the trigger file exists afterwards; a second call
        before it is consumed leaves the same single file. */
    method ExecuteCommand(command: string)
      modifies disk`paths
      ensures disk.paths == old(disk.paths) + {TriggerFile(command)}
    {
      disk.Create(TriggerFile(command));
    }

    /** on_press. */
    method OnPress(key: Key)
      requires Valid()
      modifies this`pressed, disk`paths
      ensures old(IsPaused()) ==> pressed == old(pressed) && disk.paths == old(disk.paths)
      ensures !old(IsPaused()) ==>
        var p := Press(old(pressed), keybinds, key);
        pressed == p.held &&
        disk.paths == old(disk.paths) + if p.fired.Some? then {TriggerFile(p.fired.value)} else {}
    {
      if IsPaused() {
        return;
      }
      pressed := pressed + {key};
      var i := 0;
      while i < |keybinds|
        invariant 0 <= i <= |keybinds|
        invariant pressed == old(pressed) + {key} && disk.paths == old(disk.paths)
        invariant forall j :: 0 <= j < i ==> !Fires(keybinds[j].value, pressed, key)
      {
        var chord := keybinds[i].value;
        if chord.modifier in pressed {
          var keyMatches := false;
          if chord.key.BoundText? && key.Char? {
            keyMatches := [Lower(key.c)] == chord.key.text;
          } else if chord.key.BoundKey? && key.Special? {
            keyMatches := key == chord.key.key;
          }
          if keyMatches {
            PressSignalsFirstMatch(old(pressed), keybinds, key, i);
            ExecuteCommand(COMMANDS[keybinds[i].key]);
            pressed := {};
            return;
          }
        }
        i := i + 1;
      }
    }

    /** on_release; `stop` is the False that ends the listener. */
    method OnRelease(key: Key) returns (stop: bool)
      modifies this`pressed
      ensures IsPaused() ==> !stop && pressed == old(pressed)
      ensures !IsPaused() ==> (pressed, stop) == Release(old(pressed), key)
    {
      stop := false;
      if IsPaused() {
        return;
      }
      if key in pressed {
        pressed := pressed - {key};
      }
      if key == Special("esc") && Special("ctrl_l") in pressed {
        stop := true;
      }
      assert pressed == old(pressed) - {key};
    }

    /** main's start-up: load the keybind file, and if that fails write the
        listener's own defaults and load again. The input hooks and the
        reload thread it then starts are not part of this model. */
    method Start(now: int)
      requires Valid()
      modifies this`keybinds, this`lastModified, disk
      ensures Valid()
      ensures var first := Reload(old(KEYBINDS_FILE in disk.paths), old(disk.config), old(disk.configModified),
                                  old(lastModified), old(keybinds));
        if first.ok then
          keybinds == first.keybinds && lastModified == first.lastModified
          && disk.paths == old(disk.paths) && disk.config == old(disk.config)
          && disk.configModified == old(disk.configModified)
        else
          var second := Reload(true, LISTENER_DEFAULT_DOC, now, old(lastModified), old(keybinds));
          disk.paths == old(disk.paths) + {KEYBINDS_FILE} && disk.config == LISTENER_DEFAULT_DOC
          && disk.configModified == now
          && keybinds == second.keybinds && lastModified == second.lastModified
    {
      var ok := LoadKeybinds();
      if !ok {
        disk.WriteConfig(LISTENER_DEFAULT_DOC, now);
        ok := LoadKeybinds();
      }
    }
  }
}
