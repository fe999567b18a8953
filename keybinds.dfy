/** The recorder's own keybind configuration: the default map, how the
    keybind file is filtered when it is loaded, what is written back, and the
    four outcomes of loading it (client/app.py:79-96, 307-358). */
module Keybinds {
  import opened Dicts
  import opened Platform

  /** A [modifier, key] pair of key names. */
  datatype Binding = Binding(modifier: string, key: string)

  /** The recorder's default keybinds, in their declared order. */
  const DEFAULT_KEYBINDS: Dict<Binding> :=
    [Item("start_record", Binding("shift_l", "s")),
     Item("stop_record", Binding("shift_l", "p")),
     Item("start_task", Binding("shift_l", "r")),
     Item("end_task", Binding("shift_l", "q"))]

  /** The actions the recorder knows: the keys of DEFAULT_KEYBINDS. */
  const ACTIONS: set<string> := {"start_record", "stop_record", "start_task", "end_task"}

  const DEFAULT_APP_NAME := "Anti-Idle"

  lemma ActionsAreDefaultKeys()
    ensures Keys(DEFAULT_KEYBINDS) == ACTIONS
  {
    assert DEFAULT_KEYBINDS[1..][1..][1..][1..] == [];
  }

  /** A value of the file as a binding, if it unpacks into one. */
  function Unpack(v: Option<Value>): Option<Binding> {
    if v.Some? && v.value.Pair? then Some(Binding(v.value.modifier, v.value.key)) else None
  }

  /** A binding as it is written to the file. */
  function Pack(b: Binding): Value {
    Pair(b.modifier, b.key)
  }

  /** The entries of the file whose action is known, in file order. */
  function KnownActions(ms: seq<Item<Value>>): seq<Item<Binding>>
    requires AllPairs(ms)
    decreases |ms|
  {
    if ms == [] then []
    else
      var last := ms[|ms| - 1];
      KnownActions(ms[..|ms| - 1])
        + if last.key in ACTIONS then [Item(last.key, Binding(last.value.modifier, last.value.key))] else []
  }

  /** Appending an entry appends its binding, if its action is known. */
  lemma KnownActionsSnoc(init: seq<Item<Value>>, x: Item<Value>)
    requires AllPairs(init + [x])
    ensures AllPairs(init) && x.value.Pair?
    ensures KnownActions(init + [x])
         == KnownActions(init) + if x.key in ACTIONS then [Item(x.key, Binding(x.value.modifier, x.value.key))] else []
  {
    assert (init + [x])[..|init|] == init;
    assert (init + [x])[|init|] == x;
  }

  /** An action is bound after filtering exactly when it is known and the
      file binds it, to the file's pair; actions the file leaves out are not
      filled in. */
  lemma {:induction false} KnownActionsGet(ms: seq<Item<Value>>, a: string)
    requires AllPairs(ms)
    ensures Get(KnownActions(ms), a) == if a in ACTIONS then Unpack(Get(ms, a)) else None
    decreases |ms|
  {
    if ms != [] {
      var init, last := ms[..|ms| - 1], ms[|ms| - 1];
      assert ms == init + [last];
      var r0 := KnownActions(init);
      var item := Item(last.key, Binding(last.value.modifier, last.value.key));
      KnownActionsGet(init, a);
      GetSnoc(init, last, a);
      if last.key in ACTIONS {
        assert KnownActions(ms) == r0 + [item];
        GetSnoc(r0, item, a);
      } else {
        assert KnownActions(ms) == r0;
      }
    }
  }

  lemma KnownActionsLookup(ms: seq<Item<Value>>)
    requires AllPairs(ms)
    ensures forall a :: Get(KnownActions(ms), a) == if a in ACTIONS then Unpack(Get(ms, a)) else None
  {
    forall a {
      KnownActionsGet(ms, a);
    }
  }

  /** Filtering a dictionary gives a dictionary. */
  lemma {:induction false} KnownActionsIsDict(ms: Dict<Value>)
    requires AllPairs(ms)
    ensures IsDict(KnownActions(ms))
    decreases |ms|
  {
    if ms != [] {
      var init: Dict<Value> := ms[..|ms| - 1];
      var last := ms[|ms| - 1];
      KnownActionsIsDict(init);
      if last.key in ACTIONS {
        assert Get(init, last.key).None?;
        KnownActionsGet(init, last.key);
      }
    }
  }

  /** The "keybinds" member as load_keybinds_from_file reads it: a missing
      member is an empty object; a member that is not an object, or any value
      that does not unpack, raises and is None. */
  function FileKeybinds(f: Field): (r: Option<Dict<Binding>>)
    ensures r.Some? <==> f.Absent? || (f.Object? && AllPairs(f.members))
    ensures r.Some? ==> forall a :: Get(r.value, a).Some? ==> a in ACTIONS
  {
    match f
    case Absent => var none: Dict<Binding> := []; Some(none)
    case NotAnObject => None
    case Object(ms) =>
      if AllPairs(ms) then
        KnownActionsIsDict(ms);
        KnownActionsLookup(ms);
        var kb: Dict<Binding> := KnownActions(ms);
        Some(kb)
      else None
  }

  /** The bindings as the file stores them. */
  function PackAll(kb: Dict<Binding>): (r: Dict<Value>)
    ensures |r| == |kb| && AllPairs(r)
    ensures forall i :: 0 <= i < |kb| ==> r[i] == Item(kb[i].key, Pack(kb[i].value))
  {
    var r := seq(|kb|, i requires 0 <= i < |kb| => Item(kb[i].key, Pack(kb[i].value)));
    assert IsDict(r);
    r
  }

  /** save_keybinds_to_file: the app name and the keybinds. */
  function SavedDocument(appName: string, kb: Dict<Binding>): Document {
    Json(Some(appName), Object(PackAll(kb)))
  }

  /** The rows of the settings page, one per action, in the order they were
      built from the keybinds at start-up (the defaults). */
  const LABEL_ROWS: seq<string> := ["start_record", "stop_record", "start_task", "end_task"]

  /** The text a row shows for a binding. */
  function LabelText(b: Binding): string {
    b.modifier + "+" + b.key
  }

  /** The texts of `rows` looked up in the pending map, or None when a row's
      action is missing and the lookup raises KeyError. */
  function LabelsFor(rows: seq<string>, pending: Dict<Binding>): (r: Option<seq<string>>)
    ensures r.Some? <==> forall i :: 0 <= i < |rows| ==> rows[i] in Keys(pending)
    ensures r.Some? ==> |r.value| == |rows|
    ensures r.Some? ==> forall i :: 0 <= i < |rows| ==>
      Get(pending, rows[i]).Some? && r.value[i] == LabelText(Get(pending, rows[i]).value)
    decreases |rows|
  {
    if rows == [] then Some([])
    else match Get(pending, rows[0])
      case None => None
      case Some(b) =>
        match LabelsFor(rows[1..], pending)
        case None =>
          assert exists i :: 0 <= i < |rows| - 1 && rows[1..][i] !in Keys(pending);
          None
        case Some(rest) => Some([LabelText(b)] + rest)
  }

  /** Every row of the settings page is bound exactly when every action is. */
  lemma RowsCoverActions(pending: Dict<Binding>)
    ensures (forall i :: 0 <= i < |LABEL_ROWS| ==> LABEL_ROWS[i] in Keys(pending)) <==> ACTIONS <= Keys(pending)
  {
    var rows, keys := LABEL_ROWS, Keys(pending);
    assert rows[0] == "start_record" && rows[1] == "stop_record" && rows[2] == "start_task" && rows[3] == "end_task";
    var all := "start_record" in keys && "stop_record" in keys && "start_task" in keys && "end_task" in keys;
    assert ACTIONS <= keys <==> all;
    if all {
      forall i | 0 <= i < |rows| ensures rows[i] in keys {
        assert i == 0 || i == 1 || i == 2 || i == 3;
      }
    }
  }

  /** update_keybind_labels: every row of the settings page shows its pending
      binding, and the refresh raises exactly when an action is missing from
      the pending map. */
  function KeybindLabels(pending: Dict<Binding>): (r: Option<seq<string>>)
    ensures r.Some? <==> ACTIONS <= Keys(pending)
    ensures r.Some? ==> |r.value| == |LABEL_ROWS| && forall i :: 0 <= i < |LABEL_ROWS| ==>
      Get(pending, LABEL_ROWS[i]).Some? && r.value[i] == LabelText(Get(pending, LABEL_ROWS[i]).value)
  {
    RowsCoverActions(pending);
    LabelsFor(LABEL_ROWS, pending)
  }

  /** The keybind state of the recorder: the window title's app name, the
      keybinds in force, and the ones being edited on the settings page. */
  datatype Settings = Settings(appName: string, keybinds: Dict<Binding>, pending: Dict<Binding>)

  /** What load_keybinds_from_file returns, the settings afterwards, and
      whether it wrote the keybind file (with those settings). */
  datatype Loaded = Loaded(ok: bool, settings: Settings, saved: bool)

  /** load_keybinds_from_file, given whether the file exists and what it
      holds. A non-empty map of known actions is adopted first; the label
      refresh that follows raises when the map lacks an action, and the
      handler then returns false with the map already in force. */
  function LoadFromFile(present: bool, doc: Document, s: Settings): (r: Loaded)
    ensures !present ==> r == Loaded(false, s, true)
    ensures present && doc.Json? && FileKeybinds(doc.keybinds).Some? && FileKeybinds(doc.keybinds).value != [] ==>
              var kb := FileKeybinds(doc.keybinds).value;
              r.settings.keybinds == r.settings.pending == kb && !r.saved
              && (r.ok <==> ACTIONS <= Keys(kb))
    ensures r.ok <==> present && doc.Json? && FileKeybinds(doc.keybinds).Some?
                      && ACTIONS <= Keys(FileKeybinds(doc.keybinds).value)
    ensures present && doc.Json? && FileKeybinds(doc.keybinds).Some? && FileKeybinds(doc.keybinds).value == [] ==>
              r.settings.keybinds == r.settings.pending == DEFAULT_KEYBINDS && r.saved && !r.ok
    ensures present && (doc.Unparsable? || FileKeybinds(doc.keybinds).None?) ==>
              !r.ok && !r.saved && r.settings.keybinds == s.keybinds && r.settings.pending == s.pending
    ensures r.settings.appName == if present && doc.Json? && doc.appName.Some? then doc.appName.value else s.appName
  {
    if !present then Loaded(false, s, true)
    else match doc
      case Unparsable => Loaded(false, s, false)
      case Json(name, field) =>
        var named := if name.Some? then s.(appName := name.value) else s;
        match FileKeybinds(field)
        case None => Loaded(false, named, false)
        case Some(kb) =>
          if kb != [] then Loaded(KeybindLabels(kb).Some?, named.(keybinds := kb, pending := kb), false)
          else
            assert "start_record" in ACTIONS && "start_record" !in Keys(kb);
            Loaded(false, named.(keybinds := DEFAULT_KEYBINDS, pending := DEFAULT_KEYBINDS), true)
  }

  /** Filtering a file the recorder wrote itself keeps every binding, in
      order. */
  lemma {:induction false} KnownActionsOfPacked(kb: Dict<Binding>)
    requires forall i :: 0 <= i < |kb| ==> kb[i].key in ACTIONS
    ensures KnownActions(PackAll(kb)) == kb
    decreases |kb|
  {
    if kb != [] {
      var init: Dict<Binding> := kb[..|kb| - 1];
      assert PackAll(kb)[..|kb| - 1] == PackAll(init);
      KnownActionsOfPacked(init);
      assert kb == init + [kb[|kb| - 1]];
    }
  }

  /** Saving and loading again gives back the app name and the keybinds, as
      long as every action is one the recorder knows and there is at least
      one; the load reports success exactly when all four actions are bound. */
  lemma SaveLoadRoundTrip(name: string, kb: Dict<Binding>, s: Settings)
    requires kb != [] && forall i :: 0 <= i < |kb| ==> kb[i].key in ACTIONS
    ensures LoadFromFile(true, SavedDocument(name, kb), s) == Loaded(ACTIONS <= Keys(kb), Settings(name, kb, kb), false)
  {
    KnownActionsOfPacked(kb);
    var doc := SavedDocument(name, kb);
    assert FileKeybinds(doc.keybinds) == Some(kb);
    var r := LoadFromFile(true, doc, s);
    assert r.settings == Settings(name, kb, kb) && !r.saved;
  }

  /** The defaults survive a save and a load, which succeeds. */
  lemma DefaultsRoundTrip(s: Settings)
    ensures LoadFromFile(true, SavedDocument(DEFAULT_APP_NAME, DEFAULT_KEYBINDS), s)
         == Loaded(true, Settings(DEFAULT_APP_NAME, DEFAULT_KEYBINDS, DEFAULT_KEYBINDS), false)
  {
    SaveLoadRoundTrip(DEFAULT_APP_NAME, DEFAULT_KEYBINDS, s);
    ActionsAreDefaultKeys();
  }

  /** A successful load leaves a pending map every row of the settings page
      can show, and editing it keeps it so: apply_keybinds then saves. */
  lemma LoadedMapStaysComplete(present: bool, doc: Document, s: Settings, action: string, modifier: string, key: string)
    requires LoadFromFile(present, doc, s).ok
    ensures var p := LoadFromFile(present, doc, s).settings.pending;
      KeybindLabels(p).Some? && KeybindLabels(UpdatePending(p, action, modifier, key)).Some?
  {
  }

  /** Loading does not fill in actions the file leaves out: a file binding
      only start_record gives a map with only start_record, which is in force
      although the load reports failure. */
  lemma NoBackfill(s: Settings)
    ensures var doc := Json(None, Object([Item("start_record", Pair("ctrl_l", "a"))]));
      var r := LoadFromFile(true, doc, s);
      r.settings.keybinds == r.settings.pending == [Item("start_record", Binding("ctrl_l", "a"))] && !r.ok
  {
    var ms: Dict<Value> := [Item("start_record", Pair("ctrl_l", "a"))];
    assert ms[..0] == [];
  }

  /** update_keybind: only for a recognised modifier and an action already in
      the pending map; the action keeps its place. */
  function UpdatePending(pending: Dict<Binding>, action: string, modifier: string, key: string): (r: Dict<Binding>)
    ensures Keys(r) == Keys(pending)
    ensures var applies := modifier in SPECIAL_KEY_NAMES && action in Keys(pending);
      forall a :: Get(r, a) == if applies && a == action then Some(Binding(modifier, key)) else Get(pending, a)
  {
    if modifier in SPECIAL_KEY_NAMES && action in Keys(pending) then
      var r := Replace(pending, action, Binding(modifier, key));
      assert forall k :: k in Keys(r) <==> k in Keys(pending) by {
        forall k ensures k in Keys(r) <==> k in Keys(pending) {
          assert Get(r, k).Some? <==> Get(pending, k).Some? || k == action;
        }
      }
      r
    else pending
  }
}
