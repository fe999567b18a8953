/** What both processes share: the keys the input hooks report, the parsed
    keybind configuration document, and the filesystem used as the signalling
    channel between the recorder and the hotkey listener. */
module Platform {
  import opened Dicts

  /** A key as the input hooks report it: a named special key (shift_l, esc,
      f1, ...), a key that produces a character, or a key code without one. */
  datatype Key = Special(name: string) | Char(c: char) | NoChar(vk: int)

  /** The names both processes accept as special keys
      (client/app.py:71-75, client/modules/key_listener.py:18-22). */
  const SPECIAL_KEY_NAMES: set<string> :=
    {"f1", "f2", "f3", "f4", "f5", "f6", "f7", "f8", "f9", "f10", "f11", "f12",
     "ctrl_l", "alt_l", "shift_l", "enter", "space"}

  /** `str.lower()` on one character, for the ASCII letters. */
  function Lower(c: char): (r: char)
    ensures 'A' <= c <= 'Z' ==> 'a' <= r <= 'z' && r as int - c as int == 32
    ensures !('A' <= c <= 'Z') ==> r == c
  {
    if 'A' <= c <= 'Z' then (c as int + 32) as char else c
  }

  /** The keybind configuration file, relative to the working directory both
      processes run in. */
  const KEYBINDS_FILE := "client/keybinds.json"

  /** The file a trigger for `command` is signalled with. */
  function TriggerFile(command: string): string {
    command + ".trigger"
  }

  /** One value of the "keybinds" object: a [modifier, key] pair of names, or
      anything that cannot be unpacked into two names. */
  datatype Value = Pair(modifier: string, key: string) | Malformed

  /** Every value of a "keybinds" object unpacks into two names. */
  predicate AllPairs(ms: seq<Item<Value>>) {
    forall i :: 0 <= i < |ms| ==> ms[i].value.Pair?
  }

  /** The "keybinds" member of the document. */
  datatype Field = Absent | NotAnObject | Object(members: Dict<Value>)

  /** The keybind file as `json.load` sees it: text that does not parse into
      an object, or an object with an optional "app_name" and "keybinds". */
  datatype Document = Unparsable | Json(appName: Option<string>, keybinds: Field)

  /** The working directory both processes see. `paths` are the files that
      exist; the keybind file's parsed content and modification time are kept
      beside them. */
  class Disk {
    var paths: set<string>
    var config: Document
    var configModified: int

    constructor (paths: set<string>, config: Document, configModified: int)
      ensures this.paths == paths && this.config == config
      ensures this.configModified == configModified
    {
      this.paths := paths;
      this.config := config;
      this.configModified := configModified;
    }

    /** `open(path, "w")`: the file exists afterwards, whether or not it did. */
    method Create(path: string)
      modifies this`paths
      ensures paths == old(paths) + {path}
    {
      paths := paths + {path};
    }

    /** `os.remove(path)`, which raises unless the file exists. */
    method Remove(path: string)
      requires path in paths
      modifies this`paths
      ensures paths == old(paths) - {path}
    {
      paths := paths - {path};
    }

    /** Writing the keybind file at time `now`. */
    method WriteConfig(doc: Document, now: int)
      modifies this
      ensures paths == old(paths) + {KEYBINDS_FILE}
      ensures config == doc && configModified == now
    {
      paths := paths + {KEYBINDS_FILE};
      config := doc;
      configModified := now;
    }
  }
}
