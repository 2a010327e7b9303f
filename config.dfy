/** The extension's settings (`src/config.ts`): the notification level and
    the line-oriented `key = value` reader and writer for the CLI's global
    configuration file. The reader is a naive subset of TOML: no tables, no
    escapes, no inline comments. */
module Config {
  import opened Wrappers
  import opened Strings
  import opened Numbers

  /** `notificationLevel()` for the configured setting `setting`. */
  function NotificationLevel(setting: string): (n: int)
    ensures 0 <= n <= 3
    ensures n == 3 <==> setting == "Info"
    ensures n == 2 <==> setting == "Warning"
    ensures n == 1 <==> setting == "Error"
  {
    match setting
    case "Info" => 3
    case "Warning" => 2
    case "Error" => 1
    case _ => 0
  }

  /** Every name outside the three known ones silences everything. */
  lemma UnknownLevelIsZero(setting: string)
    requires setting != "Info" && setting != "Warning" && setting != "Error"
    ensures NotificationLevel(setting) == 0
  {
  }

  /** A configuration object, in insertion order (`Object.entries`). */
  type Entries = seq<(string, string)>

  predicate DistinctKeys(es: Entries) {
    forall i, j :: 0 <= i < j < |es| ==> es[i].0 != es[j].0
  }

  function Keys(es: Entries): (keys: seq<string>)
    ensures |keys| == |es|
    ensures forall i :: 0 <= i < |es| ==> keys[i] == es[i].0
  {
    seq(|es|, i requires 0 <= i < |es| => es[i].0)
  }

  /** `record[key]`: the value of the entry with that key, if any. */
  function Lookup(es: Entries, key: string): Option<string> {
    if es == [] then None
    else if es[|es| - 1].0 == key then Some(es[|es| - 1].1)
    else Lookup(es[..|es| - 1], key)
  }

  /** A key is found exactly when some entry has it, and what is found is
      the value of such an entry. */
  lemma {:induction false} LookupFinds(es: Entries, key: string)
    ensures Lookup(es, key).None? <==> key !in Keys(es)
    ensures Lookup(es, key).Some? ==> (key, Lookup(es, key).value) in es
    decreases |es|
  {
    if es != [] && es[|es| - 1].0 != key {
      var init := es[..|es| - 1];
      LookupFinds(init, key);
      assert Keys(es) == Keys(init) + [es[|es| - 1].0];
      if Lookup(es, key).Some? {
        assert (key, Lookup(es, key).value) in init;
      }
    }
  }

  /** Where `key` sits in `es`. */
  function KeyIndex(es: Entries, key: string): (i: nat)
    requires key in Keys(es)
    ensures i < |es| && es[i].0 == key
  {
    if es[0].0 == key then 0
    else
      assert Keys(es) == [es[0].0] + Keys(es[1..]);
      1 + KeyIndex(es[1..], key)
  }

  /** `record[key] = value` on a plain object: a new key is added at the
      end, an existing key keeps its place and takes the new value, and
      `__proto__` goes to the prototype setter, which ignores a string. */
  function Set(es: Entries, key: string, value: string): (r: Entries)
    requires DistinctKeys(es)
    ensures DistinctKeys(r)
    ensures key == "__proto__" ==> r == es
    ensures key != "__proto__" ==> Lookup(r, key) == Some(value)
    ensures forall k :: k != key ==> Lookup(r, k) == Lookup(es, k)
  {
    if key == "__proto__" then es
    else if key in Keys(es) then
      var i := KeyIndex(es, key);
      var r := es[i := (key, value)];
      LookupOfDistinct(r, i);
      assert forall k :: k != key ==> Lookup(r, k) == Lookup(es, k) by {
        forall k | k != key
          ensures Lookup(r, k) == Lookup(es, k)
        {
          LookupOtherThanUpdated(es, i, value, k);
        }
      }
      r
    else
      var r := es + [(key, value)];
      assert r[..|r| - 1] == es;
      r
  }

  /** In a list with distinct keys the entry at `i` is what its key finds. */
  lemma {:induction false} LookupOfDistinct(es: Entries, i: int)
    requires DistinctKeys(es) && 0 <= i < |es|
    ensures Lookup(es, es[i].0) == Some(es[i].1)
    decreases |es|
  {
    if i < |es| - 1 {
      LookupOfDistinct(es[..|es| - 1], i);
    }
  }

  /** Changing the value at `i` changes no other key's lookup. */
  lemma {:induction false} LookupOtherThanUpdated(es: Entries, i: int, value: string, k: string)
    requires 0 <= i < |es| && k != es[i].0
    ensures Lookup(es[i := (es[i].0, value)], k) == Lookup(es, k)
    decreases |es|
  {
    var r := es[i := (es[i].0, value)];
    if i < |es| - 1 {
      assert r[|r| - 1] == es[|es| - 1];
      assert r[..|r| - 1] == es[..|es| - 1][i := (es[i].0, value)];
      LookupOtherThanUpdated(es[..|es| - 1], i, value, k);
    } else {
      assert r[|r| - 1].0 == es[|es| - 1].0 != k;
      assert r[..|r| - 1] == es[..|es| - 1];
    }
  }

  /** One line of the file: `line.split("=", 2)` must give two pieces and
      the line must not start with `#`; the key is the trimmed first piece
      and the value the trimmed second piece with every `"` removed. */
  function ParseLine(line: string): Option<(string, string)> {
    if StartsWith(line, "#") then None else EntryOf(Split(line, '='))
  }

  /** The entry that the pieces of a line give, if there are two. */
  function EntryOf(parts: seq<string>): Option<(string, string)> {
    if |parts| < 2 then None
    else Some((Trim(parts[0]), RemoveAll(Trim(parts[1]), '"')))
  }

  /** A line is skipped exactly when it holds no `=` or starts with `#`. */
  lemma ParseLineSkips(line: string)
    ensures ParseLine(line).None? <==> '=' !in line || StartsWith(line, "#")
  {
    assert ParseLine(line).None? <==> StartsWith(line, "#") || |Split(line, '=')| < 2;
    if '=' !in line {
      SplitWithoutSeparator(line, '=');
    }
  }

  /** The key is the trimmed text before the `=` and the value the trimmed
      text after it with every `"` removed. */
  lemma ParseLineParts(key: string, value: string)
    requires '=' !in key && '=' !in value
    requires key == [] || key[0] != '#'
    ensures ParseLine(key + "=" + value) == Some((Trim(key), RemoveAll(Trim(value), '"')))
  {
    SplitOnePiece(key, '=', value);
    var line := key + "=" + value;
    assert line[..|key| + 1] == key + "=";
    assert !StartsWith(line, "#");
  }

  /** Text after a second `=` is dropped. */
  lemma ParseLineDropsAfterSecond(key: string, value: string, rest: string)
    requires '=' !in key && '=' !in value
    requires key == [] || key[0] != '#'
    ensures ParseLine(key + "=" + value + "=" + rest) == ParseLine(key + "=" + value)
  {
    var line, short := key + "=" + value + "=" + rest, key + "=" + value;
    assert !StartsWith(line, "#") by {
      assert line[0] == (key + "=")[0];
    }
    assert !StartsWith(short, "#") by {
      assert short[0] == (key + "=")[0];
    }
    assert EntryOf(Split(line, '=')) == EntryOf(Split(short, '=')) by {
      SplitTwoPieces(key, '=', value, rest);
      SplitOnePiece(key, '=', value);
      SamePiecesSameEntry(Split(line, '='), Split(short, '='));
    }
  }

  lemma SamePiecesSameEntry(p: seq<string>, q: seq<string>)
    requires |p| >= 2 && |q| >= 2 && p[0] == q[0] && p[1] == q[1]
    ensures EntryOf(p) == EntryOf(q)
  {
  }

  /** Only a `#` in the first column makes a comment: after indentation a
      key may start with `#` and is read like any other. */
  lemma IndentedHashIsAKey(indent: string, key: string, value: string)
    requires indent != [] && AllWhitespace(indent) && '=' !in indent
    requires IsTrimmed(key) && key != [] && key[0] == '#' && '=' !in key && '=' !in value
    ensures ParseLine(indent + key + "=" + value) == Some((key, RemoveAll(Trim(value), '"')))
    ensures ParseLine(key + "=" + value) == None
  {
    assert ParseLine(key + "=" + value) == None by {
      assert (key + "=" + value)[..1] == "#";
    }
    assert ParseLine(indent + key + "=" + value) == Some((Trim(indent + key), RemoveAll(Trim(value), '"'))) by {
      assert IsJsWhitespace(indent[0]);
      ParseLineParts(indent + key, value);
    }
    assert Trim(indent + key) == key by {
      TrimOfPadded(indent, key, "");
      assert indent + key + "" == indent + key;
    }
  }

  /** The lines read so far, folded into a configuration object. */
  function ParseLines(lines: seq<string>): (r: Entries)
    ensures DistinctKeys(r)
  {
    if lines == [] then []
    else
      var acc := ParseLines(lines[..|lines| - 1]);
      match ParseLine(lines[|lines| - 1])
      case None => acc
      case Some(kv) => Set(acc, kv.0, kv.1)
  }

  /** The contents of the file, read as a configuration object. */
  function Parse(text: string): Entries {
    ParseLines(Split(text, '\n'))
  }

  /** A later line with the same key overrides an earlier one. */
  lemma LaterLineOverrides(lines: seq<string>, line: string, key: string, value: string)
    requires ParseLine(line) == Some((key, value)) && key != "__proto__"
    ensures Lookup(ParseLines(lines + [line]), key) == Some(value)
  {
    ParseLinesSnoc(lines, line, key, value);
  }

  /** What the file looks like on disk. */
  datatype ConfigFile = Missing | Unreadable(error: string) | Contents(text: string)

  /** `value` as written: quoted unless `Number(value)` is a number or it is
      `true` or `false`. */
  function FormatValue(value: string): (r: string)
    ensures !IsNumeric(value) && value != "true" && value != "false" ==> r == "\"" + value + "\""
    ensures IsNumeric(value) || value == "true" || value == "false" ==> r == value
  {
    if !IsNumeric(value) && value != "true" && value != "false" then "\"" + value + "\"" else value
  }

  function EntryLine(e: (string, string)): string {
    e.0 + " = " + FormatValue(e.1)
  }

  function Lines(es: Entries): (lines: seq<string>)
    ensures |lines| == |es|
  {
    if es == [] then [] else Lines(es[..|es| - 1]) + [EntryLine(es[|es| - 1])]
  }

  /** The text `saveGlobalConfig` writes: one line per entry, each ended by
      a newline. */
  function Serialise(es: Entries): (text: string)
    ensures |text| >= 1 && text[|text| - 1] == '\n'
  {
    Join(Lines(es), '\n') + "\n"
  }

  /** A key the writer can write and the reader read back unchanged. */
  predicate WritableKey(key: string) {
    IsTrimmed(key) && '=' !in key && '\n' !in key && (key == [] || key[0] != '#') && key != "__proto__"
  }

  /** A value the writer can write and the reader read back unchanged. */
  predicate WritableValue(value: string) {
    IsTrimmed(value) && '"' !in value && '=' !in value && '\n' !in value
  }

  predicate Writable(es: Entries) {
    DistinctKeys(es) && forall i :: 0 <= i < |es| ==> WritableKey(es[i].0) && WritableValue(es[i].1)
  }

  /** Reading a written line gives back its entry. */
  lemma ParseEntryLine(key: string, value: string)
    requires WritableKey(key) && WritableValue(value)
    ensures ParseLine(EntryLine((key, value))) == Some((key, value))
    ensures '\n' !in EntryLine((key, value))
  {
    FormatShape(value);
    var f := FormatValue(value);
    ParseWrittenLine(key, value, f);
    assert '\n' !in f by {
      WrittenValueReadsBack(value, f);
    }
    WrittenLineHasNoNewline(key, f);
  }

  /** A line `key = f`, where `f` is the value either as it is or quoted,
      reads back as the entry. */
  lemma ParseWrittenLine(key: string, value: string, f: string)
    requires WritableKey(key) && WritableValue(value)
    requires f == value || f == "\"" + value + "\""
    ensures ParseLine(key + " = " + f) == Some((key, value))
  {
    assert '=' !in " " + f && RemoveAll(Trim(" " + f), '"') == value by {
      WrittenValueReadsBack(value, f);
    }
    assert ParseLine((key + " ") + "=" + (" " + f)) == Some((key, value)) by {
      ParseSpacedLine(key, value, " " + f);
    }
    SpacedEquals(key, f);
  }

  /** A written line holds no line break. */
  lemma WrittenLineHasNoNewline(key: string, f: string)
    requires '\n' !in key && '\n' !in f
    ensures '\n' !in key + " = " + f
  {
    AbsentFromConcat('\n', key, " = ");
    AbsentFromConcat('\n', key + " = ", f);
  }

  lemma ParseSpacedLine(key: string, value: string, v: string)
    requires WritableKey(key)
    requires '=' !in v && RemoveAll(Trim(v), '"') == value
    ensures ParseLine((key + " ") + "=" + v) == Some((key, value))
  {
    var k := key + " ";
    assert Trim(k) == key by {
      TrimOfPadded("", key, " ");
      assert "" + key + " " == k;
    }
    assert '=' !in k && (k == [] || k[0] != '#') by {
      assert k[0] == if key == [] then ' ' else key[0];
    }
    ParseLineParts(k, v);
  }

  lemma SpacedEquals(key: string, f: string)
    ensures key + " = " + f == (key + " ") + "=" + (" " + f)
  {
  }

  /** A written value, after the ` = `, reads back as itself. */
  lemma WrittenValueReadsBack(value: string, f: string)
    requires WritableValue(value)
    requires f == value || f == "\"" + value + "\""
    ensures '=' !in f && '\n' !in f
    ensures RemoveAll(Trim(" " + f), '"') == value
  {
    if f == value {
      UnquotedReadsBack(value);
    } else {
      QuotedReadsBack(value);
    }
  }

  lemma FormatShape(value: string)
    ensures FormatValue(value) == value || FormatValue(value) == "\"" + value + "\""
  {
  }

  lemma UnquotedReadsBack(value: string)
    requires WritableValue(value)
    ensures RemoveAll(Trim(" " + value), '"') == value
  {
    TrimOfPadded(" ", value, "");
    assert " " + value + "" == " " + value;
  }

  lemma QuotedReadsBack(value: string)
    requires WritableValue(value)
    ensures '=' !in "\"" + value + "\"" && '\n' !in "\"" + value + "\""
    ensures RemoveAll(Trim(" " + ("\"" + value + "\"")), '"') == value
  {
    var q := "\"" + value + "\"";
    assert '=' !in q && '\n' !in q;
    assert Trim(" " + q) == q by {
      QuotedIsTrimmed(value);
      TrimOfPadded(" ", q, "");
      assert " " + q + "" == " " + q;
    }
    UnquoteQuoted(value);
  }

  lemma QuotedIsTrimmed(value: string)
    ensures IsTrimmed("\"" + value + "\"")
  {
  }

  lemma UnquoteQuoted(value: string)
    requires '"' !in value
    ensures RemoveAll("\"" + value + "\"", '"') == value
  {
    RemoveAllConcat("\"" + value, "\"", '"');
    RemoveAllConcat("\"", value, '"');
  }

  /** Reading one more line extends the fold by that line. */
  lemma ParseLinesSnoc(lines: seq<string>, line: string, key: string, value: string)
    requires ParseLine(line) == Some((key, value))
    ensures ParseLines(lines + [line]) == Set(ParseLines(lines), key, value)
  {
    assert (lines + [line])[..|lines|] == lines;
  }

  /** A key not yet present is added at the end. */
  lemma SetNewKey(es: Entries, key: string, value: string)
    requires DistinctKeys(es) && key !in Keys(es) && key != "__proto__"
    ensures Set(es, key, value) == es + [(key, value)]
  {
  }

  /** Dropping the last entry of a writable list leaves a writable list
      that does not hold the last key. */
  lemma WritableInit(es: Entries)
    requires Writable(es) && es != []
    ensures Writable(es[..|es| - 1])
    ensures es[|es| - 1].0 !in Keys(es[..|es| - 1])
    ensures WritableKey(es[|es| - 1].0) && WritableValue(es[|es| - 1].1)
  {
    var init := es[..|es| - 1];
    forall i | 0 <= i < |init|
      ensures Keys(init)[i] != es[|es| - 1].0
    {
      assert es[i].0 != es[|es| - 1].0;
    }
  }

  /** Reading the written lines rebuilds the entries, one line at a time. */
  lemma {:induction false} ParseLinesOfWritten(es: Entries)
    requires Writable(es)
    ensures ParseLines(Lines(es)) == es
    ensures forall i :: 0 <= i < |es| ==> '\n' !in Lines(es)[i]
    decreases |es|
  {
    if es != [] {
      var init, last := es[..|es| - 1], es[|es| - 1];
      assert init + [last] == es;
      WritableInit(es);
      ParseLinesOfWritten(init);
      var line := EntryLine(last);
      ParseEntryLine(last.0, last.1);
      assert Lines(es) == Lines(init) + [line];
      ParseLinesSnoc(Lines(init), line, last.0, last.1);
      SetNewKey(init, last.0, last.1);
    }
  }

  /** Round trip: for keys and values the simple format can carry, reading
      what the writer wrote yields the same configuration object. */
  lemma ParseSerialise(es: Entries)
    requires Writable(es)
    ensures Parse(Serialise(es)) == es
  {
    var lines := Lines(es);
    ParseLinesOfWritten(es);
    if es == [] {
      assert Split(Serialise(es), '\n') == ["", ""] by {
        assert Serialise(es) == [] + ['\n'] + [];
        SplitAtFirst([], '\n', []);
      }
      assert ParseLines(["", ""]) == ParseLines([""]) by {
        assert ["", ""][..1] == [""];
      }
      assert ParseLines([""]) == ParseLines([]) by {
        assert [""][..0] == [];
      }
    } else {
      assert Split(Serialise(es), '\n') == lines + [""] by {
        JoinSnoc(lines, "", '\n');
        assert Serialise(es) == Join(lines + [""], '\n');
        SplitJoin(lines + [""], '\n');
      }
      assert (lines + [""])[..|lines|] == lines;
    }
  }

  /** The global configuration as the extension holds it: whether a load has
      completed, the `globalConfig` setting it last wrote, and the warnings
      it logged. */
  class GlobalConfig {
    var loaded: bool
    var setting: Entries
    var warnings: seq<string>

    constructor(setting: Entries)
      ensures !loaded && this.setting == setting && warnings == []
    {
      loaded := false;
      this.setting := setting;
      warnings := [];
    }

    /** `loadGlobalConfig`: a missing file changes nothing, an unreadable
        one logs a warning, and a readable one replaces the setting with
        the lines it holds; a load always completes. */
    method Load(file: ConfigFile)
      modifies this
      ensures loaded
      ensures file.Contents? ==> setting == Parse(file.text) && warnings == old(warnings)
      ensures file.Missing? ==> setting == old(setting) && warnings == old(warnings)
      ensures file.Unreadable? ==>
        setting == old(setting) && warnings == old(warnings) + ["Failed to load global config: " + file.error]
    {
      match file
      case Missing =>
        loaded := true;
      case Unreadable(error) =>
        warnings := warnings + ["Failed to load global config: " + error];
        loaded := true;
      case Contents(text) =>
        var lines := Split(text, '\n');
        var config: Entries := [];
        var i := 0;
        while i < |lines|
          invariant 0 <= i <= |lines|
          invariant config == ParseLines(lines[..i])
        {
          assert lines[..i + 1][..i] == lines[..i];
          var parsed := ParseLine(lines[i]);
          if parsed.Some? {
            config := Set(config, parsed.value.0, parsed.value.1);
          }
          i := i + 1;
        }
        assert lines[..i] == lines;
        setting := config;
        loaded := true;
    }

    /** `saveGlobalConfig`: nothing is written until a load has completed;
        after that the text written is the serialised setting. */
    method Save() returns (written: Option<string>)
      ensures !loaded ==> written.None?
      ensures loaded ==> written == Some(Serialise(setting))
    {
      if !loaded {
        return None;
      }
      written := Some(Serialise(setting));
    }
  }

  /** Saving before any load writes nothing; saving after loading a file
      holding exactly the writable entries `es` writes them back. */
  method SaveAfterLoad(es: Entries) returns (before: Option<string>, after: Option<string>)
    requires Writable(es)
    ensures before.None?
    ensures after == Some(Serialise(es))
  {
    var config := new GlobalConfig([]);
    before := config.Save();
    ParseSerialise(es);
    config.Load(Contents(Serialise(es)));
    after := config.Save();
  }
}
