/** Completion of settings in the CLI's global configuration file
    (`src/completion.ts`): a setting is offered unless the document already
    has it, where "has it" is a plain substring test on the first line that
    mentions the setting's name. */
module Completion {
  import opened Wrappers
  import opened Strings

  /** One row of the settings table: the key, the snippet of its default
      value and its documentation. */
  datatype Setting = Setting(field: string, value: string, doc: string)

  /** A completion item of kind Field: its label (`name`), its snippet and its
      documentation. */
  datatype CompletionItem = CompletionItem(name: string, insertText: string, documentation: string)

  /** The settings the CLI reads from its global configuration, in the
      order they are offered. */
  const Settings: seq<Setting> := [
    Setting("host", "\"${1:localhost}\"", "Default server host name"),
    Setting("port", "${1:8000}", "Default server port number"),
    Setting("template", "\"${1|place,plugin,package,model,quick|}\"", "Default project template (place, model, etc.)"),
    Setting("license", "\"${1|Apache-2.0,AFL-3.0,Artistic-2.0,BSL-1.0,BSD-2-Clause,BSD-3-Clause,BSD-3-Clause-Clear,BSD-4-Clause,0BSD,CC,CC0-1.0,CC-BY-4.0,CC-BY-SA-4.0,WTFPL,ECL-2.0,EPL-1.0,EPL-2.0,EUPL-1.1,AGPL-3.0,GPL,GPL-2.0,GPL-3.0,LGPL,LGPL-2.1,LGPL-3.0,ISC,LPPL-1.3c,MS-PL,MIT,MPL-2.0,OSL-3.0,PostgreSQL,OFL-1.1,NCSA,Unlicense,Zlib|}\"", "Default project license (SPDX identifier)"),
    Setting("include_docs", "${1|true,false|}", "Include documentation in the project (README, CHANGELOG, etc.)"),
    Setting("use_git", "${1|true,false|}", "Use git for source control"),
    Setting("use_wally", "${1|false,true|}", "Use Wally for package management"),
    Setting("run_async", "${1|false,true|}", "Run Argon asynchronously, freeing up the terminal"),
    Setting("scan_ports", "${1|true,false|}", "Scan for the first available port if selected one is in use"),
    Setting("detect_project", "${1|true,false|}", "Automatically detect project type"),
    Setting("with_sourcemap", "${1|false,true|}", "Always run commands with sourcemap generation"),
    Setting("build_xml", "${1|false,true|}", "Build using XML format by default"),
    Setting("check_updates", "${1|true,false|}", "Check for new Argon releases on startup"),
    Setting("auto_update", "${1|false,true|}", "Automatically install Argon updates if available"),
    Setting("install_plugin", "${1|true,false|}", "Install Roblox plugin locally and keep it updated"),
    Setting("rojo_mode", "${1|false,true|}", "Use Rojo namespace by default"),
    Setting("ts_mode", "${1|false,true|}", "Use roblox-ts by default"),
    Setting("package_manager", "\"${1|bun,npm,pnpm,yarn|}\"", "Package manager to use when running roblox-ts scripts (npm, yarn, etc.)"),
    Setting("lua_extension", "${1|false,true|}", "Use .lua file extension instead of .luau when writing scripts"),
    Setting("move_to_bin", "${1|false,true|}", "Move files to the bin instead of deleting them (two-way sync)"),
    Setting("share_stats", "${1|true,false|}", "Share anonymous Argon usage statistics with the community")
  ]

  /** The first of `lines` that contains `setting`, if any. */
  function FirstLineWith(lines: seq<string>, setting: string): Option<string> {
    if lines == [] then None
    else if Contains(lines[0], setting) then Some(lines[0])
    else FirstLineWith(lines[1..], setting)
  }

  /** `hasSetting`: the document mentions the setting, and the first line
      that mentions it holds no `#`. */
  predicate HasSetting(text: string, setting: string) {
    Contains(text, setting) &&
    match FirstLineWith(Split(text, '\n'), setting)
    case None => false
    case Some(line) => !Contains(line, "#")
  }

  /** `FirstLineWith` finds the earliest line that mentions the setting. */
  lemma {:induction false} FirstLineWithIsFirst(lines: seq<string>, setting: string)
    ensures FirstLineWith(lines, setting).Some? ==> exists i :: (0 <= i < |lines| && lines[i] == FirstLineWith(lines, setting).value
      && Contains(lines[i], setting) && forall j :: 0 <= j < i ==> !Contains(lines[j], setting))
    ensures FirstLineWith(lines, setting).None? <==> forall j :: 0 <= j < |lines| ==> !Contains(lines[j], setting)
  {
    if lines != [] && !Contains(lines[0], setting) {
      var rest := lines[1..];
      FirstLineWithIsFirst(rest, setting);
      assert forall j :: 1 <= j < |lines| ==> lines[j] == rest[j - 1];
      if FirstLineWith(rest, setting).Some? {
        var i :| 0 <= i < |rest| && rest[i] == FirstLineWith(rest, setting).value && Contains(rest[i], setting)
          && forall j :: 0 <= j < i ==> !Contains(rest[j], setting);
        assert lines[i + 1] == rest[i];
      }
    } else if lines != [] {
      assert lines[0] == FirstLineWith(lines, setting).value;
    }
  }

  /** Containment carries over to any text around the container. */
  lemma ContainsWithin(a: string, x: string, b: string, p: string)
    requires Contains(x, p)
    ensures Contains(a + x + b, p)
  {
    var i := IndexOf(x, p).value;
    assert (a + x + b)[|a| + i..|a| + i + |p|] == x[i..i + |p|];
    ContainsAt(a + x + b, p, |a| + i);
  }

  /** Every piece of a joined text sits inside it. */
  lemma {:induction false} PartWithinJoin(parts: seq<string>, c: char, i: int)
    requires 0 <= i < |parts|
    ensures exists a, b :: Join(parts, c) == a + parts[i] + b
    decreases |parts|
  {
    if i == 0 {
      if |parts| == 1 {
        assert Join(parts, c) == "" + parts[0] + "";
      } else {
        assert Join(parts, c) == "" + parts[0] + ([c] + Join(parts[1..], c));
      }
    } else {
      PartWithinJoin(parts[1..], c, i - 1);
      var a, b :| Join(parts[1..], c) == a + parts[1..][i - 1] + b;
      assert Join(parts, c) == (parts[0] + [c] + a) + parts[i] + b;
    }
  }

  /** The first line that mentions the setting is the one found. */
  lemma {:induction false} FirstLineWithAt(lines: seq<string>, setting: string, i: int)
    requires 0 <= i < |lines| && Contains(lines[i], setting)
    requires forall j :: 0 <= j < i ==> !Contains(lines[j], setting)
    ensures FirstLineWith(lines, setting) == Some(lines[i])
    decreases i
  {
    if i > 0 {
      assert !Contains(lines[0], setting);
      FirstLineWithAt(lines[1..], setting, i - 1);
    }
  }

  /** A line of a text lies within it, so what the line mentions the text
      mentions. */
  lemma LineWithinText(text: string, i: int, setting: string)
    requires 0 <= i < |Split(text, '\n')| && Contains(Split(text, '\n')[i], setting)
    ensures Contains(text, setting)
  {
    var lines := Split(text, '\n');
    PartWithinJoin(lines, '\n', i);
    var a, b :| Join(lines, '\n') == a + lines[i] + b;
    ContainsWithin(a, lines[i], b, setting);
  }

  /** `hasSetting` is true exactly when some line mentions the setting, the
      first such line holds no `#`. */
  lemma HasSettingByFirstLine(text: string, setting: string)
    ensures HasSetting(text, setting) <==> exists i :: (0 <= i < |Split(text, '\n')|
      && Contains(Split(text, '\n')[i], setting) && !Contains(Split(text, '\n')[i], "#")
      && forall j :: 0 <= j < i ==> !Contains(Split(text, '\n')[j], setting))
  {
    var lines := Split(text, '\n');
    if HasSetting(text, setting) {
      FirstLineWithIsFirst(lines, setting);
      var i :| 0 <= i < |lines| && lines[i] == FirstLineWith(lines, setting).value
        && Contains(lines[i], setting) && forall j :: 0 <= j < i ==> !Contains(lines[j], setting);
      assert !Contains(lines[i], "#");
    }
    if exists i :: (0 <= i < |lines| && Contains(lines[i], setting) && !Contains(lines[i], "#")
      && forall j :: 0 <= j < i ==> !Contains(lines[j], setting))
    {
      var i :| 0 <= i < |lines| && Contains(lines[i], setting) && !Contains(lines[i], "#")
        && forall j :: 0 <= j < i ==> !Contains(lines[j], setting);
      LineWithinText(text, i, setting);
      FirstLineWithAt(lines, setting, i);
    }
  }

  /** A document that does not mention the setting does not have it. */
  lemma AbsentSettingIsMissing(text: string, setting: string)
    requires !Contains(text, setting)
    ensures !HasSetting(text, setting)
  {
  }

  /** Matching is by substring, not by key: a first line whose key merely
      contains the setting's name (`scan_ports` for `port`) counts as the
      setting being present. */
  lemma SubstringCountsAsPresent(key: string, setting: string, rest: string)
    requires Contains(key, setting) && '\n' !in key && '#' !in key
    ensures HasSetting(key + "\n" + rest, setting)
  {
    SplitAtFirst(key, '\n', rest);
    var lines := Split(key + "\n" + rest, '\n');
    assert lines[0] == key;
    AbsentChar(key, '#');
    assert !Contains(key, "#");
    HasSettingByFirstLine(key + "\n" + rest, setting);
  }

  /** A commented first mention hides every later line that sets it. */
  lemma CommentHidesLaterSetting(line: string, setting: string, rest: string)
    requires Contains(line, setting) && Contains(line, "#") && '\n' !in line
    ensures !HasSetting(line + "\n" + rest, setting)
  {
    SplitAtFirst(line, '\n', rest);
    var lines := Split(line + "\n" + rest, '\n');
    assert lines[0] == line;
  }

  /** `scan_ports = true` on the first line makes `port` count as set. */
  lemma ScanPortsHidesPort(rest: string)
    ensures HasSetting("scan_ports = true" + "\n" + rest, "port")
  {
    var key := "scan_ports = true";
    assert key[5..9] == "port";
    ContainsAt(key, "port", 5);
    AbsentChar(key, '\n');
    SubstringCountsAsPresent(key, "port", rest);
  }

  /** The item offered for a setting: its field as the label, the snippet
      `field = value` and the documentation. */
  function ItemOf(s: Setting): (item: CompletionItem)
    ensures item.name == s.field
    ensures StartsWith(item.insertText, s.field + " = ")
    ensures item.insertText[|s.field| + 3..] == s.value
    ensures item.documentation == s.doc
  {
    var item := CompletionItem(s.field, s.field + " = " + s.value, s.doc);
    assert item.insertText[..|s.field| + 3] == s.field + " = ";
    item
  }

  /** `provideCompletionItems`: the table's settings that the document does
      not have, in table order. */
  function Completions(table: seq<Setting>, text: string): (items: seq<CompletionItem>)
    ensures |items| <= |table|
  {
    if table == [] then []
    else
      (if HasSetting(text, table[0].field) then [] else [ItemOf(table[0])])
      + Completions(table[1..], text)
  }

  /** Completing two tables one after the other is completing their
      concatenation: the table order is kept. */
  lemma {:induction false} CompletionsConcat(a: seq<Setting>, b: seq<Setting>, text: string)
    ensures Completions(a + b, text) == Completions(a, text) + Completions(b, text)
    decreases |a|
  {
    if a != [] {
      assert (a + b)[1..] == a[1..] + b;
      CompletionsConcat(a[1..], b, text);
    } else {
      assert a + b == b;
    }
  }

  /** A setting of the table is offered exactly when the document does not
      have it. */
  lemma {:induction false} OfferedIffMissing(table: seq<Setting>, text: string, s: Setting)
    requires s in table
    ensures ItemOf(s) in Completions(table, text) <==> !HasSetting(text, s.field)
    decreases |table|
  {
    OfferedAreMissing(table, text);
    if table[0] != s {
      OfferedIffMissing(table[1..], text, s);
    }
  }

  /** Every offered item belongs to a setting that the document lacks. */
  lemma {:induction false} OfferedAreMissing(table: seq<Setting>, text: string)
    ensures forall item :: item in Completions(table, text) ==>
      exists s :: s in table && item == ItemOf(s) && !HasSetting(text, s.field)
    decreases |table|
  {
    if table != [] {
      OfferedAreMissing(table[1..], text);
      forall item | item in Completions(table, text)
        ensures exists s :: s in table && item == ItemOf(s) && !HasSetting(text, s.field)
      {
        if item !in Completions(table[1..], text) {
          assert item == ItemOf(table[0]);
        } else {
          var s :| s in table[1..] && item == ItemOf(s) && !HasSetting(text, s.field);
          assert s in table;
        }
      }
    }
  }

  /** In an empty document every setting of a table with non-empty fields
      is offered, in table order. */
  lemma {:induction false} AllOfferedInEmptyDocument(table: seq<Setting>)
    requires forall i :: 0 <= i < |table| ==> table[i].field != ""
    ensures Completions(table, "") == seq(|table|, i requires 0 <= i < |table| => ItemOf(table[i]))
    decreases |table|
  {
    if table != [] {
      AllOfferedInEmptyDocument(table[1..]);
      AbsentCharNotContained("", table[0].field, 0);
    }
  }

  /** The extension's table has 21 settings, none with an empty field, so
      an empty document is offered all 21. */
  lemma EmptyDocumentOffersEverySetting()
    ensures |Completions(Settings, "")| == |Settings| == 21
  {
    assert forall i :: 0 <= i < |Settings| ==> Settings[i].field != "";
    AllOfferedInEmptyDocument(Settings);
  }
}
