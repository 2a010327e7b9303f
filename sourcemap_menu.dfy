/** The sourcemap menu (`src/menu/sourcemap.ts`): the output file name,
    the two options with their remembered picks (kept under each option's
    id), and the handler that calls `sourcemap` and records a session when
    it keeps watching. The input box, the quick pick and the project picker
    are inputs. */
module SourcemapMenu {
  import opened Wrappers
  import opened Strings
  import opened Util
  import opened MenuOptions
  import opened Sessions
  import opened Registry
  import opened Argon
  import opened Process

  const JsonSuffix: string := ".json"

  /** `getOutput()`: the typed name, rejected when empty or cancelled,
      with `.json` appended unless it already ends with it. */
  function GetOutput(typed: Option<string>): (r: Outcome<string>)
    ensures r.Returned? || r.Cancelled?
    ensures r.Cancelled? <==> !Truthy(typed)
    ensures r.Returned? ==> EndsWith(r.value, JsonSuffix)
    ensures r.Returned? ==> r.value == typed.value || r.value == typed.value + JsonSuffix
    ensures r.Returned? && EndsWith(typed.value, JsonSuffix) ==> r.value == typed.value
  {
    if !Truthy(typed) then Cancelled
    else
      var output := typed.value;
      if EndsWith(output, JsonSuffix) then Returned(output)
      else
        assert (output + JsonSuffix)[|output|..] == JsonSuffix;
        Returned(output + JsonSuffix)
  }

  /** Entering the name the menu produced gives the same name again. */
  lemma GetOutputIdempotent(typed: Option<string>)
    requires GetOutput(typed).Returned?
    ensures GetOutput(Some(GetOutput(typed).value)) == GetOutput(typed)
  {
  }

  /** `sourcemap` typed gives `sourcemap.json`, and `map.json` is kept. */
  lemma SuffixExamples()
    ensures GetOutput(Some("sourcemap")) == Returned("sourcemap.json")
    ensures GetOutput(Some("map.json")) == Returned("map.json")
  {
    assert !EndsWith("sourcemap", JsonSuffix) by {
      assert "sourcemap"[4..] == "cemap";
    }
    assert "sourcemap" + JsonSuffix == "sourcemap.json";
    assert EndsWith("map.json", JsonSuffix) by {
      assert "map.json"[3..] == JsonSuffix;
    }
  }

  /** The options, built afresh on every call; each is kept under its id. */
  const Table: seq<MenuOption> := [
    MenuOption("Watch for changes", "--watch", "watch", true),
    MenuOption("Include non-scripts", "--non-scripts", "nonScripts", false)
  ]

  /** `getOptions()`: builds the table, loads the picks, and resolves with
      the chosen flags in the order returned after recording, under each
      option's id, whether it was chosen; cancelling stores nothing. */
  method GetOptions(store: Memento, chosen: Option<seq<MenuOption>>) returns (r: Outcome<seq<string>>)
    modifies store
    ensures chosen.None? ==> r == Cancelled && store.values == old(store.values)
    ensures chosen.Some? ==> r == Returned(ChosenFlags(chosen.value, None))
    ensures chosen.Some? ==> store.values == StoredPicks(old(store.values), RestoredAll(Table, old(store.values)), chosen.value)
  {
    var options := new MenuOption[2](i requires 0 <= i < 2 => Table[i]);
    assert options[..] == Table;
    LoadPicks(options, store);
    assert options[..] == RestoredAll(Table, old(store.values));
    if chosen.None? {
      return Cancelled;
    }
    StorePicks(options, store, chosen.value);
    r := Returned(ChosenFlags(chosen.value, None));
  }

  /** After a pick, `watch` and `nonScripts` hold whether their options
      were chosen (matched by id), and nothing else changes. */
  lemma PicksStoredById(store: map<string, bool>, chosen: seq<MenuOption>)
    ensures var after := StoredPicks(store, RestoredAll(Table, store), chosen);
      after.Keys == store.Keys + {"watch", "nonScripts"} &&
      after["watch"] == (exists c :: c in chosen && c.key == "watch") &&
      after["nonScripts"] == (exists c :: c in chosen && c.key == "nonScripts") &&
      forall k :: k in store && k != "watch" && k != "nonScripts" ==> after[k] == store[k]
  {
    var loaded := RestoredAll(Table, store);
    assert loaded[0].key == "watch" && loaded[1].key == "nonScripts";
    assert KeySet(loaded) == {"watch", "nonScripts"} by {
      assert forall o :: o in loaded <==> o == loaded[0] || o == loaded[1];
    }
    assert "watch" != "nonScripts";
    StoredPickOf(store, loaded, chosen, 0);
    StoredPickOf(store, loaded, chosen, 1);
  }

  /** The options of the `sourcemap` call: the chosen flags, then the
      output as one argument `--output <file>`. */
  function Args(flags: seq<string>, output: string): (args: seq<string>)
    ensures |args| == |flags| + 1 && args[..|flags|] == flags
    ensures args[|flags|] == "--output " + output
  {
    flags + ["--output " + output]
  }

  /** The output argument never reads as `--watch`, so the call watches
      exactly when that option was chosen. */
  lemma WatchingIffChosen(flags: seq<string>, output: string)
    ensures Watching(Args(flags, output)) <==> Watching(flags)
  {
    var args := Args(flags, output);
    assert ("--output " + output)[2] == 'o';
    if !Watching(flags) {
      forall i | 0 <= i < |args|
        ensures args[i] != "--watch"
      {
        if i < |flags| {
          assert args[i] == args[..|flags|][i];
        }
      }
    }
    if Watching(flags) {
      var i :| 0 <= i < |flags| && flags[i] == "--watch";
      assert args[i] == args[..|flags|][i];
    }
  }

  /** `handler(state)`: picks the project, asks for the output and the
      options, calls `sourcemap` and, when it answers with an id other
      than 0, records a `Sourcemap` session. `mapped` is what the runner
      gives for the call. */
  method Handler(state: State, cli: Cli, store: Memento,
                 picked: Outcome<string>, typed: Option<string>, chosen: Option<seq<MenuOption>>,
                 json: ProjectJson, now: int, mapped: SpawnResult)
    returns (call: Option<Invocation>, r: Outcome<Option<Session>>)
    modifies state, cli.ids, store
    ensures !picked.Returned? ==> r == Stopped(picked) && call.None?
    ensures picked.Returned? && !GetOutput(typed).Returned? ==> r == Cancelled && call.None?
    ensures picked.Returned? && GetOutput(typed).Returned? && chosen.None? ==> r == Cancelled && call.None?
    ensures store.values == if picked.Returned? && GetOutput(typed).Returned? && chosen.Some?
      then StoredPicks(old(store.values), RestoredAll(Table, old(store.values)), chosen.value) else old(store.values)
    ensures call.None? ==> state.sessions == old(state.sessions) && cli.ids.lastId == old(cli.ids.lastId)
    ensures picked.Returned? && GetOutput(typed).Returned? && chosen.Some? ==>
      var args := Args(ChosenFlags(chosen.value, None), GetOutput(typed).value);
      var id := if Watching(args) then Some(NextId(old(cli.ids.lastId), now)) else None;
      call == Some(SourcemapCall(picked.value, args, if id.Some? then id.value else 0)) &&
      (!mapped.Returned? ==> r == Stopped(mapped) && state.sessions == old(state.sessions)) &&
      (mapped.Returned? && !(id.Some? && id.value != 0) ==> r == Returned(None) && state.sessions == old(state.sessions)) &&
      (mapped.Returned? && id.Some? && id.value != 0 ==>
        r.Returned? && r.value.Some? && state.sessions == old(state.sessions) + [r.value.value] &&
        r.value.value.name == NameText(ProjectName(picked.value, json)) && r.value.value.project == picked.value &&
        r.value.value.id == id.value && r.value.value.sessionType == Sourcemap)
  {
    if !picked.Returned? {
      return None, Stopped(picked);
    }
    var project := picked.value;
    var output := GetOutput(typed);
    if !output.Returned? {
      return None, Cancelled;
    }
    var selection := GetOptions(store, chosen);
    if !selection.Returned? {
      return None, Cancelled;
    }
    var args := selection.value;
    args := args + ["--output " + output.value];
    var name := NameText(ProjectName(project, json));
    var id, c := cli.Sourcemap(now, project, args);
    call := Some(c);
    var result := After(mapped, id);
    if !result.Returned? {
      return call, Stopped(mapped);
    }
    if id.Some? && id.value != 0 {
      var s := new Session(name, project, id.value, now);
      s := s.WithType(Sourcemap);
      state.AddSession(s);
      r := Returned(Some(s));
    } else {
      r := Returned(None);
    }
  }
}
