/** The build menu (`src/menu/build.ts`): the output name, the option
    table with its remembered picks, and the flow that calls `build` and
    records a session when the build keeps watching. The input box, the
    quick pick and the project picker are inputs. */
module BuildMenu {
  import opened Wrappers
  import opened Strings
  import opened Util
  import opened MenuOptions
  import opened Sessions
  import opened Registry
  import opened Argon
  import opened Process

  /** The option table as the extension ships it; each option's picked
      state is kept under `Build` followed by its flag. */
  const Table: seq<MenuOption> := [
    MenuOption("Watch for changes", "--watch", "Build--watch", true),
    MenuOption("Generate sourcemap", "--sourcemap", "Build--sourcemap", true),
    MenuOption("Build plugin", "--plugin", "Build--plugin", false),
    MenuOption("Use XML format", "--xml", "Build--xml", false),
    MenuOption("Use roblox-ts", "--ts", "Build--ts", false)
  ]

  /** `getOutput(name, restore)`: no output name when restoring; otherwise
      the typed name, rejected when empty or cancelled, and no output name
      when it is exactly the project's name. */
  function GetOutput(name: Option<string>, restore: bool, typed: Option<string>): (r: Outcome<Option<string>>)
    ensures r.Returned? || r.Cancelled?
    ensures restore ==> r == Returned(None)
    ensures !restore ==> (r.Cancelled? <==> !Truthy(typed))
    ensures r.Returned? && r.value.Some? ==> Truthy(r.value) && r.value != name && r.value == typed
    ensures !restore && Truthy(typed) && typed == name ==> r == Returned(None)
  {
    if restore then Returned(None)
    else if !Truthy(typed) then Cancelled
    else if typed == name then Returned(None)
    else Returned(typed)
  }

  /** What `getOptions` resolves with, given the table after loading: all
      picked flags in table order when restoring; otherwise nothing when
      the pick is cancelled, else the chosen flags in the order returned. */
  function Selection(restore: bool, loaded: seq<MenuOption>, chosen: Option<seq<MenuOption>>): (r: Outcome<seq<string>>)
    ensures r.Returned? || r.Cancelled?
    ensures restore ==> r.Returned? && forall f :: f in r.value <==> exists o :: o in loaded && o.picked && o.flag == f
    ensures restore ==> r.value == FlagsAt(loaded, Positions(loaded, false, None, 0))
    ensures !restore ==> (r.Returned? <==> chosen.Some?)
    ensures !restore && chosen.Some? ==>
      r.value == seq(|chosen.value|, i requires 0 <= i < |chosen.value| => chosen.value[i].flag)
  {
    if restore then Returned(PickedFlags(loaded, None))
    else if chosen.None? then Cancelled
    else
      ChosenFlagsAll(chosen.value);
      Returned(ChosenFlags(chosen.value, None))
  }

  /** `getOptions(restore)`: loads the picks, then answers from them when
      restoring, or records the user's pick for next time. */
  method GetOptions(options: array<MenuOption>, store: Memento, restore: bool, chosen: Option<seq<MenuOption>>)
    returns (r: Outcome<seq<string>>)
    modifies options, store
    ensures options[..] == RestoredAll(old(options[..]), old(store.values))
    ensures r == Selection(restore, options[..], chosen)
    ensures store.values == if !restore && chosen.Some? then StoredPicks(old(store.values), options[..], chosen.value) else old(store.values)
  {
    LoadPicks(options, store);
    if restore {
      return Returned(PickedFlags(options[..], None));
    }
    if chosen.None? {
      return Cancelled;
    }
    StorePicks(options, store, chosen.value);
    r := Selection(false, options[..], chosen);
  }

  /** The options of the `build` call: the flags, then `--output` and the
      name when there is one. */
  function Args(flags: seq<string>, output: Option<string>): (args: seq<string>)
    ensures |args| >= |flags| && args[..|flags|] == flags
    ensures output.Some? ==> args[|flags|..] == ["--output", output.value]
    ensures output.None? ==> args == flags
  {
    flags + (if output.Some? then ["--output", output.value] else [])
  }

  /** `--watch` among the flags is what decides whether the build draws an
      id; an output name never adds it. */
  lemma OutputKeepsWatching(flags: seq<string>, output: Option<string>)
    requires output.Some? ==> output.value != "--watch"
    ensures Watching(Args(flags, output)) <==> Watching(flags)
  {
    var args := Args(flags, output);
    if !Watching(flags) {
      forall i | 0 <= i < |args|
        ensures args[i] != "--watch"
      {
        if i < |flags| {
          assert args[i] == args[..|flags|][i];
        } else {
          assert args[i] == args[|flags|..][i - |flags|];
        }
      }
    }
    if Watching(flags) {
      var i :| 0 <= i < |flags| && flags[i] == "--watch";
      assert args[i] == args[..|flags|][i];
    }
  }

  /** The build as the flow makes it, or why it stops first. `loaded` is
      the table after loading. */
  datatype Request = Request(project: string, name: Option<string>, args: seq<string>)

  function Plan(session: Option<RestorableSession>, picked: Outcome<string>, json: ProjectJson,
                typed: Option<string>, loaded: seq<MenuOption>, chosen: Option<seq<MenuOption>>): (r: Outcome<Request>)
    ensures session.Some? ==> r.Returned? && r.value.project == session.value.project
    ensures session.Some? ==> r.value.args == PickedFlags(loaded, None)
    ensures session.None? && !picked.Returned? ==> r == Stopped(picked)
    ensures session.None? && picked.Returned? ==> (r.Returned? <==> Truthy(typed) && chosen.Some?)
    ensures r.Returned? ==> r.value.name == ProjectName(r.value.project, json)
  {
    if session.None? && !picked.Returned? then Stopped(picked)
    else
      var project := if session.Some? then session.value.project else picked.value;
      var name := ProjectName(project, json);
      match GetOutput(name, session.Some?, typed)
      case Returned(output) =>
        (match Selection(session.Some?, loaded, chosen)
         case Returned(flags) => Returned(Request(project, name, Args(flags, output)))
         case _ => Cancelled)
      case _ => Cancelled
  }

  /** The id `build` answers with, when it is truthy (a number other
      than 0). */
  predicate TruthyId(id: Option<int>) {
    id.Some? && id.value != 0
  }

  /** The steps of `run` before the build call: the project (restored or
      picked), the output name, then the option pick with its remembered
      picks. */
  method Prepare(options: array<MenuOption>, store: Memento,
                 session: Option<RestorableSession>, picked: Outcome<string>, json: ProjectJson,
                 typed: Option<string>, chosen: Option<seq<MenuOption>>)
    returns (plan: Outcome<Request>)
    modifies options, store
    ensures var loads := (session.Some? || picked.Returned?) &&
        GetOutput(ProjectName(if session.Some? then session.value.project else picked.value, json), session.Some?, typed).Returned?;
      options[..] == (if loads then RestoredAll(old(options[..]), old(store.values)) else old(options[..])) &&
      store.values == (if loads && session.None? && chosen.Some? then StoredPicks(old(store.values), options[..], chosen.value) else old(store.values))
    ensures plan == Plan(session, picked, json, typed, RestoredAll(old(options[..]), old(store.values)), chosen)
  {
    var project: string;
    if session.Some? {
      project := session.value.project;
    } else {
      if !picked.Returned? {
        return Stopped(picked);
      }
      project := picked.value;
    }
    var name := ProjectName(project, json);
    var output := GetOutput(name, session.Some?, typed);
    if !output.Returned? {
      return Cancelled;
    }
    var selection := GetOptions(options, store, session.Some?, chosen);
    if !selection.Returned? {
      return Cancelled;
    }
    plan := Returned(Request(project, name, Args(selection.value, output.value)));
  }

  /** The build call for a request and what follows it: when the build
      answers with a truthy id, a new `Build` session. */
  method Launch(state: State, cli: Cli, req: Request, now: int, built: SpawnResult)
    returns (call: Invocation, r: Outcome<Option<Session>>)
    modifies state, cli.ids
    ensures var id := if Watching(req.args) then Some(NextId(old(cli.ids.lastId), now)) else None;
      call == BuildCall(req.project, req.args, if id.Some? then id.value else 0) &&
      (!built.Returned? || !TruthyId(id) ==> state.sessions == old(state.sessions)) &&
      (!built.Returned? ==> r == Stopped(built)) &&
      (built.Returned? && !TruthyId(id) ==> r == Returned(None)) &&
      (built.Returned? && TruthyId(id) ==>
        r.Returned? && r.value.Some? && state.sessions == old(state.sessions) + [r.value.value] &&
        r.value.value.name == NameText(req.name) && r.value.value.project == req.project &&
        r.value.value.id == id.value && r.value.value.sessionType == Build && r.value.value.address.None?)
  {
    var id;
    id, call := cli.Build(now, req.project, req.args);
    var result := After(built, id);
    if !result.Returned? {
      return call, Stopped(built);
    }
    if id.Some? && id.value != 0 {
      var s := new Session(NameText(req.name), req.project, id.value, now);
      s := s.WithType(Build);
      state.AddSession(s);
      r := Returned(Some(s));
    } else {
      r := Returned(None);
    }
  }

  /** `run(state, session)`: picks or restores the project, asks for the
      output and the options, calls `build` and, when it answers with an
      id, records a `Build` session. `built` is what the runner gives for
      the build call. The output is asked for before the options, so a
      cancelled output leaves the picks unloaded. */
  method Run(state: State, cli: Cli, options: array<MenuOption>, store: Memento,
             session: Option<RestorableSession>, picked: Outcome<string>, json: ProjectJson,
             typed: Option<string>, chosen: Option<seq<MenuOption>>, now: int, built: SpawnResult)
    returns (call: Option<Invocation>, r: Outcome<Option<Session>>)
    modifies state, cli.ids, options, store
    ensures var loads := (session.Some? || picked.Returned?) &&
        GetOutput(ProjectName(if session.Some? then session.value.project else picked.value, json), session.Some?, typed).Returned?;
      options[..] == (if loads then RestoredAll(old(options[..]), old(store.values)) else old(options[..])) &&
      store.values == (if loads && session.None? && chosen.Some? then StoredPicks(old(store.values), options[..], chosen.value) else old(store.values))
    ensures var plan := Plan(session, picked, json, typed, RestoredAll(old(options[..]), old(store.values)), chosen);
      (call.Some? <==> plan.Returned?) &&
      (!plan.Returned? ==> r == Stopped(plan) && state.sessions == old(state.sessions) && cli.ids.lastId == old(cli.ids.lastId)) &&
      (plan.Returned? ==>
        var id := if Watching(plan.value.args) then Some(NextId(old(cli.ids.lastId), now)) else None;
        call.value == BuildCall(plan.value.project, plan.value.args, if id.Some? then id.value else 0) &&
        (!built.Returned? || !TruthyId(id) ==> state.sessions == old(state.sessions)) &&
        (!built.Returned? ==> r == Stopped(built)) &&
        (built.Returned? && !TruthyId(id) ==> r == Returned(None)) &&
        (built.Returned? && TruthyId(id) ==>
          r.Returned? && r.value.Some? && state.sessions == old(state.sessions) + [r.value.value] &&
          r.value.value.name == NameText(plan.value.name) && r.value.value.project == plan.value.project &&
          r.value.value.id == id.value && r.value.value.sessionType == Build && r.value.value.address.None?))
  {
    var plan := Prepare(options, store, session, picked, json, typed, chosen);
    if !plan.Returned? {
      return None, Stopped(plan);
    }
    var c;
    c, r := Launch(state, cli, plan.value, now, built);
    call := Some(c);
  }
}
