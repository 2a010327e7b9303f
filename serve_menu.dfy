/** The serve menu (`src/menu/serve.ts`): the option table with its
    remembered picks, the address a user types, and the flow that chooses
    the project, the flags and the address, calls `serve` and records the
    session. The quick pick, the input box and the project picker are
    inputs: what the user picked or typed, or nothing when they cancelled. */
module ServeMenu {
  import opened Wrappers
  import opened Strings
  import opened Numbers
  import opened Util
  import opened MenuOptions
  import opened Sessions
  import opened Registry
  import opened Argon
  import opened Process

  /** The pseudo-flag of the "Customize address" option: it asks for an
      address and is never passed to the CLI. */
  const CustomAddress: string := "customAddress"

  /** The option table as the extension ships it; each option's picked
      state is kept under `Serve` followed by its flag. */
  const Table: seq<MenuOption> := [
    MenuOption("Generate sourcemap", "--sourcemap", "Serve--sourcemap", true),
    MenuOption("Use roblox-ts", "--ts", "Serve--ts", false),
    MenuOption("Customize address", CustomAddress, "ServecustomAddress", false)
  ]

  lemma TableIsKeyedByFlag()
    ensures KeyedBy("Serve", Table) && DistinctKeys(Table)
  {
    assert Table[0].key == "Serve" + Table[0].flag;
    assert Table[1].key == "Serve" + Table[1].flag;
    assert Table[2].key == "Serve" + Table[2].flag;
    assert Table[0].key != Table[1].key && Table[0].key != Table[2].key && Table[1].key != Table[2].key by {
      assert |Table[0].key| == 16 && |Table[1].key| == 9 && |Table[2].key| == 18;
    }
  }

  // ---- The typed address (`getAddress`)

  /** The address typed into the input box: rejected when empty or
      cancelled; without a `:` it is a port when `Number` reads it and a
      host otherwise; with one, the host is the text before the first `:`
      and the port the text after it, up to any further `:`. */
  function ParseAddress(input: Option<string>): (r: Outcome<Address>)
    ensures r.Cancelled? <==> !Truthy(input)
    ensures r.Returned? || r.Cancelled?
    ensures r.Returned? ==> r.value.host.Some? || r.value.port.Some?
  {
    if !Truthy(input) then Cancelled
    else
      var comps := Split(input.value, ':');
      if |comps| == 1 then
        if IsNumeric(comps[0]) then Returned(Address(None, Some(comps[0])))
        else Returned(Address(Some(comps[0]), None))
      else Returned(Address(Some(comps[0]), Some(comps[1])))
  }

  /** Text without a `:` is all port or all host. */
  lemma AddressWithoutColon(s: string)
    requires s != "" && ':' !in s
    ensures ParseAddress(Some(s)) ==
      Returned(if IsNumeric(s) then Address(None, Some(s)) else Address(Some(s), None))
  {
    SplitWithoutSeparator(s, ':');
  }

  /** A port number typed alone sets the port only. */
  lemma PortAlone(n: nat)
    ensures ParseAddress(Some(NatToString(n))) == Returned(Address(None, Some(NatToString(n))))
  {
    var s := NatToString(n);
    assert ':' !in s by {
      assert forall i :: 0 <= i < |s| ==> IsDigit(s[i]);
    }
    NatTextIsNumeric(n);
    AddressWithoutColon(s);
  }

  /** `host:port` gives both halves. */
  lemma AddressWithColon(host: string, port: string)
    requires ':' !in host && ':' !in port
    ensures ParseAddress(Some(host + ":" + port)) == Returned(Address(Some(host), Some(port)))
  {
    assert host + ":" + port == host + [':'] + port;
    SplitOnePiece(host, ':', port);
  }

  /** Anything after a second `:` is ignored. */
  lemma AddressExtraPartsIgnored(host: string, port: string, rest: string)
    requires ':' !in host && ':' !in port
    ensures ParseAddress(Some(host + ":" + port + ":" + rest)) == Returned(Address(Some(host), Some(port)))
  {
    assert host + ":" + port + ":" + rest == host + [':'] + port + [':'] + rest;
    SplitTwoPieces(host, ':', port, rest);
  }

  // ---- The options (`getOptions`)

  /** What `getOptions` resolves with, given the table after loading: in
      restore mode the picked flags in table order and no prompt; otherwise
      nothing when the pick is cancelled, else the chosen flags in the order
      returned and whether the address is to be asked for. `customAddress` is never among the flags. */
  function Selection(restore: bool, loaded: seq<MenuOption>, chosen: Option<seq<MenuOption>>): (r: Outcome<(seq<string>, bool)>)
    ensures r.Returned? || r.Cancelled?
    ensures restore ==> r.Returned? && !r.value.1
    ensures !restore ==> (r.Returned? <==> chosen.Some?)
    ensures r.Returned? ==> CustomAddress !in r.value.0
    ensures r.Returned? && !restore ==> (r.value.1 <==> HasFlag(chosen.value, CustomAddress))
    ensures restore ==> forall f :: f in r.value.0 <==> exists o :: o in loaded && o.picked && o.flag == f && f != CustomAddress
    ensures r.Returned? && !restore ==> forall f :: f in r.value.0 <==> HasFlag(chosen.value, f) && f != CustomAddress
    ensures restore ==> r.value.0 == FlagsAt(loaded, Positions(loaded, false, Some(CustomAddress), 0))
    ensures r.Returned? && !restore ==>
      r.value.0 == FlagsAt(chosen.value, Positions(chosen.value, true, Some(CustomAddress), 0))
  {
    if restore then Returned((PickedFlags(loaded, Some(CustomAddress)), false))
    else if chosen.None? then Cancelled
    else Returned((ChosenFlags(chosen.value, Some(CustomAddress)), HasFlag(chosen.value, CustomAddress)))
  }

  /** `getOptions(restore)`: loads the picks, then either answers from them
      or records the user's pick for next time. The quick pick returns
      entries of the table it was shown, so the chosen items are keyed the
      same way. */
  method GetOptions(options: array<MenuOption>, store: Memento, restore: bool, chosen: Option<seq<MenuOption>>)
    returns (r: Outcome<(seq<string>, bool)>)
    modifies options, store
    ensures options[..] == RestoredAll(old(options[..]), old(store.values))
    ensures r == Selection(restore, options[..], chosen)
    ensures store.values == if !restore && chosen.Some? then StoredPicks(old(store.values), options[..], chosen.value) else old(store.values)
  {
    LoadPicks(options, store);
    if restore {
      return Returned((PickedFlags(options[..], Some(CustomAddress)), false));
    }
    if chosen.None? {
      return Cancelled;
    }
    StorePicks(options, store, chosen.value);
    var items := chosen.value;
    var prompt := exists c :: c in items && c.flag == CustomAddress;
    r := Returned((ChosenFlags(items, Some(CustomAddress)), prompt));
  }

  // ---- The address of the flow (`run`)

  /** The address a restored session starts from: the host is the text
      before the first `:` of its address; the port is the original port
      when that is set and not 0, else the text after the `:`. */
  function RestoredAddress(s: RestorableSession): (a: Address)
    ensures s.address.None? ==> a.host.None?
    ensures s.address.Some? ==> a.host.Some? && ':' !in a.host.value
    ensures s.originalPort.Some? && s.originalPort.value != 0 ==> a.port == Some(IntToString(s.originalPort.value))
    ensures s.address.Some? ==>
      StartsWith(s.address.value, a.host.value) &&
      (a.host.value == s.address.value || s.address.value[|a.host.value|] == ':')
    ensures s.originalPort.None? || s.originalPort == Some(0) ==>
      (a.port.Some? <==> s.address.Some? && ':' in s.address.value)
    ensures (s.originalPort.None? || s.originalPort == Some(0)) && s.address.Some? && a.port.Some? ==>
      var text, host, port := s.address.value, a.host.value, a.port.value;
      ':' !in port && StartsWith(text, host + ":" + port) &&
      (|text| == |host| + 1 + |port| || text[|host| + 1 + |port|] == ':')
  {
    SplitHead(if s.address.Some? then s.address.value else "", ':');
    var parts := if s.address.Some? then Split(s.address.value, ':') else [];
    Address(
      if |parts| >= 1 then Some(parts[0]) else None,
      if s.originalPort.Some? && s.originalPort.value != 0 then Some(IntToString(s.originalPort.value))
      else if |parts| >= 2 then Some(parts[1]) else None)
  }

  /** A session recorded with address `host:port` and no original port is
      restored to that same host and port. */
  lemma RestoreRoundTrip(project: string, host: string, port: string)
    requires ':' !in host && ':' !in port
    ensures RestoredAddress(RestorableSession(project, Some(host + ":" + port), None)) == Address(Some(host), Some(port))
  {
    assert host + ":" + port == host + [':'] + port;
    SplitOnePiece(host, ':', port);
  }

  /** Without an address the restored session only keeps its port. */
  lemma RestoreWithoutAddress(project: string, originalPort: Option<int>)
    ensures RestoredAddress(RestorableSession(project, None, originalPort)).host.None?
    ensures originalPort.None? ==> RestoredAddress(RestorableSession(project, None, originalPort)) == Address(None, None)
  {
  }

  /** The host and port the flow serves on: a typed part wins when it is
      non-empty, then the project's (or the restored session's) part when
      that is non-empty, then the configured default. */
  function Target(base: Address, custom: Option<Address>, defaultHost: string, defaultPort: int): (hp: (string, string))
    ensures hp.0 == if custom.Some? && Truthy(custom.value.host) then custom.value.host.value
                    else if Truthy(base.host) then base.host.value else defaultHost
    ensures hp.1 == if custom.Some? && Truthy(custom.value.port) then custom.value.port.value
                    else if Truthy(base.port) then base.port.value else IntToString(defaultPort)
    ensures defaultHost != "" ==> hp.0 != ""
    ensures hp.1 != ""
  {
    var host := if custom.Some? && Truthy(custom.value.host) then custom.value.host else base.host;
    var port := if custom.Some? && Truthy(custom.value.port) then custom.value.port else base.port;
    (if Truthy(host) then host.value else defaultHost,
     if Truthy(port) then port.value else IntToString(defaultPort))
  }

  /** A typed port alone keeps the project's host, and a typed host alone
      keeps the project's port. */
  lemma TypedPartKeepsTheOther(base: Address, typed: string, defaultHost: string, defaultPort: int)
    requires typed != "" && ':' !in typed
    ensures IsNumeric(typed) ==>
      Target(base, Some(ParseAddress(Some(typed)).value), defaultHost, defaultPort).0 == Target(base, None, defaultHost, defaultPort).0
    ensures !IsNumeric(typed) ==>
      Target(base, Some(ParseAddress(Some(typed)).value), defaultHost, defaultPort).1 == Target(base, None, defaultHost, defaultPort).1
  {
    AddressWithoutColon(typed);
  }

  /** `message.match(/\d+/g)?.[1]` as the session's port after a conflict;
      `undefined` prints as such when there is no second number. */
  function ConflictPort(message: string): string {
    match SecondDigitRun(message)
    case Some(p) => p
    case None => "undefined"
  }

  /** In a conflict message of the form `... 8000 ... 8001 ...` the port
      taken is the second number. */
  lemma ConflictPortIsSecondNumber(pre: string, first: string, mid: string, second: string, post: string)
    requires forall i :: 0 <= i < |pre| ==> !IsDigit(pre[i])
    requires forall i :: 0 <= i < |mid| ==> !IsDigit(mid[i])
    requires IsDigits(first) && IsDigits(second) && mid != []
    requires post == [] || !IsDigit(post[0])
    ensures ConflictPort(pre + first + mid + second + post) == second
  {
    SecondDigitRunOf(pre, first, mid, second, post);
  }

  /** The port the session is recorded with: the served port, or the
      conflict port when the message reports the port in use. */
  function SessionPort(message: string, port: string): string {
    if Contains(message, "already in use") then ConflictPort(message) else port
  }

  /** A serve call that returns an address never reports a conflict, so
      the session keeps the port it was served on. */
  lemma ServedSessionKeepsPort(id: int, served: SpawnResult, port: string)
    requires ServeResult(id, served).Returned?
    ensures SessionPort(ServeResult(id, served).value.1, port) == port
  {
    ServedAddressNeverReportsConflict(id, served);
  }

  // ---- The flow (`run`)

  /** What the flow hands to `serve`: the project and the options, with
      the host and port it chose. */
  datatype Request = Request(project: string, flags: seq<string>, host: string, port: string)

  /** The options of the `serve` call: the flags, then `--host` and
      `--port` with their values. */
  function Args(req: Request): (args: seq<string>)
    ensures |args| == |req.flags| + 4 && args[..|req.flags|] == req.flags
    ensures args[|req.flags|..] == ["--host", req.host, "--port", req.port]
  {
    req.flags + ["--host", req.host] + ["--port", req.port]
  }

  /** The request the flow makes, or why it stops first: a restored
      session gives the project and address; otherwise the project picker
      does (and its failure ends the flow). Then the option pick, and the
      typed address when asked for. `loaded` is the table after loading. */
  function Plan(session: Option<RestorableSession>, picked: Outcome<string>, json: ProjectJson,
                loaded: seq<MenuOption>, chosen: Option<seq<MenuOption>>, typed: Option<string>,
                defaultHost: string, defaultPort: int): (r: Outcome<Request>)
    ensures session.None? && !picked.Returned? ==> r == Stopped(picked)
    ensures r.Returned? ==> r.value.project == (if session.Some? then session.value.project else picked.value)
    ensures r.Returned? ==> CustomAddress !in r.value.flags && r.value.port != ""
  {
    if session.None? && !picked.Returned? then Stopped(picked)
    else
      var project := if session.Some? then session.value.project else picked.value;
      var base := if session.Some? then RestoredAddress(session.value) else ProjectAddress(json);
      match Selection(session.Some?, loaded, chosen)
      case Returned((flags, prompt)) =>
        if !prompt then
          var hp := Target(base, None, defaultHost, defaultPort);
          Returned(Request(project, flags, hp.0, hp.1))
        else
          (match ParseAddress(typed)
           case Returned(custom) =>
             var hp := Target(base, Some(custom), defaultHost, defaultPort);
             Returned(Request(project, flags, hp.0, hp.1))
           case _ => Cancelled)
      case _ => Cancelled
  }

  /** A restored session never prompts, so its flow always reaches
      `serve`, on the session's host and (original) port when set. */
  lemma RestoreAlwaysServes(session: RestorableSession, picked: Outcome<string>, json: ProjectJson,
                            loaded: seq<MenuOption>, chosen: Option<seq<MenuOption>>, typed: Option<string>,
                            defaultHost: string, defaultPort: int)
    ensures var r := Plan(Some(session), picked, json, loaded, chosen, typed, defaultHost, defaultPort);
      r.Returned? && r.value.project == session.project &&
      r.value.flags == PickedFlags(loaded, Some(CustomAddress)) &&
      r.value == Request(session.project, r.value.flags,
        Target(RestoredAddress(session), None, defaultHost, defaultPort).0,
        Target(RestoredAddress(session), None, defaultHost, defaultPort).1)
  {
  }

  /** The steps of `run` before the serve call: the project (restored or
      picked), the option pick with its remembered picks, and the address
      typed when asked for. */
  method Prepare(options: array<MenuOption>, store: Memento,
                 session: Option<RestorableSession>, picked: Outcome<string>, json: ProjectJson,
                 chosen: Option<seq<MenuOption>>, typed: Option<string>,
                 defaultHost: string, defaultPort: int)
    returns (plan: Outcome<Request>)
    modifies options, store
    ensures session.None? && !picked.Returned? ==> options[..] == old(options[..]) && store.values == old(store.values)
    ensures session.Some? || picked.Returned? ==> options[..] == RestoredAll(old(options[..]), old(store.values))
    ensures store.values == if session.None? && picked.Returned? && chosen.Some?
      then StoredPicks(old(store.values), options[..], chosen.value) else old(store.values)
    ensures plan == Plan(session, picked, json, RestoredAll(old(options[..]), old(store.values)), chosen, typed, defaultHost, defaultPort)
  {
    var project: string;
    var address: Address;
    if session.Some? {
      project := session.value.project;
      address := RestoredAddress(session.value);
    } else {
      if !picked.Returned? {
        return Stopped(picked);
      }
      project := picked.value;
      address := ProjectAddress(json);
    }
    var selection := GetOptions(options, store, session.Some?, chosen);
    if !selection.Returned? {
      return Cancelled;
    }
    var flags := selection.value.0;
    var custom: Option<Address> := None;
    if selection.value.1 {
      var typedAddress := ParseAddress(typed);
      if !typedAddress.Returned? {
        return Cancelled;
      }
      custom := Some(typedAddress.value);
    }
    var hp := Target(address, custom, defaultHost, defaultPort);
    plan := Returned(Request(project, flags, hp.0, hp.1));
  }

  /** The serve call for a request and what follows it: once `serve`
      answers with an address, a new session on `host:port` (the
      conflict port when the answer reports the port in use). */
  method Launch(state: State, cli: Cli, req: Request, name: string, now: int, served: SpawnResult)
    returns (call: Invocation, r: Outcome<Session>)
    modifies state, cli.ids
    ensures var id := NextId(old(cli.ids.lastId), now);
      call == ServeCall(req.project, id, Args(req)) &&
      (!ServeResult(id, served).Returned? ==> r == Stopped(ServeResult(id, served)) && state.sessions == old(state.sessions)) &&
      (ServeResult(id, served).Returned? ==>
        r.Returned? && state.sessions == old(state.sessions) + [r.value] &&
        r.value.name == name && r.value.project == req.project && r.value.id == id && r.value.sessionType == Serve &&
        r.value.address == Some(req.host + ":" + SessionPort(ServeResult(id, served).value.1, req.port)))
  {
    var args := req.flags;
    args := args + ["--host", req.host];
    args := args + ["--port", req.port];
    assert args == Args(req);
    var id;
    id, call := cli.Serve(now, req.project, args);
    var result := ServeResult(id, served);
    if !result.Returned? {
      return call, Stopped(result);
    }
    var port := req.port;
    var message := result.value.1;
    if Contains(message, "already in use") {
      port := ConflictPort(message);
    }
    var s := new Session(name, req.project, id, now);
    s := s.WithAddress(req.host + ":" + port);
    state.AddSession(s);
    r := Returned(s);
  }

  /** `run(state, session)`: picks or restores the project, loads the
      option picks, asks for the options and the address as needed,
      calls `serve` and, once it answers with an address, records a new
      session on `host:port`. `served` is what the runner gives for the
      serve call. */
  method Run(state: State, cli: Cli, options: array<MenuOption>, store: Memento,
             session: Option<RestorableSession>, picked: Outcome<string>, json: ProjectJson,
             chosen: Option<seq<MenuOption>>, typed: Option<string>,
             defaultHost: string, defaultPort: int, now: int, served: SpawnResult)
    returns (call: Option<Invocation>, r: Outcome<Session>)
    modifies state, cli.ids, options, store
    ensures session.None? && !picked.Returned? ==> options[..] == old(options[..]) && store.values == old(store.values)
    ensures session.Some? || picked.Returned? ==> options[..] == RestoredAll(old(options[..]), old(store.values))
    ensures store.values == if session.None? && picked.Returned? && chosen.Some?
      then StoredPicks(old(store.values), options[..], chosen.value) else old(store.values)
    ensures var plan := Plan(session, picked, json, RestoredAll(old(options[..]), old(store.values)), chosen, typed, defaultHost, defaultPort);
      (call.Some? <==> plan.Returned?) &&
      (!plan.Returned? ==> r == Stopped(plan) && state.sessions == old(state.sessions)) &&
      (plan.Returned? ==>
        var id := NextId(old(cli.ids.lastId), now);
        call.value == ServeCall(plan.value.project, id, Args(plan.value)) &&
        (!ServeResult(id, served).Returned? ==> r == Stopped(ServeResult(id, served)) && state.sessions == old(state.sessions)) &&
        (ServeResult(id, served).Returned? ==>
          r.Returned? && state.sessions == old(state.sessions) + [r.value] &&
          r.value.name == NameText(ProjectName(plan.value.project, json)) &&
          r.value.project == plan.value.project && r.value.id == id && r.value.sessionType == Serve &&
          r.value.address == Some(plan.value.host + ":" + SessionPort(ServeResult(id, served).value.1, plan.value.port))))
  {
    var plan := Prepare(options, store, session, picked, json, chosen, typed, defaultHost, defaultPort);
    if !plan.Returned? {
      return None, Stopped(plan);
    }
    var name := NameText(ProjectName(plan.value.project, json));
    var c;
    c, r := Launch(state, cli, plan.value, name, now, served);
    call := Some(c);
  }
}
