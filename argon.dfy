/** The command façade of `src/argon.ts`: the clock-driven id counter
    (`generateId`), the argument vector of every CLI command, and how the
    result of the process runner becomes each command's result. */
module Argon {
  import opened Wrappers
  import opened Strings
  import opened Numbers
  import opened Process

  // ---- Ids (`generateId`)

  /** The id `generateId` hands out: the clock reading, bumped by one when
      it equals the previous id. */
  function NextId(lastId: int, now: int): (id: int)
    ensures id != lastId
    ensures now != lastId ==> id == now
    ensures now == lastId ==> id == now + 1
  {
    if now == lastId then now + 1 else now
  }

  /** The ids handed out for a series of clock readings, starting from
      `lastId`. */
  function IdsFor(lastId: int, clock: seq<int>): (ids: seq<int>)
    ensures |ids| == |clock|
    decreases |clock|
  {
    if clock == [] then []
    else
      var id := NextId(lastId, clock[0]);
      [id] + IdsFor(id, clock[1..])
  }

  /** Consecutive ids always differ, and the first differs from `lastId`. */
  lemma {:induction false} ConsecutiveIdsDiffer(lastId: int, clock: seq<int>)
    requires |clock| >= 1
    ensures IdsFor(lastId, clock)[0] != lastId
    ensures forall i :: 0 <= i < |clock| - 1 ==> IdsFor(lastId, clock)[i] != IdsFor(lastId, clock)[i + 1]
    decreases |clock|
  {
    var ids := IdsFor(lastId, clock);
    if |clock| >= 2 {
      ConsecutiveIdsDiffer(ids[0], clock[1..]);
      assert ids[1..] == IdsFor(ids[0], clock[1..]);
    }
  }

  /** Three calls within the same millisecond repeat an id: the bump is one
      step only, so ids are not unique over a session. */
  lemma SameMillisecondRepeatsId()
    ensures IdsFor(0, [5, 5, 5]) == [5, 6, 5]
  {
    assert IdsFor(6, [5]) == [5];
    assert IdsFor(5, [5, 5]) == [6, 5] by {
      assert [5, 5][1..] == [5];
    }
    assert [5, 5, 5][1..] == [5, 5];
  }

  /** A clock that moves forward between calls yields exactly its readings,
      so those ids are all distinct. */
  lemma {:induction false} IncreasingClockGivesReadings(lastId: int, clock: seq<int>)
    requires forall i :: 0 <= i < |clock| ==> clock[i] > lastId
    requires forall i, j :: 0 <= i < j < |clock| ==> clock[i] < clock[j]
    ensures IdsFor(lastId, clock) == clock
    decreases |clock|
  {
    if clock != [] {
      IncreasingClockGivesReadings(clock[0], clock[1..]);
      assert [clock[0]] + clock[1..] == clock;
    }
  }

  /** The module-level `lastId`. */
  class IdGenerator {
    var lastId: int

    constructor()
      ensures lastId == 0
    {
      lastId := 0;
    }

    /** `generateId()` at clock reading `now`. */
    method GenerateId(now: int) returns (id: int)
      modifies this
      ensures id == NextId(old(lastId), now)
      ensures lastId == id
    {
      id := now;
      if id == lastId {
        id := id + 1;
      }
      lastId := id;
    }
  }

  // ---- Argument vectors

  /** One call of the process runner: the arguments (before the verbosity
      and colour flags) and the spawn options. */
  datatype Invocation = Invocation(args: seq<string>, opts: SpawnOptions)

  predicate Watching(options: seq<string>) {
    "--watch" in options
  }

  function ServeCall(project: string, id: int, options: seq<string>): Invocation {
    Invocation(["serve", project, IntToString(id)] + options, SpawnOptions(false, Some(ServingOn)))
  }

  /** `build`: with `--watch` the id follows the project and the call
      resolves on `Build successful`; without it there is no id. */
  function BuildCall(project: string, options: seq<string>, id: int): Invocation {
    if Watching(options) then
      Invocation(["build", project, IntToString(id)] + options, SpawnOptions(false, Some(BuildSuccessful)))
    else
      Invocation(["build", project] + options, SpawnOptions(false, None))
  }

  /** `sourcemap`: like `build`, but no pattern even when watching, so a
      watching call only returns once the process ends. */
  function SourcemapCall(project: string, options: seq<string>, id: int): Invocation {
    if Watching(options) then
      Invocation(["sourcemap", project, IntToString(id)] + options, SpawnOptions(false, None))
    else
      Invocation(["sourcemap", project] + options, SpawnOptions(false, None))
  }

  function InitCall(project: string, template: string, options: seq<string>): Invocation {
    Invocation(["init", project, "--template", template] + options, SpawnOptions(false, None))
  }

  /** The decimal texts of a list of ids, in order. */
  function IdTexts(ids: seq<int>): (texts: seq<string>)
    ensures |texts| == |ids|
    ensures forall i :: 0 <= i < |ids| ==> texts[i] == IntToString(ids[i])
  {
    seq(|ids|, i requires 0 <= i < |ids| => IntToString(ids[i]))
  }

  function StopCall(ids: seq<int>): Invocation {
    Invocation(["stop"] + IdTexts(ids), SpawnOptions(true, None))
  }

  datatype DebugMode = Play | RunMode | Start | Stop | Studio

  function DebugModeText(mode: DebugMode): string {
    match mode
    case Play => "play"
    case RunMode => "run"
    case Start => "start"
    case Stop => "stop"
    case Studio => "studio"
  }

  function DebugCall(mode: DebugMode): Invocation {
    Invocation(["debug", DebugModeText(mode)], SpawnOptions(true, None))
  }

  function ExecCall(code: string, focus: bool): Invocation {
    Invocation(["exec", code] + (if focus then ["--focus"] else []), SpawnOptions(true, None))
  }

  /** `studio`: the place only when it is a non-empty string, then
      `--check` when asked. */
  function StudioCall(check: bool, place: Option<string>): Invocation {
    Invocation(["studio"] + (if Truthy(place) then [place.value] else []) + (if check then ["--check"] else []),
      SpawnOptions(true, None))
  }

  datatype PluginMode = Install | Uninstall

  function PluginCall(mode: PluginMode): Invocation {
    Invocation(["plugin", if mode == Install then "install" else "uninstall"], SpawnOptions(false, None))
  }

  datatype UpdateMode = All | Cli | Plugin | Templates

  function UpdateModeText(mode: UpdateMode): string {
    match mode
    case All => "all"
    case Cli => "cli"
    case Plugin => "plugin"
    case Templates => "templates"
  }

  /** `update`: silent exactly when it is an automatic update. */
  function UpdateCall(mode: UpdateMode, auto: bool): Invocation {
    Invocation(["update", UpdateModeText(mode)], SpawnOptions(auto, None))
  }

  /** The id sits right after the project for `serve` and for watching
      builds and sourcemaps, and reads back as the id; a build or
      sourcemap that does not watch carries no id. */
  lemma IdFollowsProject(project: string, options: seq<string>, id: nat)
    ensures ServeCall(project, id, options).args[2] == NatToString(id)
    ensures Watching(options) ==> BuildCall(project, options, id).args[2] == NatToString(id)
    ensures Watching(options) ==> SourcemapCall(project, options, id).args[2] == NatToString(id)
    ensures !Watching(options) ==> BuildCall(project, options, id).args == ["build", project] + options
    ensures !Watching(options) ==> SourcemapCall(project, options, id).args == ["sourcemap", project] + options
    ensures ParseDigits(NatToString(id)) == id
    ensures ServeCall(project, id, options).args[3..] == options
  {
    ParseNatToString(id);
    assert (["serve", project, IntToString(id)] + options)[3..] == options;
  }

  /** `stop` passes every id, in order, and each reads back as its id. */
  lemma StopIdsReadBack(ids: seq<nat>)
    ensures |StopCall(ids).args| == |ids| + 1
    ensures forall i :: 0 <= i < |ids| ==>
      AllDigits(StopCall(ids).args[i + 1]) && ParseDigits(StopCall(ids).args[i + 1]) == ids[i]
  {
    forall i | 0 <= i < |ids|
      ensures AllDigits(StopCall(ids).args[i + 1]) && ParseDigits(StopCall(ids).args[i + 1]) == ids[i]
    {
      StopIdAt(ids, i);
    }
  }

  lemma StopIdAt(ids: seq<nat>, i: int)
    requires 0 <= i < |ids|
    ensures AllDigits(StopCall(ids).args[i + 1]) && ParseDigits(StopCall(ids).args[i + 1]) == ids[i]
  {
    assert StopCall(ids).args[i + 1] == NatToString(ids[i]);
    ParseNatToString(ids[i]);
  }

  /** Where each command puts what it is given: the template after
      `--template`, the mode name after `debug`, the code after `exec` with
      `--focus` only when asked, and for `studio` the place only when it is
      a non-empty string and `--check` last when asked. */
  lemma CommandArgs(project: string, template: string, options: seq<string>, mode: DebugMode,
                    code: string, focus: bool, check: bool, place: Option<string>)
    ensures InitCall(project, template, options).args[..4] == ["init", project, "--template", template]
    ensures InitCall(project, template, options).args[4..] == options
    ensures DebugCall(mode).args == ["debug", DebugModeText(mode)]
    ensures ExecCall(code, focus).args[..2] == ["exec", code]
    ensures |ExecCall(code, focus).args| == 3 <==> focus
    ensures focus ==> ExecCall(code, focus).args[2] == "--focus"
    ensures |StudioCall(check, place).args| == 1 + (if Truthy(place) then 1 else 0) + (if check then 1 else 0)
    ensures Truthy(place) ==> StudioCall(check, place).args[1] == place.value
    ensures check ==> StudioCall(check, place).args[|StudioCall(check, place).args| - 1] == "--check"
  {
    assert (["init", project, "--template", template] + options)[4..] == options;
  }

  /** The commands that do not prompt the user (`silent`), and the ones that
      do: every command but `init`, `plugin`, `build`, `sourcemap`, `serve`
      and a manual `update` hides its information lines. */
  lemma SilentCommands(ids: seq<int>, mode: DebugMode, code: string, focus: bool, check: bool,
                       place: Option<string>, pmode: PluginMode, umode: UpdateMode, auto: bool)
    ensures StopCall(ids).opts.silent && DebugCall(mode).opts.silent && ExecCall(code, focus).opts.silent
    ensures StudioCall(check, place).opts.silent
    ensures !PluginCall(pmode).opts.silent && UpdateCall(umode, auto).opts.silent == auto
  {
  }

  /** The class holding `lastId`, with the commands that draw an id. */
  class Cli {
    const ids: IdGenerator

    constructor()
      ensures fresh(ids) && ids.lastId == 0
    {
      ids := new IdGenerator();
    }

    /** `serve` always draws an id. */
    method Serve(now: int, project: string, options: seq<string>) returns (id: int, call: Invocation)
      modifies ids
      ensures id == NextId(old(ids.lastId), now) && ids.lastId == id
      ensures call == ServeCall(project, id, options)
    {
      id := ids.GenerateId(now);
      call := ServeCall(project, id, options);
    }

    /** `build` draws an id only when watching. */
    method Build(now: int, project: string, options: seq<string>) returns (id: Option<int>, call: Invocation)
      modifies ids
      ensures id.Some? <==> Watching(options)
      ensures id.Some? ==> id.value == NextId(old(ids.lastId), now) && ids.lastId == id.value
      ensures id.None? ==> ids.lastId == old(ids.lastId)
      ensures call == BuildCall(project, options, if id.Some? then id.value else 0)
    {
      if "--watch" in options {
        var n := ids.GenerateId(now);
        id := Some(n);
        call := BuildCall(project, options, n);
      } else {
        id := None;
        call := BuildCall(project, options, 0);
      }
    }

    /** `sourcemap` draws an id only when watching. */
    method Sourcemap(now: int, project: string, options: seq<string>) returns (id: Option<int>, call: Invocation)
      modifies ids
      ensures id.Some? <==> Watching(options)
      ensures id.Some? ==> id.value == NextId(old(ids.lastId), now) && ids.lastId == id.value
      ensures id.None? ==> ids.lastId == old(ids.lastId)
      ensures call == SourcemapCall(project, options, if id.Some? then id.value else 0)
    {
      if "--watch" in options {
        var n := ids.GenerateId(now);
        id := Some(n);
        call := SourcemapCall(project, options, n);
      } else {
        id := None;
        call := SourcemapCall(project, options, 0);
      }
    }
  }

  // ---- Results

  /** `error[0]` of a rejection pair, or an `Error`'s message. */
  function ThrownMessage(e: Thrown): string {
    match e
    case ErrorWith(m) => m
    case Rejection(m, _) => m
  }

  /** `String(error)` for what a command throws: an `Error` shows its
      message, a `[message, code]` pair shows both joined by a comma, with
      nothing after the comma for a `null` code. */
  function ThrownText(e: Thrown): string {
    match e
    case ErrorWith(m) => m
    case Rejection(m, code) => m + "," + (if code.None? then "" else IntToString(code.value))
  }

  const ServeFailurePrefix: string := "Failed to start serve process: "
  const UnparsableAddress: string := "Serve started, but could not parse address from output."

  /** `serve`'s result for id `id` from the runner's result: the captured
      address, or an `Error` prefixed with `Failed to start serve process: `
      for every failure. */
  function ServeResult(id: int, r: SpawnResult): (res: Outcome<(int, string)>)
    ensures r.Unsettled? <==> res.Unsettled?
    ensures !res.Cancelled?
    ensures res.Returned? ==> res.value.0 == id && r.Returned? && ServeAddress(r.value.0) == Some(res.value.1)
    ensures res.Threw? ==> res.error.ErrorWith? && StartsWith(res.error.message, ServeFailurePrefix)
    ensures r.Threw? ==> res == Threw(ErrorWith(ServeFailurePrefix + ThrownMessage(r.error)))
    ensures r.Returned? && ServeAddress(r.value.0).Some? ==> res == Returned((id, ServeAddress(r.value.0).value))
    ensures r.Returned? && ServeAddress(r.value.0).None? ==> res == Threw(ErrorWith(ServeFailurePrefix + UnparsableAddress))
  {
    match r
    case Unsettled => Unsettled
    case Returned((output, _)) =>
      (match ServeAddress(output)
       case Some(address) => Returned((id, address))
       case None => Threw(ErrorWith(ServeFailurePrefix + UnparsableAddress)))
    case Threw(e) => Threw(ErrorWith(ServeFailurePrefix + ThrownMessage(e)))
    case Cancelled => Threw(ErrorWith(ServeFailurePrefix + "undefined"))
  }

  /** A command that awaits the runner and then returns `value`: a
      rejection passes through unchanged. */
  function After<T>(r: SpawnResult, value: T): (res: Outcome<T>)
    ensures r.Returned? <==> res.Returned?
    ensures res.Returned? ==> res.value == value
    ensures r.Threw? ==> res == Threw(r.error)
    ensures r.Unsettled? ==> res.Unsettled?
  {
    match r
    case Returned(_) => Returned(value)
    case Threw(e) => Threw(e)
    case Cancelled => Cancelled
    case Unsettled => Unsettled
  }

  /** A serve address holds no whitespace, so it never contains the words
      `already in use`: the port-conflict branches of the serve flows are
      never taken. */
  lemma ServedAddressNeverReportsConflict(id: int, r: SpawnResult)
    requires ServeResult(id, r).Returned?
    ensures !Contains(ServeResult(id, r).value.1, "already in use")
  {
    var out := r.value.0;
    ServeAddressHasNoWhitespace(out);
    AbsentCharNotContained(ServeResult(id, r).value.1, "already in use", 7);
  }

  /** The readiness chunk settles a serve call with the trimmed line. */
  lemma ReadyChunkSettles(opts: SpawnOptions, host: string)
    requires opts.pattern == Some(ServingOn)
    requires |host| >= 1 && forall j :: 0 <= j < |host| ==> IsAddressChar(host[j])
    ensures var s1 := Step(opts, Initial, Data(Stdout, "Serving on: " + "http://" + host + "\n"));
      s1.resolved && s1.settledWith == "Serving on: " + "http://" + host
  {
    var line := "Serving on: " + "http://" + host;
    var chunk := "Serving on: " + "http://" + host + "\n";
    ServeAddressOfReadyLine(host, "\n");
    ReadyLineIsTrimmed(host);
    DataStepEffect(opts, Initial, Stdout, chunk);
  }

  lemma ReadyLineIsTrimmed(host: string)
    requires |host| >= 1 && forall j :: 0 <= j < |host| ==> IsAddressChar(host[j])
    ensures Trim("Serving on: " + "http://" + host + "\n") == "Serving on: " + "http://" + host
  {
    var line := "Serving on: " + "http://" + host;
    assert IsTrimmed(line);
    TrimOfPadded([], line, "\n");
    assert [] + line + "\n" == line + "\n";
  }

  /** A serve process that prints its readiness line and keeps running
      yields its id and the printed address. */
  lemma ServeReadiness(id: int, host: string)
    requires |host| >= 1 && forall j :: 0 <= j < |host| ==> IsAddressChar(host[j])
    ensures var call := ServeCall("default.project.json", id, []);
      var chunk := "Serving on: " + "http://" + host + "\n";
      ServeResult(id, SpawnOutcome(call.opts, Run(call.opts, Initial, [Data(Stdout, chunk)]), None))
        == Returned((id, "http://" + host))
  {
    var call := ServeCall("default.project.json", id, []);
    var line := "Serving on: " + "http://" + host;
    var chunk := "Serving on: " + "http://" + host + "\n";
    ReadyChunkSettles(call.opts, host);
    ServeAddressOfReadyLine(host, []);
    assert line + [] == line;
    RunOfOne(call.opts, Initial, Data(Stdout, chunk));
  }

  /** A stderr chunk without a pattern is collected and settles nothing. */
  lemma StderrChunkCollected(opts: SpawnOptions, chunk: string)
    requires opts.pattern.None?
    ensures var s1 := Step(opts, Initial, Data(Stderr, chunk));
      s1.stderrOutput == chunk && !s1.resolved
  {
    DataStepEffect(opts, Initial, Stderr, chunk);
  }

  lemma RunOfTwo(opts: SpawnOptions, s: RunState, e1: Event, e2: Event)
    ensures Run(opts, s, [e1, e2]) == Step(opts, Step(opts, s, e1), e2)
  {
    var s1 := Step(opts, s, e1);
    assert [e1, e2][1..] == [e2];
    assert Run(opts, s, [e1, e2]) == Run(opts, s1, [e2]);
    RunOfOne(opts, s1, e2);
  }

  lemma RunOfOne(opts: SpawnOptions, s: RunState, e: Event)
    ensures Run(opts, s, [e]) == Step(opts, s, e)
  {
    assert [e][1..] == [];
    assert Run(opts, s, [e]) == Run(opts, Step(opts, s, e), []);
  }

  /** A build that fails with exit code 1 after printing an error to stderr
      rejects with the trimmed stderr text and the exit code. */
  lemma BuildFailure(text: string)
    requires IsTrimmed(text) && text != ""
    ensures var call := BuildCall("default.project.json", [], 0);
      var events := [Data(Stderr, text + "\n"), Close(Some(1), None)];
      After(SpawnOutcome(call.opts, Run(call.opts, Initial, events), Some(1)), ())
        == Threw(Rejection(text, Some(1)))
  {
    var opts := SpawnOptions(false, None);
    assert BuildCall("default.project.json", [], 0).opts == opts;
    var chunk := text + "\n";
    StderrChunkCollected(opts, chunk);
    RunOfTwo(opts, Initial, Data(Stderr, chunk), Close(Some(1), None));
    FailureAfterStderr(opts, Step(opts, Initial, Data(Stderr, chunk)), text);
  }

  lemma FailureAfterStderr(opts: SpawnOptions, s1: RunState, text: string)
    requires IsTrimmed(text) && text != ""
    requires !s1.resolved && s1.stderrOutput == text + "\n"
    ensures SpawnOutcome(opts, Step(opts, s1, Close(Some(1), None)), Some(1)) == Threw(Rejection(text, Some(1)))
  {
    var s2 := Step(opts, s1, Close(Some(1), None));
    assert s2 == CloseStep(s1, Some(1), None);
    FailureWithStderr(opts, s2, text);
  }

  /** A settled state with stderr text and exit code 1 rejects with that
      text, trimmed, and the code. */
  lemma FailureWithStderr(opts: SpawnOptions, s: RunState, text: string)
    requires IsTrimmed(text) && text != ""
    requires s.resolved && s.stderrOutput == text + "\n"
    ensures SpawnOutcome(opts, s, Some(1)) == Threw(Rejection(text, Some(1)))
  {
    assert Trim(text + "\n") == text by {
      TrimOfPadded([], text, "\n");
      assert [] + text + "\n" == text + "\n";
    }
    var r := SpawnOutcome(opts, s, Some(1));
    assert r.Threw?;
  }
}
