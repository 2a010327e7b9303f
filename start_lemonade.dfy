/** The one-click start (`src/menu/startLemonade.ts`): the check that the
    workspace has the standard `src` layout, the optional initialisation,
    and the serve call on the configured address with its port-conflict
    fallback. The workspace folder, the file system, the dialogs, the
    configuration and the runner's results are inputs. */
module StartLemonade {
  import opened Wrappers
  import opened Strings
  import opened Numbers
  import opened Argon
  import opened Process

  /** The folders a standard project keeps under `src`. */
  const RequiredSrcDirs: seq<string> := [
    "ReplicatedFirst",
    "ReplicatedStorage",
    "ServerScriptService",
    "ServerStorage",
    "StarterGui",
    "StarterPack",
    "StarterPlayer",
    "Workspace"
  ]

  /** An entry of a directory listing (`readdirSync` with file types). */
  datatype DirEntry = DirEntry(name: string, isDirectory: bool)

  /** What the flow can see of the workspace at one moment: whether `src`
      exists, what listing it gives (a throw when it cannot be read), and
      whether `default.project.json` exists. */
  datatype Folder = Folder(srcExists: bool, srcListing: Outcome<seq<DirEntry>>, projectExists: bool)

  /** The names of the directory entries, in listing order. */
  function DirNames(entries: seq<DirEntry>): (names: seq<string>)
    ensures |names| <= |entries|
  {
    if entries == [] then []
    else
      var e := entries[|entries| - 1];
      DirNames(entries[..|entries| - 1]) + (if e.isDirectory then [e.name] else [])
  }

  /** A name is listed exactly when a directory of that name is an entry;
      a plain file of that name does not count. */
  lemma {:induction false} DirNamesExactly(entries: seq<DirEntry>)
    ensures forall n :: n in DirNames(entries) <==> DirEntry(n, true) in entries
    decreases |entries|
  {
    if entries != [] {
      var init := entries[..|entries| - 1];
      DirNamesExactly(init);
      assert forall x :: x in entries <==> x in init || x == entries[|entries| - 1];
    }
  }

  /** `checkSrcStructure(root)` with the list of required folders: true
      exactly when `src` exists, can be read, and holds every required
      name as a directory; a read error gives false. */
  function CheckSrcStructure(required: seq<string>, folder: Folder): (ok: bool)
    ensures ok <==> (folder.srcExists && folder.srcListing.Returned? &&
      forall d :: d in required ==> DirEntry(d, true) in folder.srcListing.value)
    ensures !folder.srcExists || !folder.srcListing.Returned? ==> !ok
  {
    if !folder.srcExists then false
    else if !folder.srcListing.Returned? then false
    else
      var names := DirNames(folder.srcListing.value);
      DirNamesExactly(folder.srcListing.value);
      forall d :: d in required ==> d in names
  }

  predicate HasStructure(folder: Folder) {
    CheckSrcStructure(RequiredSrcDirs, folder)
  }

  /** A missing required folder, or one present only as a file, fails the
      check whatever else is listed. */
  lemma MissingFolderFails(folder: Folder, d: string)
    requires d in RequiredSrcDirs
    requires folder.srcListing.Returned? ==> DirEntry(d, true) !in folder.srcListing.value
    ensures !HasStructure(folder)
  {
  }

  /** A listing that holds the eight folders passes, whatever it holds
      besides them and in whatever order. */
  lemma StandardLayoutPasses(entries: seq<DirEntry>, projectExists: bool)
    requires forall d :: d in RequiredSrcDirs ==> DirEntry(d, true) in entries
    ensures HasStructure(Folder(true, Returned(entries), projectExists))
  {
  }

  // ---- The flow (`run`)

  const ProjectFile: string := "default.project.json"
  const InitFailurePrefix: string := "Project initialization failed: "
  const StartFailurePrefix: string := "Failed to start Lemonade: "

  /** `path.join(root, "default.project.json")`. */
  function ProjectPath(root: string): (path: string)
    ensures StartsWith(path, root) && EndsWith(path, "/" + ProjectFile)
  {
    var path := root + "/" + ProjectFile;
    assert path[..|root|] == root;
    assert path[|path| - |"/" + ProjectFile|..] == "/" + ProjectFile;
    path
  }

  /** The serve options: the configured host and port, nothing else. */
  function ServeOptions(host: string, port: string): (options: seq<string>)
    ensures |options| == 4
    ensures options[0] == "--host" && options[1] == host
    ensures options[2] == "--port" && options[3] == port
  {
    ["--host", host, "--port", port]
  }

  /** The options never ask to watch, whatever the configuration holds. */
  lemma ServeOptionsNeverWatch(host: string, port: string)
    requires host != "--watch" && port != "--watch"
    ensures !Watching(ServeOptions(host, port))
  {
  }

  /** `message && message.includes("already in use")`. */
  predicate Conflicted(message: string) {
    message != "" && Contains(message, "already in use")
  }

  /** The port reported as running: the second number of a conflict
      message, or the configured port when there is no conflict or no
      second number. */
  function LemonadePort(message: string, port: string): (p: string)
    ensures !Conflicted(message) ==> p == port
    ensures p == port || (Conflicted(message) && SecondDigitRun(message) == Some(p))
  {
    if !Conflicted(message) then port
    else
      match SecondDigitRun(message)
      case Some(second) => OrElse(second, port)
      case None => port
  }

  /** In a conflict message of the form `... 8000 ... 8001 ...` the port
      taken is the second number. */
  lemma ConflictTakesSecondNumber(pre: string, first: string, mid: string, second: string, post: string, port: string)
    requires forall i :: 0 <= i < |pre| ==> !IsDigit(pre[i])
    requires forall i :: 0 <= i < |mid| ==> !IsDigit(mid[i])
    requires IsDigits(first) && IsDigits(second) && mid != []
    requires post == [] || !IsDigit(post[0])
    requires Contains(pre + first + mid + second + post, "already in use")
    ensures LemonadePort(pre + first + mid + second + post, port) == second
  {
    SecondDigitRunOf(pre, first, mid, second, post);
  }

  /** A conflict message with a single number keeps the configured port. */
  lemma ConflictWithOneNumberKeepsPort(pre: string, first: string, post: string, port: string)
    requires forall i :: 0 <= i < |pre| ==> !IsDigit(pre[i])
    requires forall i :: 0 <= i < |post| ==> !IsDigit(post[i])
    requires IsDigits(first)
    requires Contains(pre + first + post, "already in use")
    ensures LemonadePort(pre + first + post, port) == port
  {
    NoSecondDigitRun(pre, first, post);
  }

  /** A serve call that returns an address never reports a conflict, so
      the server is announced on the configured port. */
  lemma ServedOnConfiguredPort(id: int, served: SpawnResult, port: string)
    requires ServeResult(id, served).Returned?
    ensures !Conflicted(ServeResult(id, served).value.1)
    ensures LemonadePort(ServeResult(id, served).value.1, port) == port
  {
    ServedAddressNeverReportsConflict(id, served);
  }

  /** How the flow ends: the early returns with what they show, or the
      server running on `host:port`, with the configured port kept as
      `originalPort` after a conflict and whether Studio was opened. */
  datatype Ending =
    | NoWorkspace
    | Declined
    | InitFailed(message: string)
    | NotInitialised
    | NoProjectFile(root: string)
    | StartFailed(message: string)
    | Running(host: string, port: string, originalPort: Option<int>, studioOpened: bool)

  /** `String(error)` for what `init` rejects with; `undefined` for a
      rejection without a reason. */
  function InitErrorText(inited: SpawnResult): string {
    if inited.Threw? then ThrownText(inited.error) else "undefined"
  }

  /** Whether the flow reaches the serve step, and the folder as it then
      is: the one checked at the start, or the one after initialising. */
  predicate ReachesServe(workspace: Option<string>, before: Folder, confirm: bool, inited: SpawnResult, after: Folder) {
    Truthy(workspace) &&
    (HasStructure(before) || (confirm && inited.Returned? && after.srcExists && after.projectExists))
  }

  function FolderAtServe(before: Folder, after: Folder): Folder {
    if HasStructure(before) then before else after
  }

  function InitCalls(before: Folder): (calls: seq<Invocation>)
    ensures |calls| <= 1
  {
    if HasStructure(before) then [] else [InitCall(ProjectFile, "place", [])]
  }

  /** `run(state)` with the workspace folder `workspace`, the folder as
      checked (`before`) and after initialising (`after`), the answer to
      the initialisation dialog, the configured address, what the runner
      gives for the `init` and `serve` calls, and whether the user clicks
      "Open Roblox Studio". `calls` are the CLI calls made, in order. The
      flow never rejects: every error ends in a message. */
  method Run(cli: Cli, workspace: Option<string>, before: Folder, confirm: bool, inited: SpawnResult,
             after: Folder, host: string, port: int, now: int, served: SpawnResult, openStudio: bool)
    returns (calls: seq<Invocation>, r: Outcome<Ending>)
    modifies cli.ids
    ensures r.Returned? || r.Unsettled?
    ensures !Truthy(workspace) ==> r == Returned(NoWorkspace) && calls == []
    ensures Truthy(workspace) && !HasStructure(before) && !confirm ==> r == Returned(Declined) && calls == []
    ensures Truthy(workspace) && !HasStructure(before) && confirm ==>
      |calls| >= 1 && calls[0] == InitCall(ProjectFile, "place", []) &&
      (inited.Unsettled? ==> r.Unsettled? && |calls| == 1) &&
      (inited.Threw? || inited.Cancelled? ==>
        r == Returned(InitFailed(InitFailurePrefix + InitErrorText(inited))) && |calls| == 1) &&
      (inited.Returned? && !(after.srcExists && after.projectExists) ==> r == Returned(NotInitialised) && |calls| == 1)
    ensures !ReachesServe(workspace, before, confirm, inited, after) ==> cli.ids.lastId == old(cli.ids.lastId)
    ensures ReachesServe(workspace, before, confirm, inited, after) && !FolderAtServe(before, after).projectExists ==>
      r == Returned(NoProjectFile(workspace.value)) && calls == InitCalls(before) && cli.ids.lastId == old(cli.ids.lastId)
    ensures ReachesServe(workspace, before, confirm, inited, after) && FolderAtServe(before, after).projectExists ==>
      var id := NextId(old(cli.ids.lastId), now);
      var res := ServeResult(id, served);
      cli.ids.lastId == id &&
      calls == InitCalls(before) + [ServeCall(ProjectPath(workspace.value), id, ServeOptions(host, IntToString(port)))] &&
      (res.Unsettled? ==> r.Unsettled?) &&
      (res.Threw? ==> r == Returned(StartFailed(StartFailurePrefix + ThrownText(res.error)))) &&
      (res.Returned? ==> r == Returned(Running(host, LemonadePort(res.value.1, IntToString(port)),
        if Conflicted(res.value.1) then Some(port) else None, openStudio)))
  {
    calls := [];
    if !Truthy(workspace) {
      return calls, Returned(NoWorkspace);
    }
    var root := workspace.value;
    var folder := before;
    var hasStructure := CheckSrcStructure(RequiredSrcDirs, before);
    if !hasStructure {
      if !confirm {
        return calls, Returned(Declined);
      }
      calls := calls + [InitCall(ProjectFile, "place", [])];
      var initResult := After(inited, ());
      if initResult.Unsettled? {
        return calls, Unsettled;
      }
      if !initResult.Returned? {
        return calls, Returned(InitFailed(InitFailurePrefix + InitErrorText(inited)));
      }
      folder := after;
      if !(folder.srcExists && folder.projectExists) {
        return calls, Returned(NotInitialised);
      }
    }
    var projectPath := ProjectPath(root);
    if !folder.projectExists {
      return calls, Returned(NoProjectFile(root));
    }
    var portText := IntToString(port);
    var options := ServeOptions(host, portText);
    var id, call := cli.Serve(now, projectPath, options);
    calls := calls + [call];
    var res := ServeResult(id, served);
    if res.Unsettled? {
      return calls, Unsettled;
    }
    if !res.Returned? {
      return calls, Returned(StartFailed(StartFailurePrefix + ThrownText(res.error)));
    }
    var message := res.value.1;
    var actualPort := portText;
    var originalPort: Option<int> := None;
    if message != "" && Contains(message, "already in use") {
      originalPort := Some(port);
      var second := SecondDigitRun(message);
      actualPort := if second.Some? then OrElse(second.value, portText) else portText;
    }
    r := Returned(Running(host, actualPort, originalPort, openStudio));
  }

  /** Whenever the server starts, it is announced on the configured port
      and no original port is kept: the conflict branch is never taken. */
  lemma StartedOnConfiguredPort(id: int, served: SpawnResult, host: string, port: int, openStudio: bool)
    requires ServeResult(id, served).Returned?
    ensures var message := ServeResult(id, served).value.1;
      Running(host, LemonadePort(message, IntToString(port)), if Conflicted(message) then Some(port) else None, openStudio)
      == Running(host, IntToString(port), None, openStudio)
  {
    ServedOnConfiguredPort(id, served, IntToString(port));
  }
}
