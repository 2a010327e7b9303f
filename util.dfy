/** Workspace helpers (`src/util.ts`): the project and place file filters,
    the fallbacks of `getProjectName` and `getProjectAddress`, and the
    clean-up of the CLI's version text. The file system, `path` and
    `JSON.parse` are inputs: a directory entry carries whether it is a file
    and what parsing its contents gives. */
module Util {
  import opened Wrappers
  import opened Strings

  /** What `JSON.parse` of a project file gives, as far as the helpers read
      it: nothing when the file cannot be read or parsed, otherwise its
      `name`, its `tree` (present or not, with its `$className`) and its
      address fields. */
  datatype ProjectJson =
    | Unparsable
    | Json(name: Option<string>, tree: Option<Option<string>>,
           host: Option<string>, serveAddress: Option<string>,
           port: Option<string>, servePort: Option<string>)

  /** A directory entry: its name, whether it is a regular file, and its
      parsed contents when it is a project file. */
  datatype Entry = Entry(name: string, isFile: bool, json: ProjectJson)

  const ProjectSuffix: string := ".project.json"

  predicate IsProjectEntry(e: Entry) {
    EndsWith(e.name, ProjectSuffix) && e.isFile
  }

  /** `tree["$className"] === "DataModel"` for a parsed file with a tree;
      an unparsable file or one without a tree is not a place. */
  predicate IsPlaceProject(e: Entry) {
    e.json.Json? && e.json.tree.Some? && e.json.tree.value == Some("DataModel")
  }

  function Names(es: seq<Entry>): (names: seq<string>)
    ensures |names| == |es|
    ensures forall i :: 0 <= i < |es| ==> names[i] == es[i].name
  {
    seq(|es|, i requires 0 <= i < |es| => es[i].name)
  }

  /** The entries satisfying the filter of `findProjects`, in listing order. */
  function ProjectEntries(es: seq<Entry>, placesOnly: bool): seq<Entry> {
    if es == [] then []
    else
      var e := es[|es| - 1];
      ProjectEntries(es[..|es| - 1], placesOnly)
      + (if IsProjectEntry(e) && (!placesOnly || IsPlaceProject(e)) then [e] else [])
  }

  /** `findProjects(placesOnly)` in workspace `dir`: an error with no
      workspace, otherwise the names of the project files. */
  function FindProjects(dir: Option<string>, es: seq<Entry>, placesOnly: bool): Outcome<seq<string>> {
    if dir.None? then Threw(ErrorWith("Cannot find projects without a workspace folder open!"))
    else Returned(Names(ProjectEntries(es, placesOnly)))
  }

  /** `findProjects` keeps exactly the project files (and, with
      `placesOnly`, exactly those whose tree is a DataModel), in order. */
  lemma {:induction false} ProjectEntriesExactly(es: seq<Entry>, placesOnly: bool)
    ensures forall e :: e in ProjectEntries(es, placesOnly) <==>
      e in es && IsProjectEntry(e) && (!placesOnly || IsPlaceProject(e))
    ensures |ProjectEntries(es, placesOnly)| <= |es|
    decreases |es|
  {
    if es != [] {
      var init := es[..|es| - 1];
      ProjectEntriesExactly(init, placesOnly);
      assert forall x :: x in es <==> x in init || x == es[|es| - 1];
    }
  }

  /** Filtering by place is filtering the project list further. */
  lemma {:induction false} PlacesAreProjects(es: seq<Entry>)
    ensures forall e :: e in ProjectEntries(es, true) ==> e in ProjectEntries(es, false)
    ensures |ProjectEntries(es, true)| <= |ProjectEntries(es, false)|
    decreases |es|
  {
    if es != [] {
      PlacesAreProjects(es[..|es| - 1]);
    }
  }

  predicate IsPlaceEntry(e: Entry) {
    (EndsWith(e.name, ".rbxl") || EndsWith(e.name, ".rbxlx")) && e.isFile
  }

  function PlaceEntries(es: seq<Entry>): seq<Entry> {
    if es == [] then []
    else
      var e := es[|es| - 1];
      PlaceEntries(es[..|es| - 1]) + (if IsPlaceEntry(e) then [e] else [])
  }

  /** `findPlaces()`: an error with no workspace, otherwise the names of
      the `.rbxl` and `.rbxlx` files. */
  function FindPlaces(dir: Option<string>, es: seq<Entry>): Outcome<seq<string>> {
    if dir.None? then Threw(ErrorWith("Cannot find places without a workspace folder open!"))
    else Returned(Names(PlaceEntries(es)))
  }

  lemma {:induction false} PlaceEntriesExactly(es: seq<Entry>)
    ensures forall e :: e in PlaceEntries(es) <==> e in es && IsPlaceEntry(e)
    decreases |es|
  {
    if es != [] {
      var init := es[..|es| - 1];
      PlaceEntriesExactly(init);
      assert forall x :: x in es <==> x in init || x == es[|es| - 1];
    }
  }

  /** A project path as the helpers open it: an absolute path as given, a
      relative one joined to the workspace folder, and an error when there
      is none. */
  function ResolveProject(project: string, isAbsolute: bool, dir: Option<string>): (r: Outcome<string>)
    ensures isAbsolute ==> r == Returned(project)
    ensures !isAbsolute && dir.None? ==> r.Threw?
    ensures !isAbsolute && dir.Some? ==> r.Returned? && EndsWith(r.value, "/" + project) && StartsWith(r.value, dir.value)
  {
    if isAbsolute then Returned(project)
    else if dir.None? then Threw(ErrorWith("Cannot get project name without a workspace folder open!"))
    else
      var path := dir.value + "/" + project;
      assert path[|path| - |"/" + project|..] == "/" + project;
      assert path[..|dir.value|] == dir.value;
      Returned(path)
  }

  /** The last component of a `/`-separated path. */
  function LastComponent(path: string): (r: string)
    ensures '/' !in r
    ensures EndsWith(path, r)
  {
    var parts := Split(path, '/');
    var r := parts[|parts| - 1];
    assert EndsWith(path, r) by {
      JoinEndsWithLast(parts, '/');
    }
    r
  }

  lemma {:induction false} JoinEndsWithLast(parts: seq<string>, c: char)
    requires |parts| >= 1
    ensures EndsWith(Join(parts, c), parts[|parts| - 1])
    decreases |parts|
  {
    if |parts| > 1 {
      JoinEndsWithLast(parts[1..], c);
      var rest := Join(parts[1..], c);
      var last := parts[|parts| - 1];
      assert parts[1..][|parts| - 2] == last;
      assert (parts[0] + [c] + rest)[|parts[0] + [c] + rest| - |last|..] == rest[|rest| - |last|..];
    }
  }

  /** `path.basename(path, ".project.json")`: the last component, with the
      suffix removed when it ends with it and is more than the suffix. */
  function ProjectBaseName(path: string): (r: string)
    ensures EndsWith(LastComponent(path), ProjectSuffix) && LastComponent(path) != ProjectSuffix ==>
      r + ProjectSuffix == LastComponent(path)
    ensures !EndsWith(LastComponent(path), ProjectSuffix) || LastComponent(path) == ProjectSuffix ==>
      r == LastComponent(path)
  {
    var base := LastComponent(path);
    if EndsWith(base, ProjectSuffix) && base != ProjectSuffix then
      var r := base[..|base| - |ProjectSuffix|];
      assert r + ProjectSuffix == base;
      r
    else base
  }

  /** `getProjectName(project)` given what reading the project file gives:
      the file's `name` (which may be absent), or the base name when the
      file cannot be read or parsed. */
  function ProjectName(path: string, json: ProjectJson): (name: Option<string>)
    ensures json.Json? ==> name == json.name
    ensures json.Unparsable? ==> name == Some(ProjectBaseName(path))
  {
    match json
    case Unparsable => Some(ProjectBaseName(path))
    case Json(n, _, _, _, _, _) => n
  }

  /** A project name as a session stores it: a missing name is kept as
      `undefined`, which is how the status tooltip prints it. */
  function NameText(name: Option<string>): string {
    if name.Some? then name.value else "undefined"
  }

  /** JavaScript's `a || b` on optional strings. */
  function Either(a: Option<string>, b: Option<string>): (r: Option<string>)
    ensures Truthy(a) ==> r == a
    ensures !Truthy(a) ==> r == b
  {
    if Truthy(a) then a else b
  }

  /** An address as the menus carry it: an optional host and port. */
  datatype Address = Address(host: Option<string>, port: Option<string>)

  /** `getProjectAddress(project)`: `host || serveAddress` and
      `port || servePort` from the file, or an empty address when it cannot
      be read or parsed. */
  function ProjectAddress(json: ProjectJson): (a: Address)
    ensures json.Unparsable? ==> a == Address(None, None)
    ensures json.Json? ==> a.host == Either(json.host, json.serveAddress)
    ensures json.Json? ==> a.port == Either(json.port, json.servePort)
  {
    match json
    case Unparsable => Address(None, None)
    case Json(_, _, host, serveAddress, port, servePort) =>
      Address(Either(host, serveAddress), Either(port, servePort))
  }

  /** A project's own `host` wins over its `serveAddress`, which is used
      only when `host` is missing or empty. */
  lemma ProjectAddressFallback(json: ProjectJson)
    requires json.Json?
    ensures Truthy(json.host) ==> ProjectAddress(json).host == json.host
    ensures !Truthy(json.host) ==> ProjectAddress(json).host == json.serveAddress
    ensures Truthy(json.port) ==> ProjectAddress(json).port == json.port
    ensures !Truthy(json.port) ==> ProjectAddress(json).port == json.servePort
  {
  }

  /** `getVersion()` from the output of `argon --version` (nothing when the
      call fails): the first `argon-rbx ` removed and the rest trimmed. */
  function Version(output: Option<string>): (v: Option<string>)
    ensures output.None? <==> v.None?
    ensures v.Some? ==> IsTrimmed(v.value)
  {
    match output
    case None => None
    case Some(text) => Some(Trim(ReplaceFirst(text, "argon-rbx ", "")))
  }

  /** The version line `argon-rbx 2.0.0\n` reads as `2.0.0`. */
  lemma VersionOfBanner(version: string, padding: string)
    requires IsTrimmed(version) && AllWhitespace(padding)
    ensures Version(Some("argon-rbx " + version + padding)) == Some(version)
  {
    var text := "argon-rbx " + version + padding;
    assert OccursAt(text, "argon-rbx ", 0);
    assert IndexOf(text, "argon-rbx ") == Some(0);
    assert text[|"argon-rbx "|..] == version + padding;
    assert ReplaceFirst(text, "argon-rbx ", "") == "" + version + padding;
    TrimOfPadded("", version, padding);
  }
}
