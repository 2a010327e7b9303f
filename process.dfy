/** The process runner of `src/argon.ts`: how CLI output is classified and
    logged (`log`), and the settle-once handling of one spawned process
    (`spawn`): its data, close and error handlers and how the settled value
    and the exit code become success or failure.

    The child process is not modelled: what it does reaches the model as a
    sequence of events, and its exit code at the time the call resumes is a
    parameter. */
module Process {
  import opened Wrappers
  import opened Strings
  import opened Numbers

  // ---- Line classification (`log`)

  datatype Level = Error | Warn | Info

  /** One message handed to the logging sink: its severity, its text, and
      whether it is kept out of user notifications (`true` = only logged). */
  datatype LogEntry = LogEntry(level: Level, text: string, hidden: bool)

  /** The characters that `.` in a JavaScript regular expression does not match. */
  predicate IsRegexLineTerminator(c: char) {
    c == '\n' || c == '\r' || c == '\U{2028}' || c == '\U{2029}'
  }

  predicate NoTerminatorBefore(line: string, i: int)
    requires 0 <= i <= |line|
  {
    forall j :: 0 <= j < i ==> !IsRegexLineTerminator(line[j])
  }

  /** `/^.{0,5}:/.test(line)`: a colon at index 0 to 5 with no line
      terminator before it. */
  predicate HasLevelTag(line: string) {
    exists i :: 0 <= i <= 5 && i < |line| && line[i] == ':' && NoTerminatorBefore(line, i)
  }

  /** Index of the first colon or line terminator, the point where the
      regular expression's `.` run must stop. */
  function FirstStop(line: string): (r: Option<nat>)
    ensures r.Some? ==> r.value < |line| && (line[r.value] == ':' || IsRegexLineTerminator(line[r.value]))
    ensures r.Some? ==> forall j :: 0 <= j < r.value ==> line[j] != ':' && !IsRegexLineTerminator(line[j])
    ensures r.None? ==> forall j :: 0 <= j < |line| ==> line[j] != ':' && !IsRegexLineTerminator(line[j])
  {
    if line == [] then None
    else if line[0] == ':' || IsRegexLineTerminator(line[0]) then Some(0)
    else match FirstStop(line[1..])
      case None => None
      case Some(k) => Some(k + 1)
  }

  /** The level tag can be decided by scanning to the first stop character. */
  lemma LevelTagByFirstStop(line: string)
    ensures HasLevelTag(line) <==>
      (FirstStop(line).Some? && FirstStop(line).value <= 5 && line[FirstStop(line).value] == ':')
  {
    var r := FirstStop(line);
    if r.Some? && r.value <= 5 && line[r.value] == ':' {
      assert NoTerminatorBefore(line, r.value);
    }
    if HasLevelTag(line) {
      var i :| 0 <= i <= 5 && i < |line| && line[i] == ':' && NoTerminatorBefore(line, i);
      assert r.Some? && r.value <= i;
    }
  }

  /** A line is verbose (only logged, never notified) when it ends with `]`
      or has no short level tag. */
  predicate IsVerbose(line: string) {
    EndsWith(line, "]") || !HasLevelTag(line)
  }

  /** A line that is not verbose holds a colon, so it is never empty; this is
      why `!output` in `log` only ever tests "nothing chosen yet". */
  lemma NonVerboseIsNonEmpty(line: string)
    requires !IsVerbose(line)
    ensures line != ""
  {
    var i :| 0 <= i <= 5 && i < |line| && line[i] == ':' && NoTerminatorBefore(line, i);
  }

  /** The sink a line goes to: `ERROR` prefix to the error sink, else `WARN`
      prefix to the warning sink, else the information sink, where it is
      also hidden when the call is silent. */
  function Classify(line: string, silent: bool): LogEntry {
    var verbose := IsVerbose(line);
    if StartsWith(line, "ERROR") then LogEntry(Error, line, verbose)
    else if StartsWith(line, "WARN") then LogEntry(Warn, line, verbose)
    else LogEntry(Info, line, verbose || silent)
  }

  /** Every line goes to exactly one sink, by its prefix, with its text
      unchanged; it is hidden exactly when verbose, or, on the information
      sink, also when the call is silent. */
  lemma ClassifyRoutes(line: string, silent: bool)
    ensures Classify(line, silent).text == line
    ensures Classify(line, silent).level == Error <==> StartsWith(line, "ERROR")
    ensures Classify(line, silent).level == Warn <==> !StartsWith(line, "ERROR") && StartsWith(line, "WARN")
    ensures Classify(line, silent).level == Info <==> !StartsWith(line, "ERROR") && !StartsWith(line, "WARN")
    ensures Classify(line, silent).level != Info ==> (Classify(line, silent).hidden <==> IsVerbose(line))
    ensures Classify(line, silent).level == Info ==> (Classify(line, silent).hidden <==> IsVerbose(line) || silent)
  {
  }

  /** The lines `log` walks: the trimmed chunk split at `\n`. */
  function LogLines(data: string): seq<string> {
    Split(Trim(data), '\n')
  }

  /** The first line that is not verbose. */
  function FirstNonVerbose(lines: seq<string>): Option<string> {
    if lines == [] then None
    else if !IsVerbose(lines[0]) then Some(lines[0])
    else FirstNonVerbose(lines[1..])
  }

  /** `FirstNonVerbose` finds the earliest line that is not verbose, and
      finds nothing exactly when every line is verbose. */
  lemma {:induction false} FirstNonVerboseIsFirst(lines: seq<string>)
    ensures FirstNonVerbose(lines).Some? ==> exists i :: (0 <= i < |lines| && lines[i] == FirstNonVerbose(lines).value
      && !IsVerbose(lines[i]) && forall j :: 0 <= j < i ==> IsVerbose(lines[j]))
    ensures FirstNonVerbose(lines).None? <==> forall j :: 0 <= j < |lines| ==> IsVerbose(lines[j])
  {
    if lines != [] && IsVerbose(lines[0]) {
      var rest := lines[1..];
      FirstNonVerboseIsFirst(rest);
      assert forall j :: 1 <= j < |lines| ==> lines[j] == rest[j - 1];
      if FirstNonVerbose(rest).Some? {
        var i :| 0 <= i < |rest| && rest[i] == FirstNonVerbose(rest).value && !IsVerbose(rest[i])
          && forall j :: 0 <= j < i ==> IsVerbose(rest[j]);
        assert lines[i + 1] == rest[i];
      }
    } else if lines != [] {
      assert lines[0] == FirstNonVerbose(lines).value;
    }
  }

  lemma {:induction false} FirstNonVerboseSnoc(lines: seq<string>, line: string)
    ensures FirstNonVerbose(lines + [line]) ==
      if FirstNonVerbose(lines).Some? then FirstNonVerbose(lines)
      else if !IsVerbose(line) then Some(line) else None
  {
    if lines != [] {
      assert (lines + [line])[1..] == lines[1..] + [line];
      FirstNonVerboseSnoc(lines[1..], line);
    }
  }

  /** The sink entries of a list of lines, one per line and in order. */
  function Classified(lines: seq<string>, silent: bool): (es: seq<LogEntry>)
    ensures |es| == |lines|
    ensures forall i :: 0 <= i < |lines| ==> es[i] == Classify(lines[i], silent)
  {
    seq(|lines|, i requires 0 <= i < |lines| => Classify(lines[i], silent))
  }

  /** `log(data, silent)`: sends every line of the trimmed chunk to exactly
      one sink and returns the first line that is not verbose. */
  method Log(data: string, silent: bool) returns (output: Option<string>, entries: seq<LogEntry>)
    ensures output == FirstNonVerbose(LogLines(data))
    ensures entries == Classified(LogLines(data), silent)
  {
    var lines := Split(Trim(data), '\n');
    output := None;
    entries := [];
    var i := 0;
    while i < |lines|
      invariant 0 <= i <= |lines|
      invariant output == FirstNonVerbose(lines[..i])
      invariant entries == Classified(lines[..i], silent)
    {
      var line := lines[i];
      var isVerbose := IsVerbose(line);
      ClassifiedSnoc(lines, i, silent);
      entries := entries + [Classify(line, silent)];
      LogStep(lines, i, output);
      if !isVerbose && (output.None? || output.value == "") {
        output := Some(line);
      }
      i := i + 1;
    }
    assert lines[..i] == lines;
  }

  lemma ClassifiedSnoc(lines: seq<string>, i: int, silent: bool)
    requires 0 <= i < |lines|
    ensures Classified(lines[..i + 1], silent) == Classified(lines[..i], silent) + [Classify(lines[i], silent)]
  {
    var a := Classified(lines[..i + 1], silent);
    var b := Classified(lines[..i], silent) + [Classify(lines[i], silent)];
    assert |a| == |b|;
    forall k | 0 <= k < |a|
      ensures a[k] == b[k]
    {
      assert lines[..i + 1][k] == lines[k];
      if k < i {
        assert lines[..i][k] == lines[k];
      }
    }
  }

  /** One step of `log`'s loop: a line replaces the kept output only when
      none was kept and the line is not verbose. */
  lemma LogStep(lines: seq<string>, i: int, output: Option<string>)
    requires 0 <= i < |lines| && output == FirstNonVerbose(lines[..i])
    ensures FirstNonVerbose(lines[..i + 1]) ==
      if !IsVerbose(lines[i]) && (output.None? || output.value == "") then Some(lines[i]) else output
  {
    FirstNonVerboseSnoc(lines[..i], lines[i]);
    assert lines[..i + 1] == lines[..i] + [lines[i]];
    if output.Some? {
      NonEmptyFirst(lines[..i]);
    }
  }

  lemma NonEmptyFirst(lines: seq<string>)
    requires FirstNonVerbose(lines).Some?
    ensures FirstNonVerbose(lines).value != ""
  {
    FirstNonVerboseIsFirst(lines);
    var i :| 0 <= i < |lines| && lines[i] == FirstNonVerbose(lines).value && !IsVerbose(lines[i]);
    NonVerboseIsNonEmpty(lines[i]);
  }

  // ---- Early-resolution patterns

  /** The `resolveOnOutputPattern`s used by the command wrappers. */
  datatype Pattern =
    | ServingOn        // /Serving on: (http:\/\/[^\s,]+)/
    | BuildSuccessful  // /Build successful/

  const ServePrefix: string := "Serving on: http://"

  /** `[^\s,]`. */
  predicate IsAddressChar(c: char) {
    !IsJsWhitespace(c) && c != ','
  }

  /** Length of the run of address characters at the start of `s`. */
  function AddressRun(s: string): (n: nat)
    ensures n <= |s|
    ensures forall j :: 0 <= j < n ==> IsAddressChar(s[j])
    ensures n < |s| ==> !IsAddressChar(s[n])
  {
    if s == [] || !IsAddressChar(s[0]) then 0 else 1 + AddressRun(s[1..])
  }

  /** The leftmost match of `Serving on: (http://[^\s,]+)` searched from
      `from`, giving its capture group. */
  function ServeAddressFrom(text: string, from: nat): (r: Option<string>)
    ensures r.Some? ==> StartsWith(r.value, "http://") && |r.value| > 7
    ensures r.Some? ==> forall j :: 7 <= j < |r.value| ==> IsAddressChar(r.value[j])
    decreases |text| - from
  {
    if from + |ServePrefix| >= |text| then None
    else if text[from..from + |ServePrefix|] == ServePrefix && IsAddressChar(text[from + |ServePrefix|]) then
      var rest := text[from + |ServePrefix|..];
      var n := AddressRun(rest);
      var addr := "http://" + rest[..n];
      assert addr[..7] == "http://";
      assert forall j :: 7 <= j < |addr| ==> addr[j] == rest[j - 7];
      Some(addr)
    else ServeAddressFrom(text, from + 1)
  }

  /** `text.match(/Serving on: (http:\/\/[^\s,]+)/)?.[1]`. */
  function ServeAddress(text: string): Option<string> {
    ServeAddressFrom(text, 0)
  }

  /** The captured address holds no whitespace at all. */
  lemma ServeAddressHasNoWhitespace(text: string)
    requires ServeAddress(text).Some?
    ensures forall j :: 0 <= j < |ServeAddress(text).value| ==> !IsJsWhitespace(ServeAddress(text).value[j])
  {
    var a := ServeAddress(text).value;
    assert a[..7] == "http://";
    forall j | 0 <= j < 7
      ensures !IsJsWhitespace(a[j])
    {
      assert a[j] == "http://"[j];
    }
  }

  /** A readiness line is recognised and its address captured whole. */
  lemma {:induction false} ServeAddressOfReadyLine(host: string, rest: string)
    requires |host| >= 1 && forall j :: 0 <= j < |host| ==> IsAddressChar(host[j])
    requires rest == [] || !IsAddressChar(rest[0])
    ensures ServeAddress("Serving on: " + "http://" + host + rest) == Some("http://" + host)
  {
    var text := "Serving on: " + "http://" + host + rest;
    assert text[..|ServePrefix|] == ServePrefix;
    assert text[|ServePrefix|..] == host + rest;
    AddressRunOf(host, rest);
    assert (host + rest)[..|host|] == host;
  }

  lemma {:induction false} AddressRunOf(run: string, rest: string)
    requires forall j :: 0 <= j < |run| ==> IsAddressChar(run[j])
    requires rest == [] || !IsAddressChar(rest[0])
    ensures AddressRun(run + rest) == |run|
    decreases |run|
  {
    if run == [] {
      assert run + rest == rest;
    } else {
      assert (run + rest)[1..] == run[1..] + rest;
      AddressRunOf(run[1..], rest);
    }
  }

  /** `pattern.test(text)`. */
  predicate Matches(p: Pattern, text: string) {
    match p
    case ServingOn => ServeAddress(text).Some?
    case BuildSuccessful => Contains(text, "Build successful")
  }

  // ---- One spawned process (`spawn`)

  datatype Stream = Stdout | Stderr

  /** What the child process does, as the handlers see it. */
  datatype Event =
    | Data(stream: Stream, chunk: string)
    | Close(code: Option<int>, signal: Option<string>)
    | SpawnError(message: string)

  /** The options given to `spawn`. */
  datatype SpawnOptions = SpawnOptions(silent: bool, pattern: Option<Pattern>)

  /** The closure state shared by the handlers: `firstOutput`,
      `stderrOutput`, `promiseResolved`, the value the inner promise settled
      with, and everything sent to the logging sink. */
  datatype RunState = RunState(
    firstOutput: string,
    stderrOutput: string,
    resolved: bool,
    settledWith: string,
    sink: seq<LogEntry>)

  const Initial: RunState := RunState("", "", false, "", [])

  function SignalText(signal: Option<string>): string {
    match signal
    case None => "null"
    case Some(s) => s
  }

  /** The line a chunk contributes to `firstOutput`: `log`'s result, with
      `""` for none. */
  function FirstLine(chunk: string): (line: string)
    ensures line != "" <==> FirstNonVerbose(LogLines(chunk)).Some?
  {
    match FirstNonVerbose(LogLines(chunk))
    case None => ""
    case Some(l) =>
      NonEmptyFirst(LogLines(chunk));
      l
  }

  /** The data handler on an unsettled state: raw chunk logged, stderr
      accumulated, the first non-verbose line kept, the chunk's lines
      logged, and the pattern matched against the chunk. */
  function DataStep(opts: SpawnOptions, s: RunState, stream: Stream, chunk: string): RunState {
    var raw := if stream == Stdout then LogEntry(Info, "stdout: " + chunk, true)
               else LogEntry(Error, "stderr: " + chunk, true);
    var stderr := if stream == Stderr then s.stderrOutput + chunk else s.stderrOutput;
    var first := OrElse(s.firstOutput, FirstLine(chunk));
    var sink := s.sink + [raw] + Classified(LogLines(chunk), opts.silent);
    if opts.pattern.Some? && Matches(opts.pattern.value, chunk) then
      RunState(first, stderr, true, Trim(chunk), sink)
    else
      RunState(first, stderr, false, s.settledWith, sink)
  }

  /** What one chunk does to the closure state: stderr grows by a stderr
      chunk only, `firstOutput` is only ever filled once, and the call
      settles exactly when the pattern matches the chunk, with the trimmed
      chunk as value. */
  lemma DataStepEffect(opts: SpawnOptions, s: RunState, stream: Stream, chunk: string)
    ensures DataStep(opts, s, stream, chunk).stderrOutput == s.stderrOutput + (if stream == Stderr then chunk else "")
    ensures DataStep(opts, s, stream, chunk).firstOutput == OrElse(s.firstOutput, FirstLine(chunk))
    ensures DataStep(opts, s, stream, chunk).resolved <==> opts.pattern.Some? && Matches(opts.pattern.value, chunk)
    ensures DataStep(opts, s, stream, chunk).resolved ==> DataStep(opts, s, stream, chunk).settledWith == Trim(chunk)
    ensures |DataStep(opts, s, stream, chunk).sink| == |s.sink| + 1 + |LogLines(chunk)|
  {
    var t := DataStep(opts, s, stream, chunk);
    assert t.sink == s.sink + [t.sink[|s.sink|]] + Classified(LogLines(chunk), opts.silent);
  }

  /** The close handler on an unsettled state: settle with the first output,
      else the stderr text, else a "Process finished" message. */
  function CloseStep(s: RunState, code: Option<int>, signal: Option<string>): (t: RunState)
    ensures t.resolved && t.firstOutput == s.firstOutput && t.stderrOutput == s.stderrOutput
    ensures t.settledWith == OrElse(s.firstOutput, OrElse(s.stderrOutput,
      "Process finished (code " + CodeText(code) + ", signal " + SignalText(signal) + ")."))
  {
    var finished := "Process finished (code " + CodeText(code) + ", signal " + SignalText(signal) + ").";
    RunState(s.firstOutput, s.stderrOutput, true, OrElse(s.firstOutput, OrElse(s.stderrOutput, finished)),
      s.sink + [LogEntry(Info, "Process exited with code: " + CodeText(code) + ", signal: " + SignalText(signal), true)])
  }

  /** The error handler on an unsettled state: settle with the spawn error. */
  function ErrorStep(s: RunState, message: string): (t: RunState)
    ensures t.resolved && t.firstOutput == s.firstOutput && t.stderrOutput == s.stderrOutput
    ensures t.settledWith == "Spawn error: " + message
  {
    RunState(s.firstOutput, s.stderrOutput, true, "Spawn error: " + message,
      s.sink + [LogEntry(Error, "Spawn error: " + message, true)])
  }

  /** The effect of one event on the closure state: none once settled. */
  function Step(opts: SpawnOptions, s: RunState, e: Event): RunState {
    if s.resolved then s
    else match e
      case Data(stream, chunk) => DataStep(opts, s, stream, chunk)
      case Close(code, signal) => CloseStep(s, code, signal)
      case SpawnError(message) => ErrorStep(s, message)
  }

  /** The state after a sequence of events. */
  function Run(opts: SpawnOptions, s: RunState, events: seq<Event>): RunState
    decreases |events|
  {
    if events == [] then s else Run(opts, Step(opts, s, events[0]), events[1..])
  }

  /** The events that reach a handler before the promise settles, the
      settling one included. */
  function Effective(opts: SpawnOptions, s: RunState, events: seq<Event>): seq<Event>
    decreases |events|
  {
    if events == [] || s.resolved then []
    else [events[0]] + Effective(opts, Step(opts, s, events[0]), events[1..])
  }

  /** The effective events are a prefix of the events. */
  lemma {:induction false} EffectiveIsPrefix(opts: SpawnOptions, s: RunState, events: seq<Event>)
    ensures |Effective(opts, s, events)| <= |events|
    ensures Effective(opts, s, events) == events[..|Effective(opts, s, events)|]
    decreases |events|
  {
    if events != [] && !s.resolved {
      var next := Step(opts, s, events[0]);
      EffectiveIsPrefix(opts, next, events[1..]);
      var rest := Effective(opts, next, events[1..]);
      assert [events[0]] + events[1..][..|rest|] == events[..|rest| + 1];
    }
  }

  /** Settle-once: after the flag is set, no event changes anything, not the
      settled value, not `stderrOutput`, not `firstOutput`, not the log. */
  lemma {:induction false} SettledIsFinal(opts: SpawnOptions, s: RunState, events: seq<Event>)
    requires s.resolved
    ensures Run(opts, s, events) == s
    decreases |events|
  {
    if events != [] {
      SettledIsFinal(opts, s, events[1..]);
    }
  }

  /** Only the events up to the settling one matter, and once fewer events
      matter than arrived, the state is settled. */
  lemma {:induction false} OnlyEffectiveEventsCount(opts: SpawnOptions, s: RunState, events: seq<Event>)
    ensures Run(opts, s, events) == Run(opts, s, Effective(opts, s, events))
    ensures |Effective(opts, s, events)| < |events| ==> Run(opts, s, events).resolved
    decreases |events|
  {
    if events == [] {
    } else if s.resolved {
      SettledIsFinal(opts, s, events);
    } else {
      var e := Effective(opts, s, events);
      OnlyEffectiveEventsCount(opts, Step(opts, s, events[0]), events[1..]);
      assert e[1..] == Effective(opts, Step(opts, s, events[0]), events[1..]);
    }
  }

  /** The text of the stderr chunks of a list of events. */
  function StderrText(events: seq<Event>): string {
    if events == [] then ""
    else (if events[0].Data? && events[0].stream == Stderr then events[0].chunk else "") + StderrText(events[1..])
  }

  /** `stderrOutput` is exactly the stderr chunks that arrived before the
      promise settled (the settling chunk included), in order. */
  lemma {:induction false} StderrAccumulates(opts: SpawnOptions, s: RunState, events: seq<Event>)
    ensures Run(opts, s, events).stderrOutput == s.stderrOutput + StderrText(Effective(opts, s, events))
    decreases |events|
  {
    if events == [] || s.resolved {
      if s.resolved {
        SettledIsFinal(opts, s, events);
      }
      assert s.stderrOutput + "" == s.stderrOutput;
    } else {
      var e := Effective(opts, s, events);
      StderrAccumulates(opts, Step(opts, s, events[0]), events[1..]);
      assert e[1..] == Effective(opts, Step(opts, s, events[0]), events[1..]);
      assert e[0] == events[0];
    }
  }

  /** The first non-verbose line of the first chunk that has one. */
  function FirstLogged(events: seq<Event>): string {
    if events == [] then ""
    else OrElse(if events[0].Data? then FirstLine(events[0].chunk) else "", FirstLogged(events[1..]))
  }

  /** `firstOutput` is set once, from the first chunk whose `log` result is
      not empty, and never changes afterwards. */
  lemma {:induction false} FirstOutputIsFirstLogged(opts: SpawnOptions, s: RunState, events: seq<Event>)
    ensures Run(opts, s, events).firstOutput == OrElse(s.firstOutput, FirstLogged(Effective(opts, s, events)))
    decreases |events|
  {
    if events == [] || s.resolved {
      if s.resolved {
        SettledIsFinal(opts, s, events);
      }
    } else {
      var e := Effective(opts, s, events);
      var next := Step(opts, s, events[0]);
      FirstOutputIsFirstLogged(opts, next, events[1..]);
      assert e[1..] == Effective(opts, next, events[1..]);
      assert e[0] == events[0];
    }
  }

  /** Without a pattern, output alone never settles the call: it waits for
      the close or error event. */
  lemma {:induction false} DataAloneNeverSettles(opts: SpawnOptions, s: RunState, events: seq<Event>)
    requires opts.pattern.None?
    requires forall i :: 0 <= i < |events| ==> events[i].Data?
    ensures Run(opts, s, events).resolved == s.resolved
    decreases |events|
  {
    if events != [] {
      var next := Step(opts, s, events[0]);
      assert next.resolved == s.resolved by {
        if !s.resolved {
          assert next == DataStep(opts, s, events[0].stream, events[0].chunk);
        }
      }
      assert forall i :: 0 <= i < |events[1..]| ==> events[1..][i] == events[i + 1];
      DataAloneNeverSettles(opts, next, events[1..]);
      assert Run(opts, s, events) == Run(opts, next, events[1..]);
    }
  }

  /** The raw entry `processOutput` logs for a chunk, and what the chunk adds
      to `stderrOutput`. */
  method RawChunk(stream: Stream, data: string) returns (raw: LogEntry, stderrPart: string)
    ensures raw == (if stream == Stdout then LogEntry(Info, "stdout: " + data, true)
                    else LogEntry(Error, "stderr: " + data, true))
    ensures stderrPart == (if stream == Stderr then data else "")
  {
    if stream == Stdout {
      raw := LogEntry(Info, "stdout: " + data, true);
      stderrPart := "";
    } else {
      raw := LogEntry(Error, "stderr: " + data, true);
      stderrPart := data;
    }
  }

  /** `firstOutput` is filled only while still empty, and only by a
      non-empty result of `log`. */
  method KeepFirst(first: string, processed: Option<string>) returns (r: string)
    ensures r == OrElse(first, if processed.Some? then processed.value else "")
  {
    r := first;
    if processed.Some? && processed.value != "" && first == "" {
      r := processed.value;
    }
  }

  /** The pattern test on a chunk: a match settles with the trimmed chunk. */
  method TestPattern(pattern: Option<Pattern>, data: string, settledWith: string) returns (resolved: bool, settled: string)
    ensures resolved <==> pattern.Some? && Matches(pattern.value, data)
    ensures settled == (if resolved then Trim(data) else settledWith)
  {
    resolved := false;
    settled := settledWith;
    if pattern.Some? && Matches(pattern.value, data) {
      resolved := true;
      settled := Trim(data);
    }
  }

  /** The body of `processOutput` on an unsettled state, with the closure
      variables as a value. */
  method HandleChunk(opts: SpawnOptions, s: RunState, stream: Stream, data: string) returns (t: RunState)
    ensures t == DataStep(opts, s, stream, data)
  {
    var raw, stderrPart := RawChunk(stream, data);
    var processedOutput, entries := Log(data, opts.silent);
    var first := KeepFirst(s.firstOutput, processedOutput);
    assert FirstLine(data) == if processedOutput.Some? then processedOutput.value else "";
    var resolved, settled := TestPattern(opts.pattern, data, s.settledWith);
    t := RunState(first, s.stderrOutput + stderrPart, resolved, settled, s.sink + [raw] + entries);
  }

  /** The handlers of one spawned process. The closure variables they share
      (`firstOutput`, `stderrOutput`, `promiseResolved`, the value the inner
      promise settled with, and the logging sink) are held together as one
      `RunState` value in `state`. */
  class Spawn {
    const silent: bool
    const pattern: Option<Pattern>
    var state: RunState

    function Options(): SpawnOptions {
      SpawnOptions(silent, pattern)
    }

    function State(): RunState
      reads this
    {
      state
    }

    constructor(silent: bool, pattern: Option<Pattern>)
      ensures this.silent == silent && this.pattern == pattern
      ensures State() == Initial
    {
      this.silent := silent;
      this.pattern := pattern;
      state := Initial;
    }

    /** `processOutput(data, streamName)`. */
    method ProcessOutput(data: string, stream: Stream)
      modifies this
      ensures State() == Step(Options(), old(State()), Data(stream, data))
    {
      if state.resolved {
        return;
      }
      state := HandleChunk(Options(), state, stream, data);
    }

    /** The `close` handler. */
    method OnClose(code: Option<int>, signal: Option<string>)
      modifies this
      ensures State() == Step(Options(), old(State()), Close(code, signal))
    {
      if state.resolved {
        return;
      }
      var settled := OrElse(state.firstOutput, OrElse(state.stderrOutput,
        "Process finished (code " + CodeText(code) + ", signal " + SignalText(signal) + ")."));
      state := state.(
        sink := state.sink + [LogEntry(Info, "Process exited with code: " + CodeText(code) + ", signal: " + SignalText(signal), true)],
        resolved := true,
        settledWith := settled);
    }

    /** The `error` handler. */
    method OnError(message: string)
      modifies this
      ensures State() == Step(Options(), old(State()), SpawnError(message))
    {
      if state.resolved {
        return;
      }
      state := state.(
        sink := state.sink + [LogEntry(Error, "Spawn error: " + message, true)],
        resolved := true,
        settledWith := "Spawn error: " + message);
    }

    /** What `await spawn(...)` yields, given the process's `exitCode` when
        the call resumes. */
    method Finish(exitCode: Option<int>) returns (r: SpawnResult)
      ensures r == SpawnOutcome(Options(), State(), exitCode)
    {
      if !state.resolved {
        return Unsettled;
      }
      if pattern.Some? && exitCode.None? {
        return Returned((state.settledWith, None));
      }
      if exitCode == Some(0) {
        return Returned((state.settledWith, exitCode));
      }
      var errorMessage := OrElse(state.stderrOutput, OrElse(state.settledWith, "Command failed with exit code " + CodeText(exitCode)));
      return Threw(Rejection(Trim(errorMessage), exitCode));
    }
  }

  /** How a `spawn` call ends: it never settles, resolves with the output
      and the exit code, or rejects with a message and the exit code. */
  type SpawnResult = Outcome<(string, Option<int>)>

  /** The outcome rule: with a pattern and no exit code the call succeeds
      with `null`; exit code 0 succeeds; anything else rejects with the
      trimmed stderr text, else the settled value, else a generic message. */
  function SpawnOutcome(opts: SpawnOptions, s: RunState, exitCode: Option<int>): (r: SpawnResult)
    ensures !r.Cancelled?
    ensures r.Unsettled? <==> !s.resolved
    ensures r.Returned? <==> s.resolved && ((opts.pattern.Some? && exitCode.None?) || exitCode == Some(0))
    ensures r.Returned? ==> r.value == (s.settledWith, exitCode)
    ensures r.Threw? ==> r.error.Rejection? && r.error.code == exitCode
    ensures r.Threw? ==> exitCode != Some(0) && IsTrimmed(r.error.message)
    ensures r.Threw? && s.stderrOutput != "" ==> r.error.message == Trim(s.stderrOutput)
    ensures r.Threw? && s.stderrOutput == "" && s.settledWith != "" ==> r.error.message == Trim(s.settledWith)
    ensures r.Threw? && s.stderrOutput == "" && s.settledWith == "" ==>
      r.error.message == Trim("Command failed with exit code " + CodeText(exitCode))
  {
    if !s.resolved then Unsettled
    else if opts.pattern.Some? && exitCode.None? then Returned((s.settledWith, None))
    else if exitCode == Some(0) then Returned((s.settledWith, exitCode))
    else Threw(Rejection(Trim(OrElse(s.stderrOutput, OrElse(s.settledWith, "Command failed with exit code " + CodeText(exitCode)))), exitCode))
  }

  /** With a pattern, an `error` event still counts as success when the
      process has no exit code: the rule looks only at the flag. */
  lemma ErrorEventWithPatternResolves(p: Pattern, silent: bool, message: string)
    ensures SpawnOutcome(SpawnOptions(silent, Some(p)), Run(SpawnOptions(silent, Some(p)), Initial, [SpawnError(message)]), None)
      == Returned(("Spawn error: " + message, None))
  {
    var opts := SpawnOptions(silent, Some(p));
    assert Run(opts, Initial, [SpawnError(message)]) == Run(opts, Step(opts, Initial, SpawnError(message)), []);
  }

  /** The arguments given to the CLI binary: the caller's, then the
      verbosity flag, `--yes`, `--color never`. */
  function CliArgs(args: seq<string>, verbose: bool): (argv: seq<string>)
    ensures |argv| == |args| + 4 && argv[..|args|] == args
    ensures argv[|args|] == (if verbose then "-vvvv" else "-v")
    ensures argv[|args| + 1..] == ["--yes", "--color", "never"]
  {
    args + [if verbose then "-vvvv" else "-v", "--yes", "--color", "never"]
  }
}
