# Argon for VS Code — a verified model of the extension's core

Argon is a command-line tool that syncs Roblox projects with Roblox Studio.
The VS Code extension wraps it. This project models the extension's own
logic in Dafny and proves what that logic promises.

- **Process runner** (`Process`, from `src/argon.ts`):
  - `log` classifies the CLI's output lines by severity and marks some as verbose.
  - `spawn`'s event handlers are a settle-once state machine over data, close and error events.
  - The outcome rule turns the final state and the exit code into success or a rejection.
- **Command façade** (`Argon`, from `src/argon.ts`):
  - the clock-driven id counter `generateId`;
  - the argument vector and spawn options of every command;
  - how `serve`, `build` and `sourcemap` turn the runner's result into their own.
- **Session registry** (`Registry` and `Sessions`, from `src/state.ts` and `src/session.ts`):
  - the ordered session list;
  - its persisted mirror `lastSessions`;
  - the status-bar text and tooltip;
  - the `Session` class.
- **Global configuration** (`Config`, from `src/config.ts`):
  - the line-oriented `key = value` reader and writer for `~/.argon/config.toml`;
  - the `loaded` guard;
  - the notification-level mapping.
- **Config completion** (`Completion`, from `src/completion.ts`):
  - the substring-based "setting already present" test;
  - the completion items offered for the settings table.
- **Menu flows** (`ServeMenu`, `BuildMenu`, `SourcemapMenu`, `InitMenu`, `StartLemonade`, with the shared option handling in `MenuOptions`):
  - address parsing and defaulting;
  - option picks remembered in the extension's global state;
  - output-name suffixing;
  - the template order;
  - the `init` option strings;
  - the required-folder check;
  - the port-conflict fallback;
  - the session each flow records.
- **Helpers** (`Util` and `Installer`, from `src/util.ts` and `src/installer.ts`):
  - project and place file filters;
  - project-name and project-address fallbacks;
  - version-banner cleanup;
  - the platform and architecture asset filter, with its `versionIndex` counter;
  - the binary path.

The CLI process, the clock, the file system, the VS Code dialogs and the
persisted state are inputs of the model:

- a sequence of runner events;
- a clock reading;
- a directory listing, or a parsed project record;
- the user's answer to a dialog;
- a `map` of persisted picks.

`Wrappers`, `Strings` and `Numbers` hold the JavaScript behaviour the core
relies on:

- `||` on strings, and truthiness;
- `trim`;
- `split` and `join`;
- `String.prototype.replace` with a string pattern;
- `!isNaN(Number(s))`;
- the digit runs of `match(/\d+/g)`.

The model keeps the source's form:

- Mutable state is a Dafny `class` whose methods carry `modifies` clauses and state the whole new state:
  - `lastId`;
  - the spawn closure;
  - the `State` and `Session` objects;
  - the loaded configuration;
  - the persisted picks;
  - the installer's counter.
- Loops stay `while` loops with invariants, proved against a pure specification function:
  - `log`'s line loop;
  - the `removeSessions` filter;
  - the option-load and option-store loops;
  - the asset filter over a release's assets.
- Pure code is functions and lemmas.

## Model

| member | source | states |
|---|---|---|
| Process.FirstStop | src/argon.ts:30 | The first `:` or line terminator of a line, or none: every earlier character is neither, which is how `.` in `^.{0,5}:` stops |
| Process.LevelTagByFirstStop | src/argon.ts:30 | A line matches `^.{0,5}:` iff its first stop is a `:` at index at most 5 |
| Process.NonVerboseIsNonEmpty | src/argon.ts:30 | A line that is not verbose is non-empty (an empty line has no `:` and is verbose) |
| Process.ClassifyRoutes | src/argon.ts:32-41 | Every line goes to exactly one sink: `ERROR` prefix to error, else `WARN` prefix to warn, else info; error and warn lines are hidden iff verbose, info lines iff verbose or silent |
| Process.Classified | src/argon.ts:29-41 | One log entry per line of the chunk, in order, each the classification of its line |
| Process.Log | src/argon.ts:24-49 | The loop over the trimmed, `\n`-split chunk returns the first non-verbose line (or nothing) and logs every line through its sink |
| Process.FirstNonVerboseIsFirst | src/argon.ts:43-48 | The returned line is a line of the chunk, non-verbose, with every earlier line verbose; nothing is returned iff every line is verbose |
| Process.FirstNonVerboseSnoc | src/argon.ts:43-45 | One more line changes the result only when none was found yet and that line is not verbose |
| Process.NonEmptyFirst | src/argon.ts:43-48 | A returned line is never empty, so `!output` only tests whether one was found |
| Process.AddressRun | src/argon.ts:260 | The maximal run of `[^\s,]` characters at the start of a text |
| Process.ServeAddressFrom | src/argon.ts:273 | A capture of the serve pattern starts with `http://`, has at least one more character, and holds only `[^\s,]` characters after the scheme |
| Process.ServeAddressHasNoWhitespace | src/argon.ts:260 | A captured serve address contains no whitespace |
| Process.ServeAddressOfReadyLine | src/argon.ts:260 | On `Serving on: http://<host>` followed by a non-address character or the end, the capture is exactly `http://<host>` |
| Process.AddressRunOf | src/argon.ts:260 | The run of address characters stops exactly where the first non-address character begins |
| Process.FirstLine | src/argon.ts:151-154 | What `log` contributes to `firstOutput` is non-empty iff the chunk has a non-verbose line |
| Process.DataStepEffect | src/argon.ts:135-165 | A data event appends the chunk to `stderrOutput` only for stderr, keeps an existing `firstOutput` else takes the chunk's first non-verbose line, settles iff the pattern matches (with the trimmed chunk), and logs the raw chunk plus one entry per line |
| Process.RawChunk | src/argon.ts:144-150 | The raw chunk is logged hidden as `stdout: …` (info) or `stderr: …` (error), and only stderr text is collected |
| Process.KeepFirst | src/argon.ts:151-154 | `firstOutput` keeps its value once set, else takes the processed line |
| Process.TestPattern | src/argon.ts:157-163 | The state settles iff a pattern is given and matches the chunk, and then with the trimmed chunk |
| Process.HandleChunk | src/argon.ts:135-165 | The data handler's steps on an unsettled state compute exactly the data step |
| Process.CloseStep | src/argon.ts:170-184 | A close settles with `firstOutput`, else `stderrOutput`, else `Process finished (code …, signal …).`, leaving both texts unchanged |
| Process.ErrorStep | src/argon.ts:186-195 | An error event settles with `Spawn error: <message>`, leaving both texts unchanged |
| Process.EffectiveIsPrefix | src/argon.ts:136 | The events that act form a prefix of the event sequence |
| Process.SettledIsFinal | src/argon.ts:171 | Once settled, no later data, close or error event changes anything |
| Process.OnlyEffectiveEventsCount | src/argon.ts:162 | Running all events equals running only the acting prefix, and events are dropped only after settling |
| Process.StderrAccumulates | src/argon.ts:144-149 | `stderrOutput` is the concatenation of the stderr chunks that arrive before settling |
| Process.FirstOutputIsFirstLogged | src/argon.ts:151-154 | `firstOutput` is the first non-empty `log` result among the chunks before settling |
| Process.DataAloneNeverSettles | src/argon.ts:157 | Without a pattern, data events never settle the call: only close or error do |
| Process.Spawn.constructor | src/argon.ts:125-127 | The closure starts with empty texts, unsettled and nothing logged |
| Process.Spawn.ProcessOutput | src/argon.ts:135-165 | The data handler moves the closure state by one data step and does nothing once settled |
| Process.Spawn.OnClose | src/argon.ts:170-184 | The close handler moves the closure state by one close step and does nothing once settled |
| Process.Spawn.OnError | src/argon.ts:186-195 | The error handler moves the closure state by one error step and does nothing once settled |
| Process.Spawn.Finish | src/argon.ts:202-239 | The awaited result is the outcome rule applied to the closure state and the exit code |
| Process.SpawnOutcome | src/argon.ts:216-239 | Succeeds with `[settled, null]` when a pattern settled a running process; succeeds on exit code 0; otherwise rejects with the exit code and a trimmed message: the stderr text when there is any, else the settled text when that is non-empty, else `Command failed with exit code N` |
| Process.ErrorEventWithPatternResolves | src/argon.ts:216-222 | With a pattern and no exit code, an error event still yields success with `Spawn error: …` |
| Process.CliArgs | src/argon.ts:98-103 | The caller's arguments are followed by `-vvvv` or `-v`, then `--yes`, `--color`, `never` |
| Argon.NextId | src/argon.ts:242-252 | The id differs from the previous id; it is the clock reading, plus one when the reading equals the previous id |
| Argon.IdsFor | src/argon.ts:242-252 | A series of calls hands out one id per clock reading |
| Argon.ConsecutiveIdsDiffer | src/argon.ts:242-252 | Each id differs from the one before it |
| Argon.SameMillisecondRepeatsId | src/argon.ts:242-252 | Three calls at the same reading give ids 5, 6, 5: ids are not unique |
| Argon.IncreasingClockGivesReadings | src/argon.ts:242-252 | A clock that moves forward gives exactly its readings as ids |
| Argon.IdGenerator.constructor | src/argon.ts:7 | `lastId` starts at 0 |
| Argon.IdGenerator.GenerateId | src/argon.ts:242-252 | Returns the next id and stores it as `lastId` |
| Argon.IdTexts | src/argon.ts:359 | The ids' decimal texts, one per id, in order |
| Argon.IdFollowsProject | src/argon.ts:259-270 | `serve`, and `build`/`sourcemap` with `--watch`, put the id right after the project, and it reads back as the id; without `--watch` there is no id |
| Argon.StopIdsReadBack | src/argon.ts:358-363 | `stop` passes every id, in order, each reading back as its id |
| Argon.StopIdAt | src/argon.ts:358-363 | The argument after `stop` at position i reads back as the i-th id |
| Argon.CommandArgs | src/argon.ts:347-397 | `init` puts the template after `--template` and then the options; `debug` its mode; `exec` the code with `--focus` only when asked; `studio` the place only when non-empty and `--check` last when asked |
| Argon.SilentCommands | src/argon.ts:358-412 | `stop`, `debug`, `exec` and `studio` are silent, `plugin` is not, `update` is silent iff automatic |
| Argon.Cli.constructor | src/argon.ts:7 | The façade starts with a fresh id counter at 0 |
| Argon.Cli.Serve | src/argon.ts:254-271 | `serve` always draws an id and calls the runner with it and the serve pattern |
| Argon.Cli.Build | src/argon.ts:306-329 | `build` draws an id iff `--watch` is given; otherwise the counter is unchanged |
| Argon.Cli.Sourcemap | src/argon.ts:331-345 | `sourcemap` draws an id iff `--watch` is given; otherwise the counter is unchanged |
| Argon.ServeResult | src/argon.ts:273-303 | A resolved spawn whose output holds a serve address returns the id and that address; one whose output holds none throws `Failed to start serve process: Serve started, but could not parse address from output.`; a rejection throws the same prefix before its message; nothing else returns |
| Argon.After | src/argon.ts:316-328 | A command that awaits the runner returns its value on success and passes a rejection through unchanged |
| Argon.ServedAddressNeverReportsConflict | src/argon.ts:260 | A served address never contains `already in use` |
| Argon.ReadyChunkSettles | src/argon.ts:157-163 | A `Serving on: http://<host>` chunk settles a serve call with the trimmed line |
| Argon.ReadyLineIsTrimmed | src/argon.ts:162 | The ready line with its newline removed by `trim` is the line itself |
| Argon.ServeReadiness | src/argon.ts:273-280 | A serve whose first chunk is the ready line returns that id and `http://<host>` |
| Argon.StderrChunkCollected | src/argon.ts:144-149 | A stderr chunk without a pattern is collected and settles nothing |
| Argon.RunOfTwo | src/argon.ts:135-195 | Two events act one after the other |
| Argon.RunOfOne | src/argon.ts:135-195 | One event acts as one step |
| Argon.BuildFailure | src/argon.ts:231-239 | A build that writes an error to stderr and exits with 1 rejects with the trimmed stderr and code 1 |
| Argon.FailureAfterStderr | src/argon.ts:170-184 | A close with code 1 after stderr text leads to a rejection with that text, trimmed |
| Argon.FailureWithStderr | src/argon.ts:231-239 | A settled state with stderr text and exit code 1 rejects with the trimmed stderr text and code 1 |
| Registry.StatusTextShowsCount | src/state.ts:82-87 | The text is `$(argon-logo) Argon` iff there are no sessions, else it carries the count in parentheses |
| Registry.StatusTextInjective | src/state.ts:82-87 | Different counts give different status texts |
| Registry.SessionParts | src/state.ts:91-101 | A session's tooltip block has a heading with its name, its type and file, its address only when set, and a rule |
| Registry.TooltipListsSessions | src/state.ts:89-108 | The tooltip is `No running sessions` iff the list is empty, and otherwise names every session |
| Registry.TooltipParts | src/state.ts:91-101 | The tooltip loop appends each session's block in list order |
| Registry.State.constructor | src/state.ts:13-21 | Starts with no sessions, the given version and the previously persisted list, the item blank and hidden |
| Registry.State.Show | src/state.ts:23-28 | The item opens the menu, shows the base text and `No running sessions`, and is visible; sessions are unchanged |
| Registry.State.UpdateItem | src/state.ts:81-109 | Text and tooltip become functions of the current sessions; nothing else changes |
| Registry.FindEqual | src/state.ts:31 | Finds whether a session of the same type and project is already listed |
| Registry.State.AddSession | src/state.ts:30-41 | Always appends, warns iff an equal session exists, persists the full list and refreshes the item |
| Registry.KeptConcat | src/state.ts:46-59 | The filter works element by element over concatenation |
| Registry.KeptMembers | src/state.ts:46-59 | Exactly the sessions whose id is not in `ids` are kept |
| Registry.KeptWithoutMatches | src/state.ts:46-59 | Removing ids that match no session leaves the list unchanged |
| Registry.KeptIdempotent | src/state.ts:46-59 | Removing the same ids twice equals removing them once |
| Registry.Slots | src/state.ts:40 | The persisted list holds every session, in order |
| Registry.FindSlot | src/state.ts:50-52 | `findIndex` by identity: the first slot holding the session, or none |
| Registry.ClearedOnlyUnsets | src/state.ts:49-56 | The in-place nulling keeps the persisted list's length, only clears slots, and never clears a session that is kept |
| Registry.ClearedMirrorOfDistinct | src/state.ts:49-56 | On a list persisted from distinct sessions, exactly the slots of removed sessions are cleared |
| Registry.KeptClearedStep | src/state.ts:46-59 | One step of the filter loop keeps or drops the session and clears its slot when dropped |
| Registry.RemoveFrom | src/state.ts:46-59 | The filter loop computes the kept sessions and the cleared persisted list |
| Registry.State.RemoveSessions | src/state.ts:43-66 | Keeps exactly the non-matching sessions in order, clears removed sessions' persisted slots, drops the persisted list when no session is left, and refreshes the item |
| Registry.State.GetSessions | src/state.ts:68-70 | Returns a fresh array holding the sessions, so changing it leaves the registry alone |
| Registry.State.Cleanup | src/state.ts:72-79 | Issues one `stop` with all ids in registry order iff there are sessions |
| Registry.IdsOf | src/state.ts:73 | The sessions' ids, in order |
| Sessions.TypeName | src/state.ts:31-33 | Every session type has a non-empty name for the duplicate warning |
| Sessions.TypeNameInjective | src/state.ts:31-33 | Different types have different names |
| Sessions.Session.constructor | src/session.ts:9-13 | Stores name, project and id unchanged, with no address, type `Serve` and the clock reading as start |
| Sessions.Session.WithAddress | src/session.ts:15-18 | Sets the address and returns the same object; name, project, id and type are unchanged |
| Sessions.Session.WithType | src/menu/build.ts:127 | Sets the type and returns the same object; the address is unchanged |
| Sessions.Session.Duration | src/session.ts:20-22 | The time elapsed since construction, never negative for a later reading |
| Sessions.DurationTracksClock | src/session.ts:20-22 | Durations differ by exactly the clock difference, and are 0 at the start |
| Config.NotificationLevel | src/config.ts:25-36 | `Info` gives 3, `Warning` 2, `Error` 1, and nothing else gives those |
| Config.UnknownLevelIsZero | src/config.ts:25-36 | Any other setting gives 0 |
| Config.Keys | src/config.ts:76 | The dictionary's keys, in insertion order |
| Config.LookupFinds | src/config.ts:76 | A key is found iff it is one of the keys, and then with its stored value |
| Config.KeyIndex | src/config.ts:76 | The position of a present key |
| Config.Set | src/config.ts:76 | Assignment keeps keys distinct, makes the key map to the value, leaves every other key alone, and is ignored for `__proto__` |
| Config.LookupOfDistinct | src/config.ts:76 | With distinct keys every entry is found under its key |
| Config.LookupOtherThanUpdated | src/config.ts:76 | Updating one entry leaves the lookup of every other key unchanged |
| Config.ParseLineSkips | src/config.ts:67-71 | A line is skipped iff it has no `=` or starts with `#` |
| Config.ParseLineParts | src/config.ts:67-74 | The key is the trimmed text before `=`; the value is the trimmed text after it, with every `"` removed |
| Config.ParseLineDropsAfterSecond | src/config.ts:67 | Text after a second `=` is dropped |
| Config.SamePiecesSameEntry | src/config.ts:73-74 | The entry depends only on the first two pieces of the split |
| Config.IndentedHashIsAKey | src/config.ts:69 | An indented `#` line is read as an entry, while an unindented one is skipped |
| Config.ParseLines | src/config.ts:66-77 | The loaded dictionary has distinct keys |
| Config.LaterLineOverrides | src/config.ts:76 | A later line with the same key overrides an earlier one |
| Config.FormatValue | src/config.ts:98-100 | A value is quoted iff it is not numeric and not `true`/`false` |
| Config.Lines | src/config.ts:96-102 | One written line per entry |
| Config.Serialise | src/config.ts:96-105 | The written text ends with a newline |
| Config.ParseEntryLine | src/config.ts:96-105 | A written line holds no newline and reads back as its entry |
| Config.ParseWrittenLine | src/config.ts:66-77 | `key = value`, with the value quoted or not, reads back as the entry |
| Config.WrittenLineHasNoNewline | src/config.ts:102 | A written line holds no newline when its parts hold none |
| Config.ParseSpacedLine | src/config.ts:73-74 | A space before `=` is trimmed from the key |
| Config.SpacedEquals | src/config.ts:102 | The written separator ` = ` splits as a space, `=`, and a space before the value |
| Config.WrittenValueReadsBack | src/config.ts:74 | A written value, quoted or not, reads back as the value |
| Config.FormatShape | src/config.ts:98-100 | A written value is the value itself or the value in quotes |
| Config.UnquotedReadsBack | src/config.ts:74 | An unquoted value reads back unchanged |
| Config.QuotedReadsBack | src/config.ts:74 | A quoted value reads back as the value without quotes |
| Config.QuotedIsTrimmed | src/config.ts:74 | A quoted value has no surrounding whitespace |
| Config.UnquoteQuoted | src/config.ts:74 | Removing every `"` undoes the quoting of a value without quotes |
| Config.ParseLinesSnoc | src/config.ts:66-77 | Reading one more entry line assigns its key |
| Config.SetNewKey | src/config.ts:76 | Assigning a new key appends it |
| Config.WritableInit | src/config.ts:96-105 | Entries fit for writing stay so without the last, whose key is new |
| Config.ParseLinesOfWritten | src/config.ts:66-105 | Reading the written lines gives back the entries, in order |
| Config.ParseSerialise | src/config.ts:66-105 | Round trip: loading the saved text gives back the same dictionary |
| Config.GlobalConfig.constructor | src/config.ts:7 | Starts not loaded, with the given setting and no warnings |
| Config.GlobalConfig.Load | src/config.ts:54-85 | Sets `loaded`; a readable file replaces the setting with the parsed text; a missing file leaves it; an unreadable file warns |
| Config.GlobalConfig.Save | src/config.ts:87-105 | Writes nothing before a load, else the serialised setting |
| Config.SaveAfterLoad | src/config.ts:88-90 | A save before any load writes nothing; after loading a file that holds writable entries, a save writes that same text back |
| Completion.FirstLineWithIsFirst | src/completion.ts:116-120 | The scan stops at the first line containing the setting, or finds none iff no line contains it |
| Completion.FirstLineWithAt | src/completion.ts:116-120 | The scan's line is the first containing line |
| Completion.ContainsWithin | src/completion.ts:115 | A text containing a part contains everything the part contains |
| Completion.PartWithinJoin | src/completion.ts:116 | Each line of the split occurs within the text |
| Completion.LineWithinText | src/completion.ts:115-117 | A line containing the setting means the text contains it |
| Completion.HasSettingByFirstLine | src/completion.ts:112-124 | Present iff some line contains the setting, no earlier line does, and that line has no `#` |
| Completion.AbsentSettingIsMissing | src/completion.ts:115-123 | A text without the setting as a substring does not have it |
| Completion.SubstringCountsAsPresent | src/completion.ts:112-121 | A first line containing the setting anywhere, without `#`, counts it as present |
| Completion.CommentHidesLaterSetting | src/completion.ts:116-120 | A first containing line with `#` makes the setting absent, whatever follows |
| Completion.ScanPortsHidesPort | src/completion.ts:112-121 | `scan_ports = true` on the first line makes `port` count as present |
| Completion.ItemOf | src/completion.ts:140-150 | The item is named after the field, inserts `field = value`, and documents the entry |
| Completion.Completions | src/completion.ts:135-151 | No more items than settings |
| Completion.CompletionsConcat | src/completion.ts:135 | Completions of a concatenated table are concatenated, preserving table order |
| Completion.OfferedIffMissing | src/completion.ts:135-151 | A setting's item is offered iff the document lacks that setting |
| Completion.OfferedAreMissing | src/completion.ts:135-151 | Every offered item is the item of a table entry the document lacks |
| Completion.AllOfferedInEmptyDocument | src/completion.ts:135-151 | An empty document gets every entry's item, in table order |
| Completion.EmptyDocumentOffersEverySetting | src/completion.ts:3-110 | The shipped table has 21 settings, all offered in an empty document |
| MenuOptions.Memento.constructor | src/menu/build.ts:73-76 | The stored picks start as given |
| MenuOptions.Memento.Get | src/menu/build.ts:73-76 | A stored pick, or the fallback when none is stored |
| MenuOptions.Memento.Update | src/menu/build.ts:95-100 | Stores one pick; every other key is unchanged |
| MenuOptions.Restored | src/menu/build.ts:72-77 | Loading changes only an option's pick, to the stored one if any |
| MenuOptions.LoadPicks | src/menu/build.ts:72-77 | The loading loop replaces each option's pick in place with the stored one or its default |
| MenuOptions.StoredPicks | src/menu/build.ts:95-100 | Storing adds every option's key and leaves other keys alone |
| MenuOptions.StoredPickOf | src/menu/build.ts:95-100 | With distinct keys, each option's stored pick is whether it was selected |
| MenuOptions.StorePicks | src/menu/build.ts:95-100 | The storing loop writes exactly the stored picks |
| MenuOptions.PickedFlags | src/menu/build.ts:79-83 | The flags of the picked options other than a skipped one, one per option in table order (the flags at `Positions`), so exactly the flags of picked options |
| MenuOptions.PositionsExact | src/menu/build.ts:79-83 | The positions a filter keeps are exactly those of the qualifying options, each once, in increasing order |
| MenuOptions.ChosenFlags | src/menu/build.ts:102 | The flags of the selected items other than a skipped one, one per item in the order the items were returned (the flags at `Positions`), so exactly the selected flags |
| MenuOptions.ChosenFlagsAll | src/menu/build.ts:102 | Without a skipped flag, the flags of the selected items in order |
| MenuOptions.RestoredAll | src/menu/build.ts:72-77 | Every option restored from the stored picks |
| MenuOptions.PickIsRemembered | src/menu/build.ts:72-100 | Picks stored after a selection load back as that selection |
| MenuOptions.ChosenByFlag | src/menu/build.ts:95-100 | For options keyed by prefix and flag, being selected is having the flag among the selected items |
| ServeMenu.TableIsKeyedByFlag | src/menu/serve.ts:15-31 | The serve options are keyed `Serve` plus flag, with distinct keys |
| ServeMenu.ParseAddress | src/menu/serve.ts:33-76 | Empty or cancelled input is rejected; otherwise an address with a host or a port |
| ServeMenu.AddressWithoutColon | src/menu/serve.ts:52-67 | Without `:`, numeric input is the port only, anything else the host only |
| ServeMenu.PortAlone | src/menu/serve.ts:52-67 | A number typed alone is the port |
| ServeMenu.AddressWithColon | src/menu/serve.ts:68-73 | `host:port` splits at the `:` |
| ServeMenu.AddressExtraPartsIgnored | src/menu/serve.ts:68-73 | Parts after a second `:` are ignored |
| ServeMenu.Selection | src/menu/serve.ts:78-124 | Restore returns the picked flags without `customAddress` in table order and never prompts; otherwise the selected flags without `customAddress` in the order returned, prompting iff it was selected, or a cancel |
| ServeMenu.GetOptions | src/menu/serve.ts:78-124 | Loads the picks, answers with the selection, and stores each pick as "was selected" only when asked interactively |
| ServeMenu.RestoredAddress | src/menu/serve.ts:133-142 | The host is the text of the session address before its first `:` (all of it without one); the port is `originalPort` when set and non-zero, else present iff the address holds a `:`, and then the text between the first `:` and the next `:` or the end |
| Strings.SplitHead | src/menu/serve.ts:135 | `split` gives as first piece the text before the first separator, a second piece iff the text holds the separator, and then the text up to the next separator |
| ServeMenu.RestoreRoundTrip | src/menu/serve.ts:133-142 | A restored `host:port` address without `originalPort` gives back host and port |
| ServeMenu.RestoreWithoutAddress | src/menu/serve.ts:133-142 | Without an address there is no host, and without `originalPort` no port either |
| ServeMenu.Target | src/menu/serve.ts:147-163 | Custom host and port override only when non-empty; the rest default to the project's, then the configured ones |
| ServeMenu.TypedPartKeepsTheOther | src/menu/serve.ts:147-157 | A typed port keeps the default host, a typed host the default port |
| ServeMenu.ConflictPortIsSecondNumber | src/menu/serve.ts:169-172 | After a conflict the port is the message's second digit run |
| ServeMenu.ServedSessionKeepsPort | src/menu/serve.ts:165-178 | A served session always keeps the requested port |
| ServeMenu.Args | src/menu/serve.ts:159-163 | The flags, then `--host h --port p` |
| ServeMenu.Plan | src/menu/serve.ts:126-163 | The serve request of the flow: the restored or picked project, no `customAddress` flag, a non-empty port |
| ServeMenu.RestoreAlwaysServes | src/menu/serve.ts:126-163 | A restored session always reaches the serve call, with its project |
| ServeMenu.Prepare | src/menu/serve.ts:126-163 | The steps before the serve call compute the plan, and load and store the picks as the flow does |
| ServeMenu.Launch | src/menu/serve.ts:165-179 | Calls `serve` with a new id; once it answers, appends one `Serve` session on `host:port` |
| ServeMenu.Run | src/menu/serve.ts:126-180 | The whole flow: no call when it stops early; otherwise one serve call and, once served, one new session |
| BuildMenu.GetOutput | src/menu/build.ts:42-65 | No output name when restoring or when the project name is typed; empty input is rejected |
| BuildMenu.Selection | src/menu/build.ts:67-105 | Restore returns the flags of the picked options in table order; otherwise the selected flags in the order returned, or a cancel |
| BuildMenu.GetOptions | src/menu/build.ts:67-105 | Loads the picks, answers with the selection, and stores each pick as "was selected" only when asked interactively |
| BuildMenu.Args | src/menu/build.ts:120-122 | `--output <name>` is appended only when there is an output name |
| BuildMenu.OutputKeepsWatching | src/menu/build.ts:120-124 | Appending the output never changes whether the build watches |
| BuildMenu.Plan | src/menu/build.ts:107-122 | Restore always builds its project with the picked flags; otherwise it builds iff an output and options are given |
| BuildMenu.Prepare | src/menu/build.ts:107-122 | The steps before the build call compute the plan and load and store the picks |
| BuildMenu.Launch | src/menu/build.ts:124-128 | A `Build` session is added iff `build` answered with a truthy id |
| BuildMenu.Run | src/menu/build.ts:107-129 | The whole flow: no call when it stops early; otherwise one build call and a session iff an id came back |
| SourcemapMenu.GetOutput | src/menu/sourcemap.ts:14-30 | Empty input is rejected; the output gets `.json` unless it already ends with it |
| SourcemapMenu.GetOutputIdempotent | src/menu/sourcemap.ts:27 | Suffixing twice equals suffixing once |
| SourcemapMenu.SuffixExamples | src/menu/sourcemap.ts:27 | `sourcemap` becomes `sourcemap.json`; `map.json` stays |
| SourcemapMenu.GetOptions | src/menu/sourcemap.ts:32-73 | Answers with the selected flags and stores each pick by option id only when not cancelled |
| SourcemapMenu.PicksStoredById | src/menu/sourcemap.ts:63-68 | `watch` and `nonScripts` are stored as whether each option was selected |
| SourcemapMenu.Args | src/menu/sourcemap.ts:80-81 | The output follows the flags as one argument `--output <file>` |
| SourcemapMenu.WatchingIffChosen | src/menu/sourcemap.ts:80-84 | The call watches iff `--watch` was selected |
| SourcemapMenu.Handler | src/menu/sourcemap.ts:75-90 | Stops without a call when cancelled; otherwise one sourcemap call and a `Sourcemap` session iff an id came back |
| InitMenu.GetProjectName | src/menu/init.ts:42-58 | An empty name is rejected; otherwise the typed name |
| InitMenu.ProjectFileName | src/menu/init.ts:140-142 | `.project.json` is appended unless the name already ends with it |
| InitMenu.ProjectFileNameIdempotent | src/menu/init.ts:140-142 | Suffixing twice equals suffixing once |
| InitMenu.IndexIn | src/menu/init.ts:68-69 | `indexOf`: the first position of the name, or -1 iff absent |
| InitMenu.Rank | src/menu/init.ts:62-72 | A template's place in the priority list, last when unlisted |
| InitMenu.CompareAgreesWithRank | src/menu/init.ts:67-72 | With a listed template involved, the comparator orders by rank |
| InitMenu.CompareNotAntisymmetric | src/menu/init.ts:71 | Two unlisted names each compare after the other |
| InitMenu.Templates | src/menu/init.ts:64-66 | Exactly the listed entries other than `.DS_Store` |
| InitMenu.InsertPermutes | src/menu/init.ts:67-72 | Inserting a name adds exactly that name |
| InitMenu.CompareBoundsRank | src/menu/init.ts:67-72 | The comparator's sign bounds the ranks |
| InitMenu.InsertBounded | src/menu/init.ts:67-72 | Inserting keeps every rank within a bound |
| InitMenu.AppendHighest | src/menu/init.ts:67-72 | Appending a name of highest rank keeps rank order |
| InitMenu.InsertKeepsRankOrder | src/menu/init.ts:67-72 | Inserting keeps rank order |
| InitMenu.SortPermutes | src/menu/init.ts:67-72 | The sort is a permutation |
| InitMenu.SortOrdersByRank | src/menu/init.ts:67-72 | The sort orders templates by priority, unlisted last |
| InitMenu.SortedByPriority | src/menu/init.ts:67-72 | The sort is a permutation ordered by priority |
| InitMenu.UpperAscii | src/menu/init.ts:75 | An ASCII lower-case letter is upper-cased; other characters are unchanged |
| InitMenu.ItemOf | src/menu/init.ts:73-79 | The label is the template with its first character upper-cased; the description is non-empty only for `quick` |
| InitMenu.Items | src/menu/init.ts:64-80 | One item per sorted template, in order |
| InitMenu.SortedFrom | src/menu/init.ts:67-72 | Every sorted name comes from the listing |
| InitMenu.ListedFirst | src/menu/init.ts:67-72 | When a listed template is present, a listed one comes first |
| InitMenu.ItemsOffered | src/menu/init.ts:64-80 | When a listed template is present, a listed one is offered first, and `.DS_Store` is never offered |
| InitMenu.GetProjectTemplate | src/menu/init.ts:60-94 | A listing failure passes through; otherwise the picked item's id, or a cancel |
| InitMenu.GetProjectOptions | src/menu/init.ts:96-127 | Loads the picks, answers with the selected flags, and stores each pick as "was selected" |
| InitMenu.OptionTexts | src/menu/init.ts:134-138 | One option string per table entry |
| InitMenu.BuildOptions | src/menu/init.ts:134-138 | The push loop builds exactly the option strings |
| InitMenu.OptionTextsReadBack | src/menu/init.ts:134-138 | Each option string is `flag=true` or `flag=false`, true iff the flag was selected |
| InitMenu.Run | src/menu/init.ts:129-147 | Returns the suffixed name and calls `init` with it, the template and the option strings, or stops without a call |
| StartLemonade.DirNames | src/menu/startLemonade.ts:37-39 | At most one name per entry |
| StartLemonade.DirNamesExactly | src/menu/startLemonade.ts:37-39 | Exactly the names of directory entries |
| StartLemonade.CheckSrcStructure | src/menu/startLemonade.ts:29-49 | True iff `src` exists, can be read, and holds every required name as a directory; false on a read error |
| StartLemonade.MissingFolderFails | src/menu/startLemonade.ts:18-42 | One missing required directory fails the check |
| StartLemonade.StandardLayoutPasses | src/menu/startLemonade.ts:18-42 | All eight required directories pass the check |
| StartLemonade.ProjectPath | src/menu/startLemonade.ts:110 | The project path is under the workspace and ends with `/default.project.json` |
| StartLemonade.ServeOptions | src/menu/startLemonade.ts:118-120 | Exactly `--host h --port p` |
| StartLemonade.ServeOptionsNeverWatch | src/menu/startLemonade.ts:118-120 | The serve options never ask to watch |
| StartLemonade.LemonadePort | src/menu/startLemonade.ts:126-136 | The configured port unless a conflict message gives a second digit run |
| StartLemonade.ConflictTakesSecondNumber | src/menu/startLemonade.ts:129-134 | After a conflict the port is the message's second digit run |
| StartLemonade.ConflictWithOneNumberKeepsPort | src/menu/startLemonade.ts:134 | Without a second digit run the configured port is kept |
| StartLemonade.ServedOnConfiguredPort | src/menu/startLemonade.ts:123-136 | A served answer never reports a conflict, so the port stays the configured one |
| StartLemonade.InitCalls | src/menu/startLemonade.ts:60-76 | At most one `init` call, made only when the structure is missing |
| StartLemonade.Run | src/menu/startLemonade.ts:51-180 | Returns before any serve call without a workspace or when initialisation is declined or fails; proceeds only if `src` and `default.project.json` exist; serves with the configured address |
| StartLemonade.StartedOnConfiguredPort | src/menu/startLemonade.ts:126-143 | A started server is announced on the configured port, with no original port kept |
| Util.Names | src/util.ts:23-29 | The entries' names, in order |
| Util.ProjectEntriesExactly | src/util.ts:23-48 | Exactly the file entries ending in `.project.json`, and with `placesOnly` also a `DataModel` tree |
| Util.PlacesAreProjects | src/util.ts:31-48 | `placesOnly` only narrows the projects |
| Util.PlaceEntriesExactly | src/util.ts:60-66 | Exactly the file entries ending in `.rbxl` or `.rbxlx` |
| Util.ResolveProject | src/util.ts:72-82 | An absolute path is kept; a relative one is joined to the workspace, or throws without one |
| Util.LastComponent | src/util.ts:87 | The text after the last `/` |
| Util.JoinEndsWithLast | src/util.ts:81 | A joined path ends with its last part |
| Util.ProjectBaseName | src/util.ts:87 | The last path component with `.project.json` removed |
| Util.ProjectName | src/util.ts:84-88 | The JSON `name`, else the base name without `.project.json` |
| Util.Either | src/util.ts:114-115 | `a \|\| b` on optional strings |
| Util.ProjectAddress | src/util.ts:107-116 | Host is `host \|\| serveAddress`, port is `port \|\| servePort`, and the result is empty on a parse failure |
| Util.ProjectAddressFallback | src/util.ts:114-115 | Each field falls back to the `serve…` one exactly when it is not truthy |
| Util.Version | src/util.ts:119-123 | Nothing when the banner is unavailable; otherwise a trimmed text |
| Util.VersionOfBanner | src/util.ts:121 | `argon-rbx <v>` with trailing whitespace gives `<v>` |
| Installer.PlatformNames | src/installer.ts:40-43 | `darwin` becomes `macos`, `win32` `windows`, anything else is unchanged |
| Installer.ArchNames | src/installer.ts:45-48 | `x86_64` on win32; otherwise `x64` becomes `x86_64`, `arm64` `aarch64`, anything else is unchanged |
| Installer.ReplaceWhole | src/installer.ts:42-43 | Replacing a whole string gives the replacement |
| Installer.AssetFilter.constructor | src/installer.ts:20 | The counter starts at 0 |
| Installer.AssetFilter.Accept | src/installer.ts:29-51 | Throws once two Linux assets were seen (the counter is checked before it is bumped); otherwise selects iff the name contains platform and arch, counting Linux assets |
| Installer.LinuxCount | src/installer.ts:36-38 | The number of Linux assets seen, at most the number of assets |
| Installer.AcceptAll | src/installer.ts:24-52 | Over a release's assets, the predicate's answers are exactly the specified answers |
| Installer.AnswersStep | src/installer.ts:30-50 | One more asset adds one answer and bumps the count for a Linux asset |
| Installer.ThrowsAfterTwoLinuxAssets | src/installer.ts:30-38 | The answer for an asset is a throw iff more than one Linux asset came before it |
| Installer.AnswersLength | src/installer.ts:29-51 | One answer per asset |
| Installer.AnswerAt | src/installer.ts:30-50 | Each answer is a throw after two Linux assets, else whether the asset matches |
| Installer.ExeOnlyOnWindows | src/installer.ts:7-12 | The binary path ends in `.exe` iff the platform is win32 |
| Numbers.SecondDigitRunOf | src/menu/startLemonade.ts:134 | The second digit run of `pre first mid second post` is `second` |
| Numbers.NoSecondDigitRun | src/menu/startLemonade.ts:134 | A text with one digit run has no second |
| Numbers.DigitsAreNumeric | src/menu/serve.ts:57 | A digit string is numeric for `Number` |
| Numbers.NotNumericWithLetter | src/menu/serve.ts:57 | A text with a letter outside the number grammar is not numeric |
| Numbers.ParseNatToString | src/argon.ts:269 | A number's decimal text reads back as the number |
| Strings.TrimOfPadded | src/argon.ts:29 | `trim` removes exactly the surrounding whitespace |
| Strings.SplitJoin | src/argon.ts:29 | Splitting on a character undoes joining with it |
| Strings.RemoveAllConcat | src/config.ts:74 | `replaceAll('"', "")` works piecewise over concatenation |

## Left out

- I/O is not modelled. The model takes as inputs:
  - the child process, as a sequence of runner events;
  - `Date.now()`, as a clock reading;
  - the file system, as directory listings, existence flags and parsed JSON records;
  - every VS Code dialog, as the user's answer;
  - `globalState`/`workspaceState`, as a map;
  - `config`, as the configured host, port and verbosity.
- `logToFile`, the console and the logger are not modelled. Logging becomes the list of entries `log` produces and the `Warning` values that `State` and `GlobalConfig` record; `Registry.WarningText` gives the warning's text.
- Spawning that throws synchronously (src/argon.ts:94-120) is not modelled. The model starts from a spawned process.
- The event loop's ordering between a pattern match and `close` is not modelled. The events arrive in the order given, and the settle-once flag decides what counts.
- `Process.Spawn` holds the closure variables `firstOutput`, `stderrOutput`, `promiseResolved`, the settled value and the log sink together as one `RunState` value, reassigned as a whole by each handler.
- Ids are not globally unique. The lemma `Argon.SameMillisecondRepeatsId` exhibits a repeat; this is the source's behaviour, not a modelling gap.
- The port-conflict branches of the serve flows (src/menu/serve.ts:169-172, src/menu/startLemonade.ts:129-136) are modelled as written. `Argon.ServedAddressNeverReportsConflict` shows they are never taken, because a served address holds no whitespace.
- `Session` has no `type`, `equals`, `withType` or `RestorableSession` in `src/session.ts`, although `src/state.ts:31-33` and the menu flows use them. The model gives `Session` a `sessionType` field defaulting to `Serve`, with equality meaning the same type and project, and `RestorableSession` a record of project, address and `originalPort`.
- `Sessions.Session`: `name`, `project` and `id` are immutable, because no code assigns them after construction.
- `Sessions.Session.WithAddress` takes one argument, as `src/session.ts:15-18` declares it. The `originalPort` that `src/menu/serve.ts:176-178` passes as a second argument is dropped, as it is at run time.
- `Object.entries` order is modelled as insertion order with distinct keys. The order JavaScript gives to integer-like keys is not modelled.
- `Config.Set` ignores `__proto__` as an own key. The other special keys of a plain object are not modelled.
- `path.join`, `path.isAbsolute` and `path.basename` are modelled for `/`-separated paths, without normalising `.` and `..`.
- Strings are modelled as sequences of Unicode scalar values, whereas JavaScript counts and indexes UTF-16 code units. A character outside the Basic Multilingual Plane is therefore one position in the model and two in the source. This matters where a count or an index decides the result. `Process.HasLevelTag`, `Process.FirstStop` and `Process.LevelTagByFirstStop` bound the prefix before `:` at five scalar values, where `.{0,5}` bounds it at five code units, and `.` also matches a lone surrogate. `InitMenu.UpperAscii` treats the first scalar value as the first character, where `charAt(0)` takes the first code unit. Elsewhere only equality, concatenation, prefixes, suffixes and substring tests are used, and these agree under either encoding.
- `InitMenu.UpperAscii`: `toUpperCase` is modelled for ASCII letters only.
- `InitMenu.Sort`: `Array.prototype.sort` with the source's comparator is modelled as a stable insertion sort. Listed templates come first in priority order. The order among unlisted templates, which the comparator leaves undefined, is not stated.
- Quick-pick results are assumed to be entries of the option table they were shown, with their keys and flags.
- `src/menu/init.ts` imports `getArgonPath` from `src/util.ts`. The template listing is therefore an input, and the directory it comes from is not modelled.
- The `argon.studio` command and the information messages of `src/menu/startLemonade.ts` are not modelled. `StartLemonade.Run` records only whether Studio was asked for.
- `StartLemonade.CheckSrcStructure`: the error message shown on a read error of `src` is not modelled, only the `false` result.
- `Numbers.IsNumeric` models `!isNaN(Number(s))` for decimal, `Infinity` and `0x`/`0o`/`0b` literals after trimming. Numeric separators and other engine details are not modelled.
- `Installer.verify` (`fs.existsSync`), the directory creation, the `downloadRelease` network call and the final `--version` run of `install` are not modelled. Only the asset predicate and the binary path are.
- `src/logger.ts`, `src/extension.ts`, `src/commands/*` and the menu files that only dispatch or are commented out are not part of this model.
