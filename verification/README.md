# NPM Commander script supervisor, in Dafny

NPM Commander is an Electron application. It opens a project folder, reads its
`package.json`, and runs and stops the folder's npm scripts as child processes,
streaming their output to the window. All of that logic lives in `main.js`. This
project models its core: the table of running scripts (`activeProcesses`) and
every handler that reads or writes it. It also models the command line those
handlers spawn, and the `load-project` and `get-default-path` logic around the
saved last project.

The supervisor is a state machine with one pure step function per event:

- the requests `run-script`, `stop-script`, `get-running-scripts` and `install-deps`;
- a child's `data` and `close` events;
- the application's `window-all-closed` event.

A step returns three things:

- the new state;
- the reply to the request;
- the effects, in order: `Spawn(pid, command)`, `Kill(pid, SIGTERM)` and
  `Send(channel, message)`.

`safeSend` drops messages once the window is gone, so a `Send` appears only
while the window is alive.

The state has four parts:

- the table, as its list of entries in insertion order, because a JavaScript
  `Map` keeps keys in that order and `Array.from(keys())` and `forEach` follow it;
- the listeners attached to each child that has not closed yet, that is, the
  script name they captured, or the `install-deps` listener;
- the next abstract process id;
- whether the window is alive.

JavaScript runs each handler to completion, and no handler awaits between
reading and writing the table. A sequential step function is therefore faithful
to the source, and the has-then-set in `run-script` is atomic.

Files:

- `opt.dfy`: `Option`.
- `registry.dfy`: the `Map` of running scripts. `View` is the name-to-pid map it
  denotes.
- `command.dfy`: `runNpmCommand`, plus a reference word splitter for the shell
  command line.
- `supervisor.dfy`: the state, the events and one handler per event.
- `supervisor_properties.dfy`: properties that span several steps or whole
  event sequences.
- `fixed_close.dfy`: the `close` listener with the identity check it lacks (see
  Findings).
- `project.dfy`: `load-project`, `getLastPath`, `saveLastPath` and
  `get-default-path` over parsed JSON values.

Points of the code's behaviour that are easy to miss:

- The last path is saved as soon as `package.json` exists, before parsing. A
  manifest that fails to parse is therefore still remembered
  (`Project.LoadProject`, `Project.LoadThenDefault`).
- No listener is attached to a child's `error` event, so a spawn failure
  produces no reply or message of its own.
- A `close` that arrives after its script was stopped and started again
  unregisters the new run (see Findings).

## Model

| member | source | states |
|---|---|---|
| Registry.Get | main.js:189 | `get` finds a name exactly when the name is in the table's map, and returns the pid it maps to |
| Registry.Has | main.js:152 | `has` is true exactly for the names the table maps |
| Registry.Set | main.js:158 | `set` maps the name to the new pid and keeps every other entry; a new name goes last, and the table keeps each name once |
| Registry.Delete | main.js:192 | `delete` removes exactly that name's entry and keeps the other entries, and their names, in insertion order; it leaves the table as it was when the name is absent, and keeps each name once |
| Registry.Keys | main.js:200 | `Array.from(keys())` lists exactly the names the table maps, in insertion order |
| Registry.KeysDistinct | main.js:199-201 | in a `Map`, that list names each script once |
| Command.NpmCommand | main.js:38-45 | `runNpmCommand` spawns `/bin/zsh -lc` on one line in `cwd`, with `FORCE_COLOR=1`; for plain non-empty arguments the line's words are `npm` followed by the arguments |
| Command.PlainWords | main.js:40 | `npm ` followed by plain non-empty words joined with spaces splits back into `npm` and those words |
| Command.RunCommand | main.js:38-45 | `run-script` spawns `/bin/zsh -lc "npm run <name>"` in the project directory, with `FORCE_COLOR=1` |
| Command.InstallCommand | main.js:216 | `install-deps` spawns `/bin/zsh -lc "npm install"` in the project directory, with `FORCE_COLOR=1` |
| Command.SplitJoin | main.js:40 | splitting at the separator undoes `join`, provided no part contains the separator |
| Command.RunCommandWords | main.js:40-41 | for a non-empty script name without spaces, the shell line splits into the words `npm`, `run` and the name |
| Command.SpacedNameSplits | main.js:40-41 | the name is not quoted: the script `dev server` reaches npm as two words |
| Supervisor.SafeSend | main.js:31-35 | a message is sent, once, exactly when the window is alive, and is dropped otherwise |
| Supervisor.Run | main.js:151-185 | a running name is refused with `Script '<name>' is already running`, with no spawn and no state change; otherwise exactly one spawn of `npm run <name>` in `projectPath` under a fresh pid, that name added last, every other entry kept, listeners attached, and `{success: true}` |
| Supervisor.Stop | main.js:188-196 | a registered name gets SIGTERM sent to its own process and is removed alone, the other names keeping their order, and the reply is success; otherwise `Script not running`, with no signal and no change |
| Supervisor.Running | main.js:199-201 | the reply lists exactly the registered names, each once, and changes nothing |
| Supervisor.Install | main.js:214-238 | `install-deps` spawns `npm install` under a fresh pid, leaves the table untouched, and stays pending |
| Supervisor.Data | main.js:160-174 | a chunk from a live child is sent on `script-output`, tagged with the child's script name or `install`, and only while the window is alive |
| Supervisor.Close | main.js:176-182 | a script child's close deletes the table entry for its captured name, the other names keeping their order, and sends one `script-exit {script, code}` while the window is alive; an install child's close resolves `{success: code === 0}` and leaves the table alone |
| Supervisor.KillAll | main.js:73-75 | every registered process is sent SIGTERM, one signal per entry, in the table's order |
| Supervisor.Shutdown | main.js:71-76 | `window-all-closed` signals every registered process once, spawns nothing, and empties the table |
| Supervisor.Step | main.js:7 | every event keeps the table a `Map` whose entries are live children listening under that name |
| Supervisor.After | main.js:150-201 | any sequence of events keeps that invariant |
| SupervisorProperties.DuplicateRunRejected | main.js:151-158 | of two runs of the same name, the first succeeds and the second is refused, and exactly one child is spawned |
| SupervisorProperties.StopThenRun | main.js:188-194 | after a successful stop, a run of the same name succeeds at once |
| SupervisorProperties.StopUnregistered | main.js:189-195 | stopping an unregistered name answers `Script not running` and signals nothing |
| SupervisorProperties.ExitOfRegistered | main.js:176-182 | after a registered child's close, its name is no longer listed, one `script-exit` was sent, and a repeated close does nothing |
| SupervisorProperties.StopKeepsOrder | main.js:192-200 | a stop removes exactly the stopped name's position from what `get-running-scripts` lists, and its signal from the order in which `window-all-closed` signals the rest (main.js:73) |
| SupervisorProperties.ShutdownThenList | main.js:71-76 | after `window-all-closed`, every registered process has been signalled and `get-running-scripts` answers `[]` |
| SupervisorProperties.InstallsRunConcurrently | main.js:214-238 | two installs in a row spawn two different children and leave the table as it was |
| SupervisorProperties.LateCloseUnregistersNewerRun | main.js:176-182 | after stop and re-run, the stopped child's late close unregisters the new run while that child is still alive |
| SupervisorProperties.LateCloseExample | main.js:176-182 | concrete run: after that, a third run starts a second live `dev`, and shutdown never signals the orphan |
| SupervisorProperties.BuildScenario | main.js:151-185 | run `build`, refused re-run, exit with code 0: the exit is reported and nothing is listed |
| SupervisorProperties.OnlyRunRegisters | main.js:158 | along any event sequence without `run-script`, the set of running names only shrinks |
| SupervisorProperties.SilentStep | main.js:31-35 | with the window gone, any single event sends nothing and leaves the window gone |
| SupervisorProperties.SilentAfterShutdown | main.js:31-35 | once the window is gone, no later event sends it anything |
| FixedClose.CloseFixed | main.js:176-182 | corrected close: only an entry holding the closing process is removed; every other entry is kept; replies and messages are as written |
| FixedClose.StepFixed | main.js:176-182 | the corrected machine keeps the same invariant |
| FixedClose.RegisteredUntilStoppedOrExited | main.js:176-182 | with the correction, a registered script keeps its entry and process until it is stopped, its own process closes, or the window closes |
| FixedClose.LateCloseKeepsNewerRun | main.js:176-182 | with the correction, after stop and re-run the late close keeps the new run registered under its own pid |
| FixedClose.LateCloseExampleFixed | main.js:176-182 | concrete run with the correction: `dev` stays listed, a third run is refused, and shutdown signals the live child |
| Project.LoadProject | main.js:108-136 | no manifest: `No package.json found in this folder` and nothing saved; a manifest: the path is saved before parsing, a read or parse error is returned as its message, and a `null` document fails on reading `name`; otherwise each field is the manifest's value when truthy, else `Unknown Project`, `0.0.0` or `{}` |
| Project.Or | main.js:125-129 | JavaScript's "or" default never yields a falsy field: the result is the fallback or a truthy field, a truthy field always wins, and a truthy fallback makes the result truthy |
| Project.LastPath | main.js:13-21 | a saved path is offered exactly when the settings are an object whose `lastProjectPath` is truthy, and is that value; every failure yields `null` |
| Project.Saved | main.js:24-28 | what `saveLastPath` writes reads back, through `getLastPath`, as the saved path whenever that path is non-empty |
| Project.DefaultPath | main.js:92-105 | the saved path is chosen exactly when it is a non-empty string that exists on disk; otherwise the fallback |
| Project.LoadThenDefault | main.js:115-116 | what `load-project` saves, `get-default-path` offers next, if the path is non-empty and exists, even when the manifest did not parse |
| Project.EmptyManifestDefaults | main.js:124-132 | the manifest `{}` yields `Unknown Project`, `0.0.0` and three empty objects |

## Left out

- Window creation, `activate` and the platform check before `app.quit()`
  (main.js:47-87): user-interface lifecycle. After `window-all-closed` the
  window stays gone in the model.
- The `select-folder`, `open-url` and `open-in-finder` handlers: they are
  calls into Electron's dialog and shell modules.
- Real processes, pipes and signal delivery. Pids are abstract, and a child's
  output chunks and its `close` are input events. That `close` comes after the
  last chunk is a guarantee of Node's runtime, assumed rather than proved.
- A `data` or `close` event for a pid that was never spawned, or that has
  already closed, changes nothing. The runtime never produces one.
- A spawn failure (the child's `error` event): the source attaches no listener
  for it.
- File reads and writes and `JSON.parse`. Whether a file exists, the parsed
  value or the exception's message, and path existence are inputs. The
  settings file is modelled only as absent, unreadable or parsed, because
  every error is swallowed.
- The application-relative fallback of `get-default-path` (`path.dirname` and
  the packaged-app executable path): it is a parameter.
- `Project.LoadProject`: does not model the text of exception messages from
  reading or parsing. They are inputs, and only the `null`-manifest message is
  fixed, as V8's wording.
- JSON numbers are exact decimals, so floating-point rounding is not modelled.
  Only their truthiness (zero or not) matters here.
- `Command.RunCommandWords`: shell word splitting is modelled only for plain
  words separated by single spaces. Quotes, `$`, `;` and other metacharacters
  are not modelled. `Split` keeps empty pieces, which the shell drops, so the
  word statements are made only for non-empty words.
- The context bridge in preload.js maps method names to channels and has no
  logic of its own.

## Findings

| source | as written | input that shows it | evidently intended | confidence | as-written member | corrected member |
|---|---|---|---|---|---|---|
| main.js:176-182 | the `close` listener deletes the entry for its captured script name, whichever process that entry now holds | run `dev` (child 0), stop `dev`, run `dev` (child 1), then child 0 closes: `dev` is unlisted while child 1 runs, a new run starts a second `dev`, and `window-all-closed` never signals child 1 | remove the entry only while it still holds the closing process, so that the late close leaves the table alone (it still reports `script-exit` for the stopped child) | medium, not executed | SupervisorProperties.LateCloseUnregistersNewerRun | FixedClose.CloseFixed |
