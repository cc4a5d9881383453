# iGeoFake process manager — a Dafny model

iGeoFake moves the reported location of an iPhone by driving the
`pymobiledevice3` command-line helper (or, offline, the `mock_cli.py`
stand-in). Its `ProcessManager` supervises three long-running helper processes:

- **Tunnel A**: the `remote tunneld` service.
- **Tunnel B**: `lockdown start-tunnel`. It prints the RSD endpoint
  `--rsd <ip> <port>`.
- **Simulate**: one simulate-location process that holds a location or plays
  a GPX route.

The manager moves through six states: Stopped, Starting, Tunnel A Running,
Connected (RSD Found), Simulating... and Error. It reports every log line and
every status change through two callbacks.

This project models that core:

- **`Text`** (`text.dfy`): string helpers the core relies on.
  - Python's `str.strip()` on the ASCII whitespace it removes.
  - `' '.join`.
  - `list.index`.
  - Reading the two tokens after a flag.
- **`RsdScanner`** (`rsd_scanner.dfy`): the search for the endpoint pattern
  `--rsd\s+([a-f0-9:]+)\s+(\d+)`.
  - The executable part is a greedy matcher at one position, a leftmost
    search and the scan.
  - The declarative part is a layout predicate saying when a line announces an
    endpoint at a position.
  - Lemmas show the two agree in both directions.
- **`Commands`** (`commands.dfy`): `_get_command`, the token list of each
  logical command in the mock and real modes.
- **`MockCli`** (`mock_cli.dfy`): the argv dispatch of the offline helper's
  `main()`, and the round trip from a built command to the helper's action.
- **`Termination`** (`termination.dfy`): `_kill_process`, the polite terminate
  with a two-second grace period, then a forced kill.
  - The operating system's answers are inputs.
  - The result is the signals sent and the lines logged.
- **`ProcessManager`** (`process_manager.dfy`): the manager itself.
  - The session is an immutable record: state, the three tracked process
    handles, the endpoint, and a handle counter that stands in for Python's
    object identity.
  - Each public coroutine is a transition that returns a `Step`. A `Step` is
    the new session plus the logs, status callbacks, launches and kills the
    call produced.
  - The two background tasks of each spawned process are events:
    - a line read from its output (`OnOutput`);
    - its exit (`OnExit`).
  - `Run` folds any sequence of calls and events, and keeps the session
    invariant `Valid`.
- **`ManagerInvariants`** (`manager_invariants.dfy`): properties of whole
  sessions.
  - The endpoint is set in full or not at all.
  - Detached processes exit quietly.
  - A repeated announcement is reported once.
  - Launched commands carry the request.
  - An end-to-end session, and set-then-clear restoring the session.

Each public coroutine is modelled as one atomic step. At its await point (the
kill of the previous simulation, the kill of every process during a stop)
events may arrive. The lemmas reason about them on the session as it is at
that point (`SimAwaitPoint`, `Detached`).

The model records these behaviours of the code as written:

- **Stale announcement.** The output reader does not check that its process is
  still tracked. An announcement read from a Tunnel B that `stop_services`
  has already detached stores the endpoint. It also moves a Stopped session
  to Connected (`StaleAnnouncementAfterStop`).
- **Orphaned Tunnel B.** `start_tunnel_a` from Error neither kills nor
  detaches a Tunnel B still tracked from the failed session. Starting Tunnel B
  again overwrites that handle without a kill (`RestartAfterErrorOrphansTunnelB`).
- **Starting after Tunnel B.** A successful `start_tunnel_b`
  leaves the state at Starting. Only an announcement moves it to Connected.

## Model

| member | source | states |
|---|---|---|
| Text.Strip | process_manager.py:59 | the stripped line is the infix between the leading and trailing whitespace runs: everything outside it is whitespace, its first and last characters are not, and it is empty exactly when the line is all whitespace |
| Text.IndexOf | igeofake/mock_cli.py:71-72 | `None` exactly when the token is absent; otherwise the index holds the token and no earlier index does (the first occurrence) |
| Text.FirstFlagReads | igeofake/mock_cli.py:71-82 | for every position holding the first occurrence of the flag, the two tokens after it are what is read; when no such position is followed by two tokens nothing is read |
| Text.PairAfter | igeofake/mock_cli.py:71-74 | something is read exactly when the flag occurs and its first occurrence is followed by two tokens, and then it is those two tokens |
| Text.Join | process_manager.py:111 | the joined line of no tokens is empty, and otherwise starts with the first token |
| Text.SplitJoin | process_manager.py:111 | joining space-free tokens with single spaces loses nothing: splitting the line at its spaces gives the tokens back |
| Text.NatToStringReadsBack | process_manager.py:275 | the rendering of a natural number is a non-empty run of decimal digits, without a leading zero unless it is "0", that reads back as the number |
| Text.IntToStringReadsBack | process_manager.py:275 | the rendering of an integer starts with a minus sign exactly when it is negative, and the rest is decimal digits without a leading zero, unless the magnitude is 0, that read back as its magnitude |
| Text.PairAfterFirstFlag | igeofake/mock_cli.py:71-74 | when the first occurrence of a flag is followed by two tokens, those two tokens are what is read |
| RsdScanner.Scan | process_manager.py:65-68 | the captured endpoint is a non-empty address of hex digits and colons and a non-empty all-digit port, the shapes the session stores (its meaning is ScanIsLeftmostAnnouncement) |
| RsdScanner.MatchAt | process_manager.py:65 | a match at a position yields a non-empty address of hex digits and colons and a non-empty all-digit port |
| RsdScanner.Find | process_manager.py:65 | the search returns a position where the pattern matches and no earlier position matches (leftmost match), or none when no position from the starting index on matches |
| RsdScanner.MatchAtIffAnnounced | process_manager.py:65-68 | the matcher at a position returns (ip, port) if and only if the line there is `--rsd`, whitespace, ip, whitespace, port with maximal runs, i.e. the regex's groups 1 and 2 |
| RsdScanner.MatchAtNoneIffSilent | process_manager.py:65-66 | the matcher at a position finds nothing exactly when the line announces no endpoint there |
| RsdScanner.ScanIsLeftmostAnnouncement | process_manager.py:65-68 | the scan returns (ip, port) if and only if some position announces (ip, port) and no earlier position announces anything |
| RsdScanner.ScanNoneIffSilent | process_manager.py:65-66 | the scan finds nothing exactly when no position of the line announces an endpoint |
| RsdScanner.ScanReadsAnnouncement | igeofake/mock_cli.py:26 | the line `--rsd <ip> <port>` that the helper prints scans back to exactly (ip, port) |
| Commands.GetCommand | process_manager.py:296-342 | a command exists exactly when the arguments can be read (mock needs four or more, real exactly four); an unknown type gives the empty list; a known type starts with the interpreter or executable, and mock commands continue with `mock_cli.py` and the type |
| Commands.RealLayouts | process_manager.py:322-341 | whatever the arguments, including none as the manager passes them, the real tunnel commands are exactly `remote tunneld` and `lockdown start-tunnel` and the clear command is `developer dvt simulate-location clear`; with four arguments, set and play are `developer dvt simulate-location set/play --rsd ip port -- a b` |
| Commands.MockLayouts | process_manager.py:297-308 | whatever the arguments, including none, the mock tunnel and clear commands are exactly the interpreter, `mock_cli.py` and the mode; with four or more arguments, set_location and play add `-- a b` from the last two of the four |
| Commands.PayloadFollowsSeparator | process_manager.py:303-339 | in both modes the two payload values are exactly the two tokens after the first `--` |
| Commands.EndpointFollowsRsdFlag | process_manager.py:326-339 | in the real mode the endpoint is exactly the two tokens after `--rsd` |
| MockCli.Decode | igeofake/mock_cli.py:55-87 | usage exactly when argv has fewer than two entries; tunnel_a, tunnel_b and clear_location start their own actions and set_location a set-location action; an unknown mode exactly when the mode is none of the four handled ones, and it carries that mode; never a route |
| MockCli.ExitCode | igeofake/mock_cli.py:55-87 | the helper exits with 1 exactly for the usage message, returns with 0 exactly after the clear action or an unknown mode, and otherwise runs until it is killed |
| MockCli.SetLocationReadsSeparator | igeofake/mock_cli.py:69-74 | set_location reads latitude and longitude from the two tokens after the first `--` |
| MockCli.SetLocationDefaults | igeofake/mock_cli.py:75-82 | with no `--`, or fewer than two tokens after the first one, set_location falls back to ("0.0", "0.0") |
| MockCli.SetLocationRoundTrip | igeofake/mock_cli.py:66-79 | the helper started by the mock set_location command reads back the coordinates it was built with, for every endpoint and coordinate pair |
| MockCli.MockPlayIsUnknown | igeofake/mock_cli.py:59-87 | the helper started by the mock play command decodes to an unknown mode and returns with exit code 0 |
| MockCli.DecodeWithPlay | igeofake/mock_cli.py:59-87 | the corrected dispatch starts a route for `play`, read from the two tokens after the first `--` of argv, or ("0.0", "0.0") when there is no `--` or fewer than two tokens follow it; every other argv is dispatched as written |
| MockCli.MockCommandsRoundTrip | process_manager.py:297-308 | with the corrected dispatch, every command the mock builder emits starts the action it was built for in the helper |
| Termination.KillProcess | process_manager.py:270-294 | an exited process gets no signal and no log; otherwise the signals are exactly the terminate, followed by the forced kill exactly when the terminate went through and the grace period ran out, and the killing line comes first; the escalation line is logged exactly when the forced kill is sent; the lines are exactly the killing line, the escalation line when the forced kill was sent, and the error line when a fault other than a lookup failure was met, in that order, so no line is logged twice |
| ProcessManager.LabelsDistinct | process_manager.py:11-16 | the six states are published as six different status strings |
| ProcessManager.Construct | process_manager.py:19-36 | a new manager is Stopped with nothing tracked and no endpoint, and logs the mock notice only in the mock mode |
| ProcessManager.StopServices | process_manager.py:246-268 | every tracked process, and only those, is killed in the order simulation, Tunnel B, Tunnel A; afterwards nothing is tracked, the endpoint is cleared, and the state is Stopped |
| ProcessManager.FailStart | process_manager.py:128-131 | a failed start reports Starting, Error and Stopped in that order, logs the failure after the lines before it and then the stop lines, and ends as a full stop of the session |
| ProcessManager.StartTunnelA | process_manager.py:99-131 | refused with a log unless Stopped or Error; otherwise clears the endpoint, logs the command and launches it under a fresh handle (Tunnel A Running), or on a spawn failure logs the critical error and stops everything; keeps the session invariant |
| ProcessManager.StartTunnelB | process_manager.py:133-161 | refused unless Tunnel A Running; otherwise logs the command and launches it under a fresh handle and stays Starting, or on a spawn failure logs the critical error and stops everything; never reports Connected |
| ProcessManager.StartSimulation | process_manager.py:163-219 | refused without an endpoint; otherwise kills the previous simulation, launches the command for the stored endpoint under a fresh handle and moves to Simulating; a spawn failure only logs its error after the command line, leaving no simulation tracked |
| ProcessManager.SetLocation | process_manager.py:163-190 | the launched simulation is the set_location command for the stored endpoint and the given coordinates |
| ProcessManager.PlayRoute | process_manager.py:192-219 | the launched simulation is the play command for the stored endpoint and the given route and noise |
| ProcessManager.ClearLocation | process_manager.py:221-244 | the simulation is detached and killed, Simulating falls back to Connected, nothing else in the session changes, and the clear command runs to completion; the log shows the command and then "Location cleared." or the error |
| ProcessManager.OnOutput | process_manager.py:53-75 | a blank line changes nothing; any other line is echoed with its process name; only a Tunnel B line that announces a different endpoint stores it, logs the discovery and reports Connected unless Simulating; tracked processes never change |
| ProcessManager.OnExit | process_manager.py:77-97 | the exit changes the session exactly when the process is still the tracked one for its role, the code is non-zero, and the state is neither Stopped nor Error; then it logs the error and moves to Error |
| ProcessManager.Apply | process_manager.py:53-268 | every call or event keeps the session invariant and tracks no handle that was not tracked before except fresh ones |
| ProcessManager.Run | process_manager.py:18-294 | any sequence of calls and events keeps the session invariant: endpoint set in full or not at all, well-formed, distinct handles for the three roles |
| ManagerInvariants.EndpointBothOrNeither | process_manager.py:70-72 | from a new manager, after any sequence of calls and events, the endpoint ip is set exactly when the port is |
| ManagerInvariants.DetachedExitIgnored | process_manager.py:81-92 | a handle no longer tracked is never tracked again, and its exit is ignored whatever happens in between |
| ManagerInvariants.StoppedProcessesExitQuietly | process_manager.py:249-265 | the exits of the processes stop_services kills are ignored, both while the kills are awaited and afterwards |
| ManagerInvariants.SupersededSimulationExitsQuietly | process_manager.py:168-173 | a new simulation kills exactly the previous one, whose exit is ignored from the await point on |
| ManagerInvariants.ClearedSimulationExitsQuietly | process_manager.py:221-229 | clear_location, which needs no endpoint, kills exactly the current simulation, and that simulation's exit is ignored from the await point on |
| ManagerInvariants.RepeatedAnnouncementReportedOnce | process_manager.py:66-75 | a line announcing a new endpoint stores it, logs the discovery and reports Connected unless Simulating on the first read; the second read of the same line only echoes it and changes nothing |
| ManagerInvariants.DistinctAnnouncementsReportedTwice | process_manager.py:66-75 | two `--rsd <ip> <port>` lines for different endpoints, read from Tunnel B on a session without an endpoint, are both reported, and the second endpoint is stored |
| ManagerInvariants.OnlyTunnelBIsScanned | process_manager.py:123-155 | output of Tunnel A or of the simulation never changes the session or the status |
| ManagerInvariants.StaleAnnouncementAfterStop | process_manager.py:53-75 | an announcement read after stop_services moves the stopped session to Connected with the endpoint set and nothing tracked |
| ManagerInvariants.AnnouncementLineReadBack | process_manager.py:59-68 | the announcement line survives stripping and scans back to its endpoint |
| ManagerInvariants.SetLocationLaunchCarriesRequest | process_manager.py:176-183 | the launched set_location command carries the coordinates after `--`; in the real mode it carries the endpoint after `--rsd`; in the mock mode the helper decodes the coordinates |
| ManagerInvariants.MockRouteNeverPlays | process_manager.py:205-216 | in the mock mode the play helper decodes to an unknown mode and exits with 0, and the session stays Simulating |
| ManagerInvariants.RestartAfterErrorOrphansTunnelB | process_manager.py:99-161 | restarting from Error keeps an old Tunnel B tracked without a kill, and starting Tunnel B again drops it without a kill |
| ManagerInvariants.EndToEndSession | process_manager.py:99-161 | from a new manager, starting Tunnel A, starting Tunnel B and reading the endpoint it announces pass through Tunnel A Running and Starting to a Connected session that tracks both tunnels and holds that endpoint |
| ManagerInvariants.SetThenClearRestores | process_manager.py:163-244 | on a Connected session, setting a location launches the set_location command for the stored endpoint, and clearing it kills exactly that simulation, runs the clear command and restores the session, the handle counter aside |

## Left out

- Scheduling: the asyncio scheduler is not modelled.
  - Each public coroutine is one atomic step. Events that arrive at its await
    point are reasoned about on the await-point session.
  - Interleavings that land inside a step are not modelled. Examples: two
    overlapping `set_location` calls, or a line read while `stop_services`
    awaits its kills.
- Process spawning: `asyncio.create_subprocess_exec` and the environment copy
  with `PYTHONUNBUFFERED` are not modelled. Their outcome (`Spawned` or
  `SpawnFailed(reason)`) is an input.
- Callback order: a `Step` keeps the log lines and the reported states in two
  separate sequences. Each sequence is in order, but how the log and status
  callbacks interleave is not recorded. For example, a failed `start_tunnel_a`
  reports Starting, logs two lines, reports Error, and logs again before
  reporting Stopped.
- Stream reading: the reader's end-of-stream exit is not modelled. Decoding
  bytes as UTF-8 with replacement is not modelled either: a line arrives as
  characters.
- Text.Strip: removes only the ASCII whitespace of Python's `str.strip()`,
  including U+001C to U+001F. Non-ASCII whitespace such as U+0085, U+00A0 and
  U+2000 to U+200A is kept, because the model's characters are not classified by
  Unicode category. The same set stands for `\s` in the endpoint pattern.
- RsdScanner.Scan: `\d` is the ASCII digits only. Python's `\d` on str also
  matches other Unicode decimal digits, for the same reason.
- `is_mock`: the platform and environment test that sets it is not modelled.
  The `Mode` is an input.
- `check_admin`: not modelled. It has no effect on the state machine.
- The executable path: resolving it from `sys.frozen` and the platform is not
  modelled. The path is part of the `Real` mode.
- The forced kill: the `taskkill /F /T` branch and `proc.kill()` are not
  distinguished. Both are `ForceKill`.
- The grace period: the two-second wait is not modelled as time. Whether the
  process exits within it is an input.
- Process ids: a `pid` is a parameter of `KillProcess`. The session tracks
  abstract handles, and the kill of each handle appears as a `kills` entry.
- `MockCli`: the print and sleep bodies of the helper's actions are not
  modelled. So are the unused argparse parser, and the helper's infinite loops
  beyond the fact that they run until killed.
- `main.py` (the user interface), `build.py` and `static/marker_drag.js` are
  not part of this model.

## Findings

| source | as written | input that shows it | evidently intended | confidence | as-written member | corrected member |
|---|---|---|---|---|---|---|
| igeofake/mock_cli.py:59-87 | The dispatch handles tunnel_a, tunnel_b, set_location and clear_location but not `play`. The mock command play_route builds (process_manager.py:305-306) prints an unknown-mode line and exits with 0 instead of playing the route, and the session stays Simulating. | argv `["mock_cli.py", "play", "--", "route.gpx", "0"]` | a `play` mode that reads the route and noise after `--`, as set_location reads its coordinates (`MockCli.DecodeWithPlay`) | high, not executed | MockCli.MockPlayIsUnknown | MockCli.MockCommandsRoundTrip |
