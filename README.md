# vinegar launcher core in Dafny

This project models the core of vinegar, a launcher that runs Roblox Player and Roblox Studio under Wine on Linux. It covers two parts of the `cmd/vinegar` program:

- **The `Binary` lifecycle** (`cmd/vinegar/binary.go`):
  - where each binary's wineprefix lives;
  - first-run initialisation (Player: `Prefix.Init`; Studio: `SetDPI(97)`), then the WebView install;
  - the protocol-URI channel override;
  - building the launch command, including the `roblox-studio:1` rewrite and the optional launcher wrapper;
  - the run itself: Discord RPC, the multiple-instance mutexer and the process;
  - the post-launch task: finding the Roblox log file by watching its directory with a timeout, closing the splash, registering with GameMode, and tailing the log into the Discord activity handler.
- **The `vinegar` command** (`cmd/vinegar/vinegar.go`):
  - the subcommand router, and which subcommands need the configuration and a prefix directory;
  - `exec`, `sysinfo`, `kill`, `install-webview2`, `winetricks`, `delete`, `edit` and `uninstall`;
  - the player/studio flow. It initialises a missing prefix (`wineboot -i`, then DPI 97), then runs Setup and Run. Its error handler either ends the program or puts the splash window into its error view and waits.

The two files come from different revisions of the program. Each is modelled on its own terms:

- `binary.dfy` is the `Binary` of binary.go.
- `vinegar.dfy` is the main program of vinegar.go, which drives its binary through `Setup` and `Run` only.

The model is organised as follows:

- **Collaborators.** Every collaborator whose code is outside the core appears only through its outcomes, given as inputs in host records. These are the configuration and state loaders, the wine prefix commands, the log-file creator, fsnotify, tail, the Discord connection and the mutexer.
- **Traces.** What the program does is a trace of calls or actions, in order, plus how it ends.
- **State.** Objects whose fields the source updates in place are classes:
  - the binary, with its per-binary configuration (`Channel` and `DiscordRPC` change during a run);
  - the splash window (message, description, log path and state).
- **Loops.** The protocol-URI token loop, the log-file wait, the tail loop and the uninstall loop are `while`/`for` loops. Each one is proved against a specification function.

| file | module | models |
|---|---|---|
| errors.dfy | Errors | Go errors as plain or wrapped messages; `Option`, `Result`, `Status` |
| go_strings.dfy | GoStrings | `strings.Split`, `Join`, `HasPrefix`, `Fields` (with `unicode.IsSpace`), `filepath.Join` |
| roblox.dfy | Roblox | binary types and `BinaryPrefixDir` |
| splash.dfy | SplashScreen | the splash window's state |
| protocol_uri.dfy | ProtocolUri | the channel a protocol URI selects |
| launch_command.dfy | LaunchCommand | the Studio protocol rewrite and the launcher wrapper |
| log_discovery.dfy | LogDiscovery | `RobloxLogFile` |
| post_launch.dfy | PostLaunch | the post-launch task's actions |
| binary.dfy | Lifecycle | class `Binary`: `Main` (as `Start`), `HandleProtocolURI`, `Run`, `Tail`, `Command` |
| router.dfy | Router | vinegar.go's subcommand dispatch and usage message |
| vinegar.dfy | Vinegar | vinegar.go's `main` (as `Dispatch`), `PrefixInit`, error handler, `Uninstall` |

## Model

| member | source | states |
|---|---|---|
| Roblox.PrefixDirPerType | cmd/vinegar/binary.go:61-63 | each binary's prefix is exactly `<prefixes>/player` or `<prefixes>/studio` (no doubled separator when the directory ends in `/`, just the name when it is empty), so the two prefixes differ |
| GoStrings.JoinPath | cmd/vinegar/binary.go:62 | the joined path starts with the directory and ends with the name |
| GoStrings.JoinSplit | cmd/vinegar/binary.go:196-198 | joining the pieces of `strings.Split` with the separator gives back the string |
| GoStrings.SplitJoin | cmd/vinegar/binary.go:196-198 | splitting a join of separator-free pieces gives back the pieces |
| GoStrings.SplitLength | cmd/vinegar/binary.go:196-198 | `strings.Split` gives one piece more than there are separators |
| GoStrings.SplitPiecesFree | cmd/vinegar/binary.go:196-198 | no piece of `strings.Split` contains the separator |
| GoStrings.SplitConcat | cmd/vinegar/binary.go:196-198 | splitting at a separator splits the two sides independently |
| GoStrings.SplitNoSep | cmd/vinegar/binary.go:198 | a string without the separator is a single piece |
| GoStrings.FieldsWellFormed | cmd/vinegar/binary.go:364 | `strings.Fields` gives non-empty, space-free fields whose concatenation is the string without its white space |
| GoStrings.FieldsEmptyIffBlank | cmd/vinegar/binary.go:364-365 | the launcher has no fields exactly when it is all white space |
| GoStrings.NonEmptyKeeps | cmd/vinegar/binary.go:364 | dropping empty pieces keeps only non-empty pieces of the input and loses no character |
| GoStrings.NonEmptyAppend | cmd/vinegar/binary.go:364 | dropping empty pieces keeps the order: it distributes over concatenation |
| GoStrings.NonEmptyIdentity | cmd/vinegar/binary.go:364 | pieces that are all non-empty are kept as they are |
| GoStrings.FieldsJoin | cmd/vinegar/binary.go:364 | `strings.Fields` of non-empty, space-free words joined by single spaces gives back the words |
| GoStrings.SplitSpacesPieces | cmd/vinegar/binary.go:364 | splitting at white space leaves no white space and loses no other character |
| GoStrings.NonSpaceEmpty | cmd/vinegar/binary.go:364-365 | a string has no non-space character exactly when it is blank |
| ProtocolUri.TokenChannelIff | cmd/vinegar/binary.go:198-204 | a `+`-token selects channel `v` exactly when it is `channel:v` with a non-empty, colon-free `v` |
| ProtocolUri.NoColonNoOverride | cmd/vinegar/binary.go:198-200 | a token without a colon never changes the channel |
| ProtocolUri.ChannelAfterConcat | cmd/vinegar/binary.go:197-209 | processing two token lists in a row is processing their concatenation |
| ProtocolUri.LastOverrideWins | cmd/vinegar/binary.go:197-209 | with no overriding token the channel is unchanged; otherwise the last overriding token's value wins |
| ProtocolUri.ChannelFromTokens | cmd/vinegar/binary.go:197-209 | the resulting channel is the old one or the value of some overriding token |
| ProtocolUri.SetsChannel | cmd/vinegar/binary.go:195-209 | `channel:v` sets the channel to `v` |
| ProtocolUri.EmptyValueKeepsChannel | cmd/vinegar/binary.go:201-203 | `channel:` with an empty value keeps the channel |
| ProtocolUri.LaterPartWins | cmd/vinegar/binary.go:196-209 | the URI's `+`-parts apply left to right |
| Lifecycle.Binary.HandleProtocolURI | cmd/vinegar/binary.go:195-210 | the new channel is the URI's channel applied to the old one, and nothing else changes |
| LaunchCommand.StudioProtocolInFirstArg | cmd/vinegar/binary.go:358 | the space-joined arguments start with `roblox-studio:1` exactly when the first argument does |
| LaunchCommand.LaunchArgsRewrite | cmd/vinegar/binary.go:358-360 | a Studio protocol first argument becomes `-protocolString <arg>` and later arguments are dropped; other arguments are untouched |
| LaunchCommand.WrappedCases | cmd/vinegar/binary.go:364-374 | a blank launcher leaves the wine command as it is; a bad launcher path is a "bad launcher" error; otherwise the command's path is the launcher path |
| LaunchCommand.WrappedArgv | cmd/vinegar/binary.go:364-371 | with a non-blank launcher, the command runs the launcher path and its argv is exactly the launcher's fields, in order, followed by the wine argv unchanged |
| Lifecycle.Binary.Command | cmd/vinegar/binary.go:357-375 | the command is the wine command for the executable with the rewritten arguments, wrapped by the launcher; it fails exactly when a launcher is set and its path is bad |
| LogDiscovery.DiscoverFoundIff | cmd/vinegar/binary.go:325-336 | the wait finds a file exactly when a created-file event comes before the timer and every other created file |
| LogDiscovery.DiscoverTimedOutIff | cmd/vinegar/binary.go:325-336 | the wait times out exactly when no created-file event comes before the timer |
| LogDiscovery.WatchErrorIgnored | cmd/vinegar/binary.go:333-334 | a watcher error anywhere in the events never changes the outcome |
| LogDiscovery.LaterEventsIgnored | cmd/vinegar/binary.go:325-336 | events after the deciding one never change the outcome |
| LogDiscovery.RobloxLogFile | cmd/vinegar/binary.go:299-337 | each set-up failure gives its own wrapped error; otherwise the first created file is returned or the wait times out; the name is empty on error |
| PostLaunch.Int32 | cmd/vinegar/binary.go:284 | `int32(pid)` wraps to 32 bits and keeps values already in range |
| PostLaunch.TailProjections | cmd/vinegar/binary.go:346-354 | tailing echoes every line once, in order; the activity handler sees every line when Discord RPC is on and none when it is off |
| PostLaunch.ProjectionsAppend | cmd/vinegar/binary.go:346-354 | echoed lines, handled lines and registrations distribute over a concatenation of traces |
| PostLaunch.LineProjections | cmd/vinegar/binary.go:347-353 | one line is echoed, and handled only when Discord RPC is on |
| PostLaunch.PostLaunchGuarantees | cmd/vinegar/binary.go:273-289 | no log file means no action; otherwise the splash closes first, GameMode is registered once exactly when enabled, and the tailed lines are echoed and handled as above |
| Lifecycle.Binary.Tail | cmd/vinegar/binary.go:339-355 | a file that cannot be tailed gives no action; otherwise each line's actions in order, and the handler sees the lines only while Discord RPC is on |
| Lifecycle.Binary.PostLaunch | cmd/vinegar/binary.go:265-290 | the post-launch task runs only when the log file is found, and then acts as described above |
| Lifecycle.Binary.RunError | cmd/vinegar/binary.go:222-296 | Run's error is nil exactly when the mutexer did not fail, the command was built, and Roblox started and exited cleanly; a mutexer failure is wrapped as "start robloxmutexer" |
| Lifecycle.Binary.Run | cmd/vinegar/binary.go:212-297 | a failed Discord connection turns Discord RPC off, so no line is handled; the error is RunError and the post-launch actions RunActions; a command is started exactly when the mutexer did not fail and the command was built, and only then is "Launching <alias>" shown, the splash being untouched otherwise |
| Lifecycle.Binary.Start | cmd/vinegar/binary.go:106-193 | a log-file failure is wrapped and nothing runs; otherwise Main's steps, error and post-launch actions are MainOutcome of Run's error and actions, the splash's log path is the log file and its message is MessageAfter; Discord RPC is turned off only when Run was reached and the connection failed |
| Lifecycle.Binary.Launch | cmd/vinegar/binary.go:124-192 | steps, error and post-launch actions are MainOutcome of Run's error and actions: first-run steps per binary type each stopping with its own wrapped error, then Setup, then Run whose error is wrapped as "failed to run roblox"; the protocol channel is applied for a single argument and shown; the splash message is MessageAfter; Discord RPC and the description change only as Run and Setup were reached |
| Lifecycle.Binary.InitializePrefix | cmd/vinegar/binary.go:153-175 | Player runs Init and Studio sets DPI 97; a failure is wrapped as "failed to init <type> prefix" and stops before the WebView; a WebView failure is wrapped as "failed to install webview" |
| Lifecycle.MainOrder | cmd/vinegar/binary.go:152-190 | initialisation happens exactly when needed (Init for Player, DPI 97 for Studio); the WebView is installed only after it; Setup only after both succeed; Run gets Main's arguments only after Setup; Main succeeds exactly when Run was reached and its error is nil; the post-launch actions are Run's, or none when Run was not reached |
| Router.Route | cmd/vinegar/vinegar.go:35-150 | which subcommands need the configuration, which go to usage, that `exec` needs a program, and the arguments each subcommand receives |
| Router.UsageMatchesRouter | cmd/vinegar/vinegar.go:24-54 | the usage message advertises exactly the routed subcommands, and any other word ends in the usage message |
| Vinegar.PrefixInit | cmd/vinegar/vinegar.go:153-159 | `wineboot -i` runs first; DPI 97 is set only when it succeeds; the error is the first failure |
| Vinegar.HandleError | cmd/vinegar/vinegar.go:117-126 | fatal exactly when the splash is disabled or closed, with nothing changed; otherwise the log path is set, the window is invalidated and the program waits |
| Vinegar.LaunchOrder | cmd/vinegar/vinegar.go:128-146 | the prefix is initialised exactly when missing; setup only on a ready prefix; Run gets the arguments after the subcommand, only after setup succeeded; the flow fails exactly when Roblox did not run cleanly |
| Vinegar.LaunchBinary | cmd/vinegar/vinegar.go:115-146 | the splash shows the channel; the first failure's message ("Failed to setup Roblox", "Failed to run Roblox" or the init error) is on the splash and goes to the error handler; on success the message is "Initializing wineprefix" when the prefix was initialised and unchanged otherwise |
| Vinegar.FirstFailing | cmd/vinegar/vinegar.go:167-174 | the position of the first version whose removal fails, and none when every removal succeeds |
| Vinegar.Uninstall | cmd/vinegar/vinegar.go:161-180 | a listing error is fatal; versions are removed in order up to and including the first failure, which is fatal; otherwise the applications are cleared (the predicate Uninstalled) |
| Vinegar.Dispatch | cmd/vinegar/vinegar.go:31-151 | usage errors exit without any call; delete and edit make their one call; uninstall lists the versions and then ends as Uninstalled states, never loading the configuration; the other subcommands load it and create the prefix directory first, fatally; then each subcommand's call and exit, and the player/studio flow |

## Left out

- Concurrency. The splash window's own goroutine and the SIGINT it sends when it closes are left out. So are the signal handler that kills Roblox and the mutexer's `Wait`. The post-launch goroutine is a sequential trace that starts once the process has a pid; the busy-wait for `cmd.Process` is not modelled.
- Lifecycle.Binary.Run: a process that never starts leaves the post-launch task waiting forever. The model gives it no actions.
- Lifecycle.Binary.Run: `defer b.Activity.Close()` is not modelled.
- LogDiscovery.RobloxLogFile: there is no clock. The six-second timer is the `TimerFired` event, and a trace that ends with no decision is a timeout.
- fsnotify, tail, D-Bus, the Discord activity handler, process start/wait/kill, and the wine prefix commands are opaque. Only their outcomes are modelled.
- `RegisterGameMode`'s D-Bus call is a trace entry. Its failure is only logged, so it changes nothing.
- The AVX check and dialog, `Env.Setenv`, `os.Setenv("GAMEID", …)`, and logging and output redirection are not modelled.
- `NewBinary` and `state.Load` are not modelled. The binary's configuration, directory and executable name are constructor inputs.
- `Sysinfo`'s report formatting is not modelled. Only the `wine --version` outcome decides its exit.
- `Delete`'s and `Uninstall`'s file-system removal is not modelled. Only its outcome per path is.
- GoStrings.JoinPath: `filepath.Join`'s `Clean` step is modelled only for a clean directory and a clean name. These are the only inputs it gets here.
- Roblox.ToLower: it lowers ASCII letters only, which covers the aliases it is applied to.
- `BinaryType.String()` is taken as "Player"/"Studio". The roblox package is not part of this model.
- `flag` parsing of `-config` is not modelled. `args` is what `flag.Args()` returns.
- Exit statuses are named (`Normal`, `Usage`, `Fatal`, `Blocked`) rather than given as numbers. `Usage` and `Fatal` exit with status 1.
- Vinegar.Dispatch: the user closing the splash window concurrently is an input (`splashClosed`), applied before the launch flow starts.
