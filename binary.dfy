/**
 * binary.go's Binary: one Roblox binary (Player or Studio) with its own
 * configuration, driven through first-run initialisation, the protocol-URI
 * channel override, the launch command, and the supervision of the process.
 *
 * Every collaborator the launcher calls but whose code is not part of this
 * model (LogFile, Prefix.Init, Prefix.SetDPI, Prefix.Wine, InstallWebView,
 * Setup, LauncherPath, the Discord RPC connection, the mutexer process,
 * fsnotify and tail) appears only through the results it returns, given as
 * inputs in MainHost and RunHost.
 */
module Lifecycle {
  import opened Errors
  import opened GoStrings
  import opened Roblox
  import opened SplashScreen
  import opened ProtocolUri
  import opened LaunchCommand
  import opened LogDiscovery
  import opened PostLaunch

  /** config.Binary: the per-binary settings the launcher reads and updates. */
  class BinaryConfig {
    var Channel: string
    var Launcher: string
    var DiscordRPC: bool
    var GameMode: bool

    constructor (channel: string, launcher: string, discordRPC: bool, gameMode: bool)
      ensures Channel == channel && Launcher == launcher
      ensures DiscordRPC == discordRPC && GameMode == gameMode
    {
      Channel, Launcher, DiscordRPC, GameMode := channel, launcher, discordRPC, gameMode;
    }
  }

  /** What cmd.Run() reports: the process never started, or it ran (with a pid) and exited. */
  datatype Process = StartFailed(err: Error) | Exited(pid: int, exit: Status)

  /** The results of the collaborators Run calls. */
  datatype RunHost = RunHost(
    connect: Status,               // b.Activity.Connect()
    mutexerStart: Status,          // robloxmutexer's Start()
    wine: WineFn,                  // b.Prefix.Wine
    launcherPath: Result<string>,  // b.Config.LauncherPath()
    process: Process,              // cmd.Run()
    watch: WatchSetup,             // RobloxLogFile's set-up steps
    events: seq<Event>,            // what RobloxLogFile's select loop receives
    tail: Status,                  // tail.TailFile
    lines: seq<string>)            // the lines tailed from the log file

  /** The results of the collaborators Main calls. */
  datatype MainHost = MainHost(
    logFile: Result<string>,       // LogFile(b.Type.String()), its name on success
    prefixInitialized: bool,       // whether <prefix>/drive_c/windows exists
    prefixInit: Status,            // b.Prefix.Init() or b.Prefix.SetDPI(97)
    installWebView: Status,        // b.InstallWebView()
    setup: Status,                 // b.Setup()
    run: RunHost)

  /** The steps of Main that call into collaborators, in the order they happen. */
  datatype Step = InitPrefix | SetDPI(dpi: int) | InstallWebView | SetupBinary | RunBinary(args: seq<string>)

  /** The prefix-initialising call for each binary type: Studio rejects the default DPI of 96. */
  function InitStep(bt: BinaryType): Step
  {
    match bt
    case Player => InitPrefix
    case Studio => SetDPI(97)
  }

  /** Initialisation runs when the prefix is not yet initialised, or when forced from the command line. */
  predicate NeedsInit(prefixInitialized: bool, forceFirstRun: bool)
  {
    !prefixInitialized || forceFirstRun
  }

  class Binary {
    var Splash: Splash?           // only set by Main
    const Config: BinaryConfig
    const Type: BinaryType
    const Alias: string
    const Dir: string             // the installed binary's directory
    const Executable: string      // b.Type.Executable()
    const MultipleInstances: bool // from the global configuration

    constructor (bt: BinaryType, config: BinaryConfig, dir: string, executable: string, multipleInstances: bool)
      ensures Splash == null && Config == config && Type == bt && Alias == bt.String()
      ensures Dir == dir && Executable == executable && MultipleInstances == multipleInstances
    {
      Splash := null;
      Config := config;
      Type := bt;
      Alias := bt.String();
      Dir := dir;
      Executable := executable;
      MultipleInstances := multipleInstances;
    }

    /**
     * HandleProtocolURI: applies every `channel:<value>` token of the URI to
     * the channel, in order; nothing else of the binary or its configuration
     * changes (the frame allows only the channel).
     */
    method HandleProtocolURI(mime: string)
      modifies Config`Channel
      ensures Config.Channel == UriChannel(mime, old(Config.Channel))
    {
      var uris := Split(mime, '+');
      ghost var start := Config.Channel;
      for i := 0 to |uris|
        invariant Config.Channel == ChannelAfter(uris[..i], start)
      {
        var kv := Split(uris[i], ':');
        assert uris[..i + 1][..i] == uris[..i];
        if |kv| == 2 && kv[0] == "channel" {
          var c := kv[1];
          if c == "" {
            continue;
          }
          Config.Channel := c;
        }
      }
      assert uris[..|uris|] == uris;
    }

    /**
     * Command: the wine command for the binary's executable with the
     * (possibly rewritten) arguments, wrapped by the launcher when one is
     * configured. Reads the launcher setting, changes nothing.
     */
    method Command(args: seq<string>, wine: WineFn, launcherPath: Result<string>) returns (r: Result<Cmd>)
      ensures r == Wrapped(wine(JoinPath(Dir, Executable), LaunchArgs(args)), Config.Launcher, launcherPath)
      ensures Blank(Config.Launcher) ==> r == Ok(wine(JoinPath(Dir, Executable), LaunchArgs(args)))
      ensures r.Err? <==> !Blank(Config.Launcher) && launcherPath.Err?
    {
      var a := args;
      if HasPrefix(Join(a, " "), StudioProtocol) {
        a := ["-protocolString", a[0]];
      }

      var cmd := wine(JoinPath(Dir, Executable), a);

      var launcher := Fields(Config.Launcher);
      if |launcher| >= 1 {
        cmd := cmd.(Args := launcher + cmd.Args);
        match launcherPath {
          case Err(e) =>
            r := Err(Wrap("bad launcher", e));
            WrappedCases(wine(JoinPath(Dir, Executable), LaunchArgs(args)), Config.Launcher, launcherPath);
            return;
          case Ok(p) =>
            cmd := cmd.(Path := p);
        }
      }
      r := Ok(cmd);
      WrappedCases(wine(JoinPath(Dir, Executable), LaunchArgs(args)), Config.Launcher, launcherPath);
    }

    /**
     * Tail: echoes each tailed line and, while Discord RPC is enabled, hands
     * it to the activity handler; nothing happens when the file cannot be tailed.
     */
    method Tail(name: string, tail: Status, lines: seq<string>) returns (actions: seq<Action>)
      ensures actions == (if tail.Some? then [] else TailActions(lines, Config.DiscordRPC))
      ensures Handled(actions) == (if tail.None? && Config.DiscordRPC then lines else [])
    {
      var rpc := Config.DiscordRPC;
      actions := [];
      if tail.Some? {
        return;
      }
      for i := 0 to |lines|
        invariant actions == TailActions(lines[..i], rpc)
      {
        ghost var before := actions;
        assert lines[..i + 1][..i] == lines[..i];
        actions := actions + [Echo(lines[i])];
        if rpc {
          actions := actions + [HandleLog(lines[i])];
        }
        assert actions == before + LineActions(lines[i], rpc);
      }
      assert lines[..|lines|] == lines;
      TailProjections(lines, rpc);
    }

    /**
     * The post-launch task, once the process has a pid: find the log file; on
     * failure do nothing more; otherwise close the splash, register with
     * GameMode if enabled, and tail the file.
     */
    method PostLaunch(pid: int, host: RunHost) returns (actions: seq<Action>)
      ensures actions == PostLaunchActions(Discover(host.events).Found? && WatchReady(host.watch),
                                           Config.GameMode, pid, host.tail.None?, host.lines, Config.DiscordRPC)
    {
      var lf, err := RobloxLogFile(host.watch, host.events);
      if err.Some? {
        return [];
      }
      actions := [CloseSplash];
      if Config.GameMode {
        actions := actions + [RegisterGameMode(Int32(pid))];
      }
      var tailed := Tail(lf, host.tail, host.lines);
      actions := actions + tailed;
    }

    /** The command Run builds: the wine command for the executable, wrapped by the launcher. */
    function LaunchCmd(args: seq<string>, host: RunHost): Result<Cmd>
      reads Config`Launcher
    {
      Wrapped(host.wine(JoinPath(Dir, Executable), LaunchArgs(args)), Config.Launcher, host.launcherPath)
    }

    /** The mutexer runs only for Player when multiple instances are allowed; its failing to start stops the run. */
    predicate MutexerFails(host: RunHost)
    {
      MultipleInstances && Type == Player && host.mutexerStart.Some?
    }

    /** Whether Run gets as far as starting Roblox: the mutexer did not fail and the command was built. */
    predicate Launches(args: seq<string>, host: RunHost)
      reads Config`Launcher
    {
      !MutexerFails(host) && LaunchCmd(args, host).Ok?
    }

    /**
     * The error Run returns: the mutexer's, the command's, or the Roblox
     * process's, each wrapped with its own context. It is nil exactly when
     * Roblox was started and exited cleanly.
     */
    function RunError(args: seq<string>, host: RunHost): (r: Status)
      reads Config`Launcher
      ensures r.None? <==> Launches(args, host) && host.process.Exited? && host.process.exit.None?
      ensures MutexerFails(host) ==> r == Some(Wrap("start robloxmutexer", host.mutexerStart.value))
    {
      if MutexerFails(host) then Some(Wrap("start robloxmutexer", host.mutexerStart.value))
      else if LaunchCmd(args, host).Err? then Some(Wrap(Type.String() + " command", LaunchCmd(args, host).error))
      else match host.process
        case StartFailed(e) => Some(Wrap("roblox process", e))
        case Exited(_, exit) => if exit.Some? then Some(Wrap("roblox process", exit.value)) else None
    }

    /**
     * What Run's post-launch task does, given Discord RPC as the run leaves
     * it: nothing unless Roblox was started and got a pid.
     */
    function RunActions(args: seq<string>, host: RunHost, discordRPC: bool): seq<Action>
      reads Config`Launcher, Config`GameMode
    {
      if Launches(args, host) && host.process.Exited? then
        PostLaunchActions(Discover(host.events).Found? && WatchReady(host.watch),
                          Config.GameMode, host.process.pid, host.tail.None?, host.lines, discordRPC)
      else []
    }

    /**
     * The part of Run after the command is built: announce the launch, run
     * the process and, once it has a pid, the post-launch task.
     */
    method Supervise(host: RunHost) returns (err: Status, post: seq<Action>)
      requires Splash != null
      modifies Splash`Message
      ensures Splash.Message == "Launching " + Alias
      ensures err == match host.process
                     case StartFailed(e) => Some(Wrap("roblox process", e))
                     case Exited(_, exit) => if exit.Some? then Some(Wrap("roblox process", exit.value)) else None
      ensures post == if host.process.Exited? then
                        PostLaunchActions(Discover(host.events).Found? && WatchReady(host.watch),
                                          Config.GameMode, host.process.pid, host.tail.None?, host.lines, Config.DiscordRPC)
                      else []
      ensures Handled(post) != [] ==> Config.DiscordRPC
    {
      post := [];
      Splash.SetMessage("Launching " + Alias);

      match host.process {
        case StartFailed(e) =>
          // The process handle is never set, so the post-launch task never gets past its wait.
          err := Some(Wrap("roblox process", e));
        case Exited(pid, exit) =>
          post := PostLaunch(pid, host);
          PostLaunchGuarantees(Discover(host.events).Found? && WatchReady(host.watch),
                               Config.GameMode, pid, host.tail.None?, host.lines, Config.DiscordRPC);
          err := if exit.Some? then Some(Wrap("roblox process", exit.value)) else None;
      }
    }

    /**
     * Run: connects Discord RPC (disabling it for the run when that fails),
     * starts the mutexer for Player when multiple instances are allowed,
     * builds the command, and runs it. Returns the error, the command that was
     * started, and what the post-launch task did. The splash says
     * "Launching <alias>" once the command is built and is untouched before.
     */
    method Run(args: seq<string>, host: RunHost) returns (err: Status, started: Option<Cmd>, post: seq<Action>)
      requires Splash != null
      modifies Config`DiscordRPC, Splash`Message
      ensures Config.DiscordRPC == (old(Config.DiscordRPC) && host.connect.None?)
      ensures err == RunError(args, host)
      ensures post == RunActions(args, host, Config.DiscordRPC)
      ensures started.Some? <==> Launches(args, host)
      ensures started.Some? ==> started.value == LaunchCmd(args, host).value && Splash.Message == "Launching " + Alias
      ensures started.None? ==> Splash.Message == old(Splash.Message)
      ensures err.None? <==> started.Some? && host.process.Exited? && host.process.exit.None?
      ensures Handled(post) != [] ==> old(Config.DiscordRPC) && host.connect.None?
    {
      started, post := None, [];
      if Config.DiscordRPC {
        if host.connect.Some? {
          Config.DiscordRPC := false;
        }
      }

      if MultipleInstances && Type == Player {
        if host.mutexerStart.Some? {
          return Some(Wrap("start robloxmutexer", host.mutexerStart.value)), None, [];
        }
      }

      var cmd := Command(args, host.wine, host.launcherPath);
      assert cmd == LaunchCmd(args, host);
      if cmd.Err? {
        return Some(Wrap(Type.String() + " command", cmd.error)), None, [];
      }
      assert Launches(args, host);
      started := Some(cmd.value);
      err, post := Supervise(host);
      assert err == RunError(args, host);
    }

    /**
     * First-run initialisation: the prefix-initialising call for the binary's
     * type, then the WebView install, stopping with a wrapped error at the
     * first failure.
     */
    method InitializePrefix(prefixInit: Status, installWebView: Status) returns (err: Status, steps: seq<Step>)
      requires Splash != null
      modifies Splash`Message
      ensures Splash.Message == "Initializing wineprefix"
      ensures prefixInit.Some? ==>
                steps == [InitStep(Type)] && err == Some(Wrap("failed to init " + Type.String() + " prefix", prefixInit.value))
      ensures prefixInit.None? ==>
                steps == [InitStep(Type), InstallWebView]
                && err == (if installWebView.Some? then Some(Wrap("failed to install webview", installWebView.value)) else None)
    {
      Splash.SetMessage("Initializing wineprefix");
      match Type {
        case Player =>
          steps := [InitPrefix];
          err := prefixInit;
        case Studio =>
          // Studio accepts every DPI but the default 96; wine creates the prefix as it sets it.
          steps := [SetDPI(97)];
          err := prefixInit;
      }
      if err.Some? {
        return Some(Wrap("failed to init " + Type.String() + " prefix", err.value)), steps;
      }
      steps := steps + [InstallWebView];
      if installWebView.Some? {
        return Some(Wrap("failed to install webview", installWebView.value)), steps;
      }
    }

    /**
     * The splash message Main leaves: "Launching <alias>" once Run has built
     * the command, otherwise "Initializing wineprefix" when the prefix was
     * being initialised, otherwise the message it started with.
     */
    function MessageAfter(args: seq<string>, forceFirstRun: bool, host: MainHost, initial: string): string
      reads Config`Launcher
    {
      var needsInit := NeedsInit(host.prefixInitialized, forceFirstRun);
      var initOk := !needsInit || (host.prefixInit.None? && host.installWebView.None?);
      if initOk && host.setup.None? && Launches(args, host.run) then "Launching " + Alias
      else if needsInit then "Initializing wineprefix"
      else initial
    }

    /**
     * Binary.Main (named Start here): opens the log file, runs the rest
     * (Launch), and on every return after the log file opened, points the
     * splash's log path at it (Go's deferred assignment).
     */
    method Start(args: seq<string>, forceFirstRun: bool, host: MainHost) returns (err: Status, steps: seq<Step>, post: seq<Action>)
      modifies this`Splash, Config`Channel, Config`DiscordRPC
      ensures Splash != null && fresh(Splash)
      ensures host.logFile.Err? ==>
                err == Some(Wrap("create log file", host.logFile.error)) && steps == [] && post == []
                && unchanged(Config) && Splash.LogPath == ""
      ensures host.logFile.Ok? ==>
                MainOutcome(Type, args, forceFirstRun, host, RunError(args, host.run),
                            RunActions(args, host.run, old(Config.DiscordRPC) && host.run.connect.None?), err, steps, post)
                && Splash.LogPath == host.logFile.value
                && Splash.Message == MessageAfter(args, forceFirstRun, host, "")
      ensures Config.DiscordRPC == (old(Config.DiscordRPC) && !(RunBinary(args) in steps && host.run.connect.Some?))
      ensures host.logFile.Ok? && SetupBinary in steps ==>
                Config.Channel == ChannelAfterArgs(args, old(Config.Channel)) && Splash.Desc == Config.Channel
      ensures SetupBinary !in steps ==> unchanged(Config) && Splash.Desc == ""
    {
      Splash := new Splash();
      if host.logFile.Err? {
        return Some(Wrap("create log file", host.logFile.error)), [], [];
      }
      err, steps, post := Launch(args, forceFirstRun, host);
      Splash.LogPath := host.logFile.value;
    }

    /**
     * The body of Main once the log file is open: initialise the prefix when
     * needed (Player: Init; Studio: SetDPI(97), which creates the prefix as a
     * side effect) and install the WebView, stopping at the first failure;
     * apply a single protocol-URI argument to the channel; show the channel;
     * then set up and run the binary.
     */
    method Launch(args: seq<string>, forceFirstRun: bool, host: MainHost) returns (err: Status, steps: seq<Step>, post: seq<Action>)
      requires Splash != null
      modifies Splash`Message, Splash`Desc, Config`Channel, Config`DiscordRPC
      ensures MainOutcome(Type, args, forceFirstRun, host, RunError(args, host.run),
                          RunActions(args, host.run, old(Config.DiscordRPC) && host.run.connect.None?), err, steps, post)
      ensures Config.DiscordRPC == (old(Config.DiscordRPC) && !(RunBinary(args) in steps && host.run.connect.Some?))
      ensures Splash.Message == MessageAfter(args, forceFirstRun, host, old(Splash.Message))
      ensures SetupBinary in steps ==>
                Config.Channel == ChannelAfterArgs(args, old(Config.Channel)) && Splash.Desc == Config.Channel
      ensures SetupBinary !in steps ==> unchanged(Config) && Splash.Desc == old(Splash.Desc)
    {
      steps, post := [], [];
      var firstRun := !host.prefixInitialized;

      if firstRun || forceFirstRun {
        var initErr;
        initErr, steps := InitializePrefix(host.prefixInit, host.installWebView);
        if initErr.Some? {
          return initErr, steps, [];
        }
      }

      if |args| == 1 {
        HandleProtocolURI(args[0]);
      }

      Splash.SetDesc(Config.Channel);

      steps := steps + [SetupBinary];
      if host.setup.Some? {
        return Some(Wrap("failed to setup roblox", host.setup.value)), steps, [];
      }

      steps := steps + [RunBinary(args)];
      var runErr, _, runPost := Run(args, host.run);
      post := runPost;
      if runErr.Some? {
        return Some(Wrap("failed to run roblox", runErr.value)), steps, post;
      }
      return None, steps, post;
    }
  }

  /** The channel after Main's protocol handling: only a single argument is taken as a URI. */
  function ChannelAfterArgs(args: seq<string>, channel: string): string
  {
    if |args| == 1 then UriChannel(args[0], channel) else channel
  }

  /**
   * Main's collaborator steps, error and post-launch actions once the log
   * file is open, given what Run returns and does (`runErr`, `runPost`): the
   * prefix-initialising call and the WebView install only when
   * initialisation is needed, each stopping Main when it fails; then Setup,
   * which stops Main when it fails; then Run, whose error is wrapped and
   * whose post-launch actions are Main's.
   */
  predicate MainOutcome(bt: BinaryType, args: seq<string>, forceFirstRun: bool, host: MainHost,
                        runErr: Status, runPost: seq<Action>,
                        err: Status, steps: seq<Step>, post: seq<Action>)
  {
    var needsInit := NeedsInit(host.prefixInitialized, forceFirstRun);
    if needsInit && host.prefixInit.Some? then
      steps == [InitStep(bt)] && post == []
      && err == Some(Wrap("failed to init " + bt.String() + " prefix", host.prefixInit.value))
    else if needsInit && host.installWebView.Some? then
      steps == [InitStep(bt), InstallWebView] && post == []
      && err == Some(Wrap("failed to install webview", host.installWebView.value))
    else
      var init := if needsInit then [InitStep(bt), InstallWebView] else [];
      if host.setup.Some? then
        steps == init + [SetupBinary] && post == []
        && err == Some(Wrap("failed to setup roblox", host.setup.value))
      else
        steps == init + [SetupBinary, RunBinary(args)] && post == runPost
        && err == (if runErr.Some? then Some(Wrap("failed to run roblox", runErr.value)) else None)
  }

  /**
   * The order Main keeps once the log file is open: the prefix-initialising
   * call happens exactly when initialisation is needed, and is Init for
   * Player and SetDPI(97) for Studio; the WebView is installed only on an
   * initialised prefix; Setup runs only when initialisation succeeded; Run
   * gets Main's arguments and runs only after a successful Setup; Main
   * succeeds exactly when Run was reached and succeeded; and the post-launch
   * actions are Run's, or none when Run was not reached.
   */
  lemma {:induction false} MainOrder(bt: BinaryType, args: seq<string>, forceFirstRun: bool, host: MainHost,
                                     runErr: Status, runPost: seq<Action>,
                                     err: Status, steps: seq<Step>, post: seq<Action>)
    requires MainOutcome(bt, args, forceFirstRun, host, runErr, runPost, err, steps, post)
    ensures InitStep(bt) in steps <==> NeedsInit(host.prefixInitialized, forceFirstRun)
    ensures InitPrefix in steps ==> bt == Player
    ensures forall d :: SetDPI(d) in steps ==> bt == Studio && d == 97
    ensures InstallWebView in steps ==> NeedsInit(host.prefixInitialized, forceFirstRun) && host.prefixInit.None?
    ensures SetupBinary in steps <==>
              !NeedsInit(host.prefixInitialized, forceFirstRun) || (host.prefixInit.None? && host.installWebView.None?)
    ensures forall a :: RunBinary(a) in steps <==> a == args && SetupBinary in steps && host.setup.None?
    ensures err.None? <==> RunBinary(args) in steps && runErr.None?
    ensures RunBinary(args) in steps ==> post == runPost
    ensures RunBinary(args) !in steps ==> post == []
  {
    var needsInit := NeedsInit(host.prefixInitialized, forceFirstRun);
    var init := if needsInit then [InitStep(bt), InstallWebView] else [];
    assert forall x :: x in init ==> x == InitStep(bt) || x == InstallWebView;
    if needsInit && host.prefixInit.Some? {
    } else if needsInit && host.installWebView.Some? {
    } else if host.setup.Some? {
      assert steps == init + [SetupBinary];
      assert steps[|init|] == SetupBinary;
      if needsInit {
        assert steps[0] == InitStep(bt);
        assert steps[1] == InstallWebView;
      }
    } else {
      assert steps == init + [SetupBinary, RunBinary(args)];
      assert steps[|init|] == SetupBinary;
      assert steps[|init| + 1] == RunBinary(args);
      if needsInit {
        assert steps[0] == InitStep(bt);
        assert steps[1] == InstallWebView;
      }
    }
  }

  /** Whether RobloxLogFile's set-up steps all succeed, so that the wait begins. */
  predicate WatchReady(setup: WatchSetup)
  {
    setup.appData.Ok? && setup.mkdir.None? && setup.newWatcher.None? && setup.add.None?
  }
}
