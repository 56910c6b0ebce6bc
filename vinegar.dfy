/**
 * vinegar.go's main program: the subcommands, the configuration and
 * wineprefix they need, the player/studio launch flow with its splash-aware
 * error handler, prefix initialisation and uninstalling.
 *
 * Everything the program asks of the outside world (loading the
 * configuration, creating directories, running wine, the binary's Setup and
 * Run) is an outcome in `Host`; what the program does is the trace of calls
 * it makes, in order, and how it ends.
 */
module Vinegar {
  import opened Errors
  import opened SplashScreen
  import Router

  /** How the program ends. */
  datatype Exit =
    | Normal            // main returns: exit status 0
    | Usage             // usage(): the usage message, exit status 1
    | Fatal(err: Error) // log.Fatal: the error is logged, exit status 1
    | Blocked           // the error view is shown and the program waits for the window to close

  /** The calls to the outside world, in the order they are made. */
  datatype Call =
    | LoadConfig
    | MkdirPrefix
    | EditConfig
    | RemovePrefix
    | ListVersions
    | RemoveVersion(ver: string)
    | ClearApplications
    | WineVersion
    | WineExec(prog: string, args: seq<string>)
    | KillPrefix
    | InstallWebview2Call
    | WinetricksCall
    | Wineboot
    | SetDPI(dpi: int)
    | SetupBinary
    | RunBinary(args: seq<string>)

  /** The outcomes of everything main asks of the outside world. */
  datatype Host = Host(
    configLoad: Status,               // config.Load
    mkdirPrefix: Status,              // os.MkdirAll(dirs.Prefix)
    edit: Status,                     // editor.Edit
    removePrefix: Status,             // os.RemoveAll(dirs.Prefix)
    versions: Result<seq<string>>,    // state.Versions
    removeErrs: map<string, Error>,   // the versions whose directory fails to be removed
    clearApps: Status,                // state.ClearApplications
    wineVersion: Status,              // wine --version
    execRun: Status,                  // pfx.Wine(prog, args...).Run()
    installWebview2: Status,          // InstallWebview2
    winetricks: Status,               // pfx.Winetricks
    splashEnabled: bool,              // cfg.Splash.Enabled
    splashClosed: bool,               // the user has closed the splash window
    logName: string,                  // the log file's name
    channel: string,                  // b.Config.Channel
    prefixInitialized: bool,          // <prefix>/drive_c/windows exists
    wineboot: Status,                 // wineboot -i
    setDPI: Status,                   // pfx.SetDPI(97)
    setup: Status,                    // b.Setup
    run: Status)                      // b.Run

  /** The DPI a fresh prefix is given. */
  const PrefixDPI := 97

  /** A call whose only outcome is an error ends the program through log.Fatal. */
  function StatusExit(s: Status): Exit
  {
    if s.Some? then Fatal(s.value) else Normal
  }

  // ---------------------------------------------------------------- prefix

  /** PrefixInit's error: the first of the two steps that fails. */
  function PrefixInitError(wineboot: Status, setDPI: Status): Status
  {
    if wineboot.Some? then wineboot else setDPI
  }

  /** PrefixInit: boots the prefix, then sets its DPI, stopping at the first failure. */
  method PrefixInit(wineboot: Status, setDPI: Status) returns (err: Status, calls: seq<Call>)
    ensures calls != [] && calls[0] == Wineboot
    ensures SetDPI(PrefixDPI) in calls <==> wineboot.None?
    ensures calls == [Wineboot] || calls == [Wineboot, SetDPI(PrefixDPI)]
    ensures err.None? <==> wineboot.None? && setDPI.None?
    ensures wineboot.Some? ==> err == wineboot
    ensures err == PrefixInitError(wineboot, setDPI)
  {
    calls := [Wineboot];
    if wineboot.Some? {
      return wineboot, calls;
    }
    calls := calls + [SetDPI(PrefixDPI)];
    err := setDPI;
  }

  // ---------------------------------------------------------- error handler

  /** Whether the error handler ends the program rather than showing the error view. */
  predicate IsFatal(splashEnabled: bool, splashClosed: bool)
  {
    !splashEnabled || splashClosed
  }

  /**
   * The player/studio error handler: fatal when the splash is disabled or
   * already closed; otherwise the window's error view points at the log file
   * and the program waits for the window to close.
   */
  method HandleError(splash: Splash, splashEnabled: bool, logName: string, err: Error) returns (exit: Exit)
    modifies splash`LogPath, splash`State
    ensures IsFatal(splashEnabled, old(splash.IsClosed())) ==>
              exit == Fatal(err) && unchanged(splash)
    ensures !IsFatal(splashEnabled, old(splash.IsClosed())) ==>
              exit == Blocked && splash.LogPath == logName && splash.State == Invalidated
  {
    if !splashEnabled || splash.IsClosed() {
      return Fatal(err);
    }
    splash.LogPath := logName;
    splash.Invalidate();
    return Blocked;
  }

  // ---------------------------------------------------------- player/studio

  /** Where the player/studio flow stops: the message shown on the splash and the error. */
  datatype Failure = Failure(message: string, err: Error)

  /** The first failing step of the player/studio flow, or None when Roblox ran. */
  function LaunchFailure(host: Host): Option<Failure>
  {
    var initErr := PrefixInitError(host.wineboot, host.setDPI);
    if !host.prefixInitialized && initErr.Some? then Some(Failure(initErr.value.Text(), initErr.value))
    else if host.setup.Some? then Some(Failure("Failed to setup Roblox", host.setup.value))
    else if host.run.Some? then Some(Failure("Failed to run Roblox", host.run.value))
    else None
  }

  /** The calls of the player/studio flow, up to its first failure. */
  function LaunchCalls(host: Host, runArgs: seq<string>): seq<Call>
  {
    var init := if host.prefixInitialized then []
                else if host.wineboot.Some? then [Wineboot]
                else [Wineboot, SetDPI(PrefixDPI)];
    if !host.prefixInitialized && PrefixInitError(host.wineboot, host.setDPI).Some? then init
    else if host.setup.Some? then init + [SetupBinary]
    else init + [SetupBinary, RunBinary(runArgs)]
  }

  /** How the player/studio flow ends, given whether the window was closed before any failure. */
  function LaunchExit(host: Host, splashClosed: bool): Exit
  {
    match LaunchFailure(host)
    case None => Normal
    case Some(f) => if IsFatal(host.splashEnabled, splashClosed) then Fatal(f.err) else Blocked
  }

  /**
   * The order the player/studio flow keeps: the prefix is initialised exactly
   * when it is missing; setup runs only on a ready prefix; Roblox runs, with
   * the given arguments, only after a successful setup; and Roblox ran
   * without error exactly when the flow does not fail.
   */
  lemma {:induction false} LaunchOrder(host: Host, runArgs: seq<string>)
    ensures var calls := LaunchCalls(host, runArgs);
            && (Wineboot in calls <==> !host.prefixInitialized)
            && (SetDPI(PrefixDPI) in calls <==> !host.prefixInitialized && host.wineboot.None?)
            && (SetupBinary in calls <==> host.prefixInitialized || PrefixInitError(host.wineboot, host.setDPI).None?)
            && (forall a :: RunBinary(a) in calls <==> a == runArgs && SetupBinary in calls && host.setup.None?)
            && (LaunchFailure(host).None? <==> RunBinary(runArgs) in calls && host.run.None?)
  {
    var calls := LaunchCalls(host, runArgs);
    var init := if host.prefixInitialized then []
                else if host.wineboot.Some? then [Wineboot]
                else [Wineboot, SetDPI(PrefixDPI)];
    assert SetupBinary !in init && forall a :: RunBinary(a) !in init;
    if !host.prefixInitialized && PrefixInitError(host.wineboot, host.setDPI).Some? {
      assert calls == init;
    } else if host.setup.Some? {
      assert calls == init + [SetupBinary];
      assert calls[|init|] == SetupBinary;
    } else {
      assert calls == init + [SetupBinary, RunBinary(runArgs)];
      assert calls[|init|] == SetupBinary;
      assert calls[|init| + 1] == RunBinary(runArgs);
    }
  }

  /**
   * The player/studio flow on a splash window: the window shows the channel;
   * the prefix is initialised when missing; the first failure puts its
   * message on the window and goes to the error handler.
   */
  method LaunchBinary(splash: Splash, host: Host, runArgs: seq<string>) returns (exit: Exit, calls: seq<Call>)
    modifies splash
    ensures calls == LaunchCalls(host, runArgs)
    ensures exit == LaunchExit(host, old(splash.IsClosed()))
    ensures splash.Desc == host.channel
    ensures LaunchFailure(host).Some? ==> splash.Message == LaunchFailure(host).value.message
    ensures LaunchFailure(host).None? ==>
              splash.Message == if host.prefixInitialized then old(splash.Message) else "Initializing wineprefix"
    ensures exit.Blocked? ==> splash.LogPath == host.logName && splash.State == Invalidated
    ensures !exit.Blocked? ==> splash.LogPath == old(splash.LogPath) && splash.State == old(splash.State)
  {
    splash.SetDesc(host.channel);
    calls := [];
    if !host.prefixInitialized {
      splash.SetMessage("Initializing wineprefix");
      var err, initCalls := PrefixInit(host.wineboot, host.setDPI);
      calls := initCalls;
      if err.Some? {
        splash.SetMessage(err.value.Text());
        exit := HandleError(splash, host.splashEnabled, host.logName, err.value);
        return;
      }
    }
    calls := calls + [SetupBinary];
    if host.setup.Some? {
      splash.SetMessage("Failed to setup Roblox");
      exit := HandleError(splash, host.splashEnabled, host.logName, host.setup.value);
      return;
    }
    calls := calls + [RunBinary(runArgs)];
    if host.run.Some? {
      splash.SetMessage("Failed to run Roblox");
      exit := HandleError(splash, host.splashEnabled, host.logName, host.run.value);
      return;
    }
    exit := Normal;
  }

  // -------------------------------------------------------------- uninstall

  /** The position of the first version whose removal fails, if any. */
  function FirstFailing(vers: seq<string>, removeErrs: map<string, Error>): (r: Option<nat>)
    ensures r.Some? ==> r.value < |vers| && vers[r.value] in removeErrs
    ensures r.Some? ==> forall j :: 0 <= j < r.value ==> vers[j] !in removeErrs
    ensures r.None? ==> forall j :: 0 <= j < |vers| ==> vers[j] !in removeErrs
  {
    if vers == [] then None
    else if vers[0] in removeErrs then Some(0)
    else match FirstFailing(vers[1..], removeErrs)
      case None => None
      case Some(k) => Some(k + 1)
  }

  /** One removal call per version, in order. */
  function Removals(vers: seq<string>): (r: seq<Call>)
    ensures |r| == |vers| && forall i :: 0 <= i < |vers| ==> r[i] == RemoveVersion(vers[i])
  {
    seq(|vers|, i requires 0 <= i < |vers| => RemoveVersion(vers[i]))
  }

  /**
   * How uninstalling ends: a failed listing is fatal with no removal; else
   * every version is removed in order up to and including the first whose
   * removal fails, which is fatal; when none fails, the recorded
   * applications are cleared and that decides the exit.
   */
  predicate Uninstalled(versions: Result<seq<string>>, removeErrs: map<string, Error>, clearApps: Status,
                        exit: Exit, calls: seq<Call>)
  {
    match versions
    case Err(e) => exit == Fatal(e) && calls == []
    case Ok(vers) =>
      match FirstFailing(vers, removeErrs)
      case Some(k) => calls == Removals(vers[..k + 1]) && exit == Fatal(removeErrs[vers[k]])
      case None => calls == Removals(vers) + [ClearApplications] && exit == StatusExit(clearApps)
  }

  /**
   * Uninstall: removes every installed version's directory in order, stopping
   * at the first failure, then clears the recorded applications.
   */
  method Uninstall(versions: Result<seq<string>>, removeErrs: map<string, Error>, clearApps: Status)
    returns (exit: Exit, calls: seq<Call>)
    ensures Uninstalled(versions, removeErrs, clearApps, exit, calls)
  {
    if versions.Err? {
      return Fatal(versions.error), [];
    }
    var vers := versions.value;
    calls := [];
    var i := 0;
    while i < |vers|
      invariant 0 <= i <= |vers|
      invariant forall j :: 0 <= j < i ==> vers[j] !in removeErrs
      invariant calls == Removals(vers[..i])
    {
      calls := calls + [RemoveVersion(vers[i])];
      assert calls == Removals(vers[..i + 1]);
      if vers[i] in removeErrs {
        return Fatal(removeErrs[vers[i]]), calls;
      }
      i := i + 1;
    }
    assert vers[..i] == vers;
    calls := calls + [ClearApplications];
    exit := StatusExit(clearApps);
  }

  // ------------------------------------------------------------------- main

  /**
   * main (named Dispatch here): routes the subcommand; delete, edit and uninstall run without a
   * configuration; the other subcommands load it and create the prefix
   * directory first, and any failure there is fatal; anything else is a
   * usage error.
   */
  method Dispatch(args: seq<string>, host: Host) returns (exit: Exit, calls: seq<Call>)
    ensures Router.Route(args).Usage? ==> exit == Usage && calls == []
    ensures Router.Route(args) == Router.Delete ==> calls == [RemovePrefix] && exit == StatusExit(host.removePrefix)
    ensures Router.Route(args) == Router.Edit ==> calls == [EditConfig] && exit == StatusExit(host.edit)
    ensures Router.Route(args) == Router.Uninstall ==>
              calls != [] && calls[0] == ListVersions && LoadConfig !in calls
              && Uninstalled(host.versions, host.removeErrs, host.clearApps, exit, calls[1..])
    ensures Router.Route(args).WithConfig? ==> calls != [] && calls[0] == LoadConfig
    ensures Router.Route(args).WithConfig? && host.configLoad.Some? ==>
              exit == Fatal(host.configLoad.value) && calls == [LoadConfig]
    ensures Router.Route(args).WithConfig? && host.configLoad.None? && host.mkdirPrefix.Some? ==>
              exit == Fatal(host.mkdirPrefix.value) && calls == [LoadConfig, MkdirPrefix]
    ensures Router.Route(args).WithConfig? && host.configLoad.None? && host.mkdirPrefix.None? ==>
              |calls| >= 2 && calls[..2] == [LoadConfig, MkdirPrefix] &&
              match Router.Route(args).sub
              case Sysinfo => calls[2..] == [WineVersion] && exit == StatusExit(host.wineVersion)
              case Exec(prog, rest) => calls[2..] == [WineExec(prog, rest)] && exit == StatusExit(host.execRun)
              case ExecUsage => calls[2..] == [] && exit == Usage
              case Kill => calls[2..] == [KillPrefix] && exit == Normal
              case InstallWebview2 => calls[2..] == [InstallWebview2Call] && exit == StatusExit(host.installWebview2)
              case Winetricks => calls[2..] == [WinetricksCall] && exit == StatusExit(host.winetricks)
              case Launch(_, runArgs) =>
                runArgs == args[1..] && calls[2..] == LaunchCalls(host, runArgs) && exit == LaunchExit(host, host.splashClosed)
  {
    var route := Router.Route(args);
    match route {
      case Usage =>
        return Usage, [];
      case Delete =>
        return StatusExit(host.removePrefix), [RemovePrefix];
      case Edit =>
        return StatusExit(host.edit), [EditConfig];
      case Uninstall =>
        var removals;
        exit, removals := Uninstall(host.versions, host.removeErrs, host.clearApps);
        calls := [ListVersions] + removals;
        assert calls[1..] == removals;
      case WithConfig(sub) =>
        calls := [LoadConfig];
        if host.configLoad.Some? {
          return Fatal(host.configLoad.value), calls;
        }
        calls := calls + [MkdirPrefix];
        if host.mkdirPrefix.Some? {
          return Fatal(host.mkdirPrefix.value), calls;
        }
        var more;
        match sub {
          case Sysinfo =>
            exit, more := StatusExit(host.wineVersion), [WineVersion];
          case Exec(prog, rest) =>
            exit, more := StatusExit(host.execRun), [WineExec(prog, rest)];
          case ExecUsage =>
            exit, more := Usage, [];
          case Kill =>
            exit, more := Normal, [KillPrefix];
          case InstallWebview2 =>
            exit, more := StatusExit(host.installWebview2), [InstallWebview2Call];
          case Winetricks =>
            exit, more := StatusExit(host.winetricks), [WinetricksCall];
          case Launch(_, runArgs) =>
            var splash := new Splash();
            if host.splashClosed {
              splash.Close();
            }
            exit, more := LaunchBinary(splash, host, runArgs);
        }
        calls := calls + more;
    }
  }
}
