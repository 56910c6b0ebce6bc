/**
 * How binary.go builds the Roblox launch command: the Studio protocol
 * argument rewrite, and the optional launcher wrapper whose fields are put in
 * front of the wine command line.
 */
module LaunchCommand {
  import opened Errors
  import opened GoStrings

  /** A process to start: the program path and its full argv (argv[0] included). */
  datatype Cmd = Cmd(Path: string, Args: seq<string>)

  /** Prefix.Wine(exe, args...): the wine command that runs `exe` with `args`. */
  type WineFn = (string, seq<string>) -> Cmd

  const StudioProtocol := "roblox-studio:1"

  /**
   * The arguments handed to the executable: a Studio protocol URI, recognised
   * on the space-joined arguments, goes through `-protocolString`; anything
   * else is passed on as it is.
   */
  function LaunchArgs(args: seq<string>): seq<string>
  {
    if HasPrefix(Join(args, " "), StudioProtocol) then
      assert args != [];
      ["-protocolString", args[0]]
    else args
  }

  /**
   * The joined arguments start with the Studio protocol exactly when the first
   * argument does: the protocol has no space, so the join cannot complete it
   * with a later argument, and an empty argument list joins to "".
   */
  lemma StudioProtocolInFirstArg(args: seq<string>)
    ensures HasPrefix(Join(args, " "), StudioProtocol) <==> args != [] && HasPrefix(args[0], StudioProtocol)
  {
    if |args| > 1 {
      var j := Join(args, " ");
      assert j == args[0] + " " + Join(args[1..], " ");
      var n := |StudioProtocol|;
      if |args[0]| >= n {
        assert j[..n] == args[0][..n];
      } else {
        assert j[|args[0]|] == ' ';
        assert StudioProtocol[|args[0]|] != ' ';
      }
    }
  }

  /**
   * The rewrite happens exactly when the first argument starts with the Studio
   * protocol, and then the whole list becomes `-protocolString <first>`
   * (later arguments are dropped); otherwise the arguments are untouched.
   */
  lemma LaunchArgsRewrite(args: seq<string>)
    ensures args != [] && HasPrefix(args[0], StudioProtocol) ==> LaunchArgs(args) == ["-protocolString", args[0]]
    ensures !(args != [] && HasPrefix(args[0], StudioProtocol)) ==> LaunchArgs(args) == args
  {
    StudioProtocolInFirstArg(args);
  }

  /** No arguments never trigger the rewrite. */
  lemma NoArgsNoRewrite()
    ensures LaunchArgs([]) == []
  {
    StudioProtocolInFirstArg([]);
  }

  /**
   * The command that binary.go's Command builds from the base wine command and
   * the launcher setting.
   */
  function Wrapped(base: Cmd, launcher: string, launcherPath: Result<string>): Result<Cmd>
  {
    var fields := Fields(launcher);
    if |fields| >= 1 then
      match launcherPath
      case Err(e) => Err(Wrap("bad launcher", e))
      case Ok(p) => Ok(Cmd(p, fields + base.Args))
    else Ok(base)
  }

  /**
   * A blank launcher (white space only, or empty) leaves the base command as
   * it is and never consults the launcher path; a non-blank one whose path
   * cannot be resolved yields the wrapped error and no command.
   */
  lemma WrappedCases(base: Cmd, launcher: string, launcherPath: Result<string>)
    ensures Blank(launcher) ==> Wrapped(base, launcher, launcherPath) == Ok(base)
    ensures !Blank(launcher) && launcherPath.Err? ==>
              Wrapped(base, launcher, launcherPath) == Err(Wrap("bad launcher", launcherPath.error))
    ensures !Blank(launcher) && launcherPath.Ok? ==> Wrapped(base, launcher, launcherPath).value.Path == launcherPath.value
  {
    FieldsEmptyIffBlank(launcher);
  }

  /**
   * The wrapped command runs the launcher's executable; its argv is the
   * launcher's fields, in order, followed by the base argv, unchanged; and it is blank-free at the front: every word the
   * launcher contributes is a non-empty word without white space.
   */
  lemma WrappedArgv(base: Cmd, launcher: string, p: string)
    requires !Blank(launcher)
    ensures Wrapped(base, launcher, Ok(p)).Ok? && Wrapped(base, launcher, Ok(p)).value.Path == p
    ensures var argv := Wrapped(base, launcher, Ok(p)).value.Args;
            var k := |Fields(launcher)|;
            k >= 1 && |argv| == k + |base.Args| && argv[..k] == Fields(launcher) && argv[k..] == base.Args
            && forall i :: 0 <= i < k ==> argv[i] != "" && !(exists j :: 0 <= j < |argv[i]| && IsSpace(argv[i][j]))
  {
    FieldsEmptyIffBlank(launcher);
    FieldsWellFormed(launcher);
  }
}
