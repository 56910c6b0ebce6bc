/**
 * vinegar.go's subcommand router: which subcommand does what, which of them
 * need the configuration (and a wineprefix) first, and what goes to the
 * usage message.
 */
module Router {
  import opened GoStrings
  import opened Roblox

  /** What a subcommand does once the configuration is loaded and the prefix directory exists. */
  datatype PrefixAction =
    | Sysinfo
    | Exec(prog: string, args: seq<string>)
    | ExecUsage                          // `exec` without a program
    | Kill
    | InstallWebview2
    | Winetricks
    | Launch(bt: BinaryType, args: seq<string>)

  datatype Action =
    | Delete
    | Edit
    | Uninstall
    | WithConfig(sub: PrefixAction)
    | Usage

  /** flag.Arg(0): the subcommand, "" when there are no arguments. */
  function Subcommand(args: seq<string>): string
  {
    if args == [] then "" else args[0]
  }

  /** The subcommands that need no configuration. */
  const NoConfigCommands: set<string> := {"delete", "edit", "uninstall"}

  /** The subcommands that load the configuration and prepare the prefix directory first. */
  const ConfigCommands: set<string> := {"sysinfo", "player", "studio", "exec", "kill", "install-webview2", "winetricks"}

  /** main's dispatch on flag.Args(). */
  function Route(args: seq<string>): (r: Action)
    ensures r.WithConfig? <==> Subcommand(args) in ConfigCommands
    ensures r.Usage? <==> Subcommand(args) !in ConfigCommands + NoConfigCommands
    ensures r == WithConfig(ExecUsage) <==> Subcommand(args) == "exec" && |args| < 2
    ensures r.WithConfig? && r.sub.Exec? ==> |args| >= 2 && r.sub == Exec(args[1], args[2..])
    ensures r.WithConfig? && r.sub.Launch? ==>
              args != [] && r.sub.args == args[1..] && r.sub.bt.String() == ToTitle(args[0])
  {
    var cmd := Subcommand(args);
    if cmd == "delete" then Delete
    else if cmd == "edit" then Edit
    else if cmd == "uninstall" then Uninstall
    else if cmd == "sysinfo" then WithConfig(Sysinfo)
    else if cmd == "exec" then
      if |args| < 2 then WithConfig(ExecUsage) else WithConfig(Exec(args[1], args[2..]))
    else if cmd == "kill" then WithConfig(Kill)
    else if cmd == "install-webview2" then WithConfig(InstallWebview2)
    else if cmd == "winetricks" then WithConfig(Winetricks)
    else if cmd == "player" then WithConfig(Launch(Player, args[1..]))
    else if cmd == "studio" then WithConfig(Launch(Studio, args[1..]))
    else Usage
  }

  /** The subcommand name with its first letter upper-cased ("player" gives "Player"). */
  function ToTitle(s: string): string
  {
    if s == [] then s
    else [if 'a' <= s[0] <= 'z' then (s[0] as int - 32) as char else s[0]] + s[1..]
  }

  /**
   * The subcommand groups the usage message lists, one group per usage line;
   * a group is printed with its names joined by `|`.
   */
  const UsageGroups: seq<seq<string>> := [
    ["player", "studio"],
    ["exec"],
    ["edit", "kill", "uninstall", "delete", "install-webview2", "winetricks", "sysinfo"]
  ]

  /** Every subcommand a reader finds in the usage message, splitting each printed group at `|`. */
  function UsageCommands(): set<string>
  {
    set g, c | g in UsageGroups && c in Split(Join(g, "|"), '|') :: c
  }

  /** Every subcommand a reader finds in the usage message is one of the listed names. */
  lemma UsageCommandsNamed()
    ensures UsageCommands() == set g, c | g in UsageGroups && c in g :: c
  {
    forall g | g in UsageGroups
      ensures Split(Join(g, "|"), '|') == g
    {
      SplitJoin(g, '|');
    }
  }

  /**
   * The usage message and the router agree: the subcommands it advertises are
   * exactly those the router dispatches, so any other word (and no word at
   * all) ends in the usage message.
   */
  lemma UsageMatchesRouter()
    ensures UsageCommands() == ConfigCommands + NoConfigCommands
    ensures forall args :: Route(args).Usage? <==> Subcommand(args) !in UsageCommands()
  {
    UsageCommandsNamed();
    var g0, g1, g2 := UsageGroups[0], UsageGroups[1], UsageGroups[2];
    assert (set g, c | g in UsageGroups && c in g :: c) == (set c | c in g0 + g1 + g2);
  }
}
