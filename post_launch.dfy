/**
 * What binary.go's post-launch task does once Roblox has a process: the
 * actions it takes, in order, as a trace. Discovery of the log file gates
 * everything; the splash closes, GameMode registration happens at most once,
 * and every tailed line is echoed and, while Discord RPC is enabled, handed
 * to the activity handler.
 */
module PostLaunch {

  datatype Action =
    | CloseSplash                   // b.Splash.Close()
    | RegisterGameMode(pid: int)    // b.RegisterGameMode(int32(pid))
    | Echo(line: string)            // fmt.Fprintln(b.Prefix.Stderr, line.Text)
    | HandleLog(line: string)       // b.Activity.HandleRobloxLog(line.Text)

  /** Go's int32(x) conversion: two's-complement wrap-around to 32 bits. */
  function Int32(x: int): (r: int)
    ensures -0x8000_0000 <= r < 0x8000_0000
    ensures -0x8000_0000 <= x < 0x8000_0000 ==> r == x
    ensures (r - x) % 0x1_0000_0000 == 0
  {
    (x + 0x8000_0000) % 0x1_0000_0000 - 0x8000_0000
  }

  /** The actions for one tailed line. */
  function LineActions(line: string, discordRPC: bool): seq<Action>
  {
    [Echo(line)] + (if discordRPC then [HandleLog(line)] else [])
  }

  /** The actions of Tail over the lines, in order. */
  function TailActions(lines: seq<string>, discordRPC: bool): seq<Action>
  {
    if lines == [] then []
    else TailActions(lines[..|lines| - 1], discordRPC) + LineActions(lines[|lines| - 1], discordRPC)
  }

  /**
   * The post-launch task once the process exists: nothing at all when the log
   * file is not found; otherwise close the splash, register with GameMode when
   * enabled, then the tail's actions (none when the file cannot be tailed).
   */
  function PostLaunchActions(found: bool, gameMode: bool, pid: int, tailed: bool, lines: seq<string>, discordRPC: bool): seq<Action>
  {
    if !found then []
    else [CloseSplash] + (if gameMode then [RegisterGameMode(Int32(pid))] else [])
         + (if tailed then TailActions(lines, discordRPC) else [])
  }

  /** The lines written to the echo sink, in order. */
  function Echoed(actions: seq<Action>): seq<string>
  {
    if actions == [] then []
    else (if actions[0].Echo? then [actions[0].line] else []) + Echoed(actions[1..])
  }

  /** The lines passed to the activity handler, in order. */
  function Handled(actions: seq<Action>): seq<string>
  {
    if actions == [] then []
    else (if actions[0].HandleLog? then [actions[0].line] else []) + Handled(actions[1..])
  }

  /** How many GameMode registrations a trace holds. */
  function Registrations(actions: seq<Action>): nat
  {
    if actions == [] then 0
    else (if actions[0].RegisterGameMode? then 1 else 0) + Registrations(actions[1..])
  }

  lemma {:induction false} ProjectionsAppend(a: seq<Action>, b: seq<Action>)
    ensures Echoed(a + b) == Echoed(a) + Echoed(b)
    ensures Handled(a + b) == Handled(a) + Handled(b)
    ensures Registrations(a + b) == Registrations(a) + Registrations(b)
    decreases |a|
  {
    if a == [] {
      assert a + b == b;
    } else {
      assert (a + b)[0] == a[0];
      assert (a + b)[1..] == a[1..] + b;
      ProjectionsAppend(a[1..], b);
    }
  }

  lemma SingleProjections(a: Action)
    ensures Echoed([a]) == (if a.Echo? then [a.line] else [])
    ensures Handled([a]) == (if a.HandleLog? then [a.line] else [])
    ensures Registrations([a]) == (if a.RegisterGameMode? then 1 else 0)
  {
    assert [a][1..] == [];
  }

  lemma LineProjections(line: string, discordRPC: bool)
    ensures Echoed(LineActions(line, discordRPC)) == [line]
    ensures Handled(LineActions(line, discordRPC)) == (if discordRPC then [line] else [])
    ensures Registrations(LineActions(line, discordRPC)) == 0
  {
    SingleProjections(Echo(line));
    if discordRPC {
      SingleProjections(HandleLog(line));
      ProjectionsAppend([Echo(line)], [HandleLog(line)]);
    } else {
      assert LineActions(line, discordRPC) == [Echo(line)];
    }
  }

  /**
   * Tailing echoes every line exactly once, in order; the activity handler
   * sees every line, in order, when Discord RPC is enabled and none when it
   * is disabled; tailing never registers with GameMode.
   */
  lemma {:induction false} TailProjections(lines: seq<string>, discordRPC: bool)
    ensures Echoed(TailActions(lines, discordRPC)) == lines
    ensures Handled(TailActions(lines, discordRPC)) == (if discordRPC then lines else [])
    ensures Registrations(TailActions(lines, discordRPC)) == 0
    decreases |lines|
  {
    if lines != [] {
      var init, last := lines[..|lines| - 1], lines[|lines| - 1];
      TailProjections(init, discordRPC);
      ProjectionsAppend(TailActions(init, discordRPC), LineActions(last, discordRPC));
      LineProjections(last, discordRPC);
      assert init + [last] == lines;
    }
  }

  /**
   * The post-launch guarantees: a missing log file means no action at all;
   * otherwise closing the splash comes first, GameMode is registered once
   * exactly when enabled (with the pid as an int32), and the activity handler
   * sees the tailed lines only while Discord RPC is enabled.
   */
  lemma PostLaunchGuarantees(found: bool, gameMode: bool, pid: int, tailed: bool, lines: seq<string>, discordRPC: bool)
    ensures var acts := PostLaunchActions(found, gameMode, pid, tailed, lines, discordRPC);
            && (!found <==> acts == [])
            && (found ==> acts[0] == CloseSplash)
            && Registrations(acts) == (if found && gameMode then 1 else 0)
            && (found && gameMode ==> acts[1] == RegisterGameMode(Int32(pid)))
            && Handled(acts) == (if found && tailed && discordRPC then lines else [])
            && Echoed(acts) == (if found && tailed then lines else [])
  {
    if found {
      var reg := if gameMode then [RegisterGameMode(Int32(pid))] else [];
      var rest := if tailed then TailActions(lines, discordRPC) else [];
      var acts := PostLaunchActions(found, gameMode, pid, tailed, lines, discordRPC);
      assert acts == [CloseSplash] + reg + rest;
      TailProjections(lines, discordRPC);
      SingleProjections(CloseSplash);
      if gameMode {
        SingleProjections(RegisterGameMode(Int32(pid)));
      }
      ProjectionsAppend([CloseSplash], reg);
      ProjectionsAppend([CloseSplash] + reg, rest);
    }
  }
}
