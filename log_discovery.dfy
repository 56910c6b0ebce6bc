/**
 * Finding the Roblox log file (binary.go's RobloxLogFile): after preparing a
 * watch on the logs directory, the launcher waits on three sources at once
 * (the timer, the watcher's events and the watcher's errors) and takes the
 * first created file, or gives up when the timer fires.
 *
 * What the select loop receives is modelled as a finite trace of events in
 * the order they are taken; the timer is one more event, with no clock. The
 * timer always fires eventually, so a trace that ends undecided is one whose
 * next event would have been the timer.
 */
module LogDiscovery {
  import opened Errors

  /** fsnotify operations; an event may carry several at once. */
  datatype Op = Create | Write | Remove | Rename | Chmod

  datatype Event =
    | FsEvent(name: string, ops: set<Op>)   // from w.Events
    | WatchError(err: Error)                // from w.Errors
    | TimerFired                            // from t.C

  /** The outcome of the wait. */
  datatype Discovery = Found(name: string) | TimedOut

  /** The watch set-up steps before the wait, each of which may fail. */
  datatype WatchSetup = WatchSetup(
    appData: Result<string>,   // pfx.AppDataDir()
    mkdir: Status,             // os.MkdirAll of <appdata>/Local/Roblox/logs
    newWatcher: Status,        // fsnotify.NewWatcher()
    add: Status)               // w.Add(dir)

  /** e.Has(fsnotify.Create) */
  predicate IsCreate(e: Event)
  {
    e.FsEvent? && Create in e.ops
  }

  /** The events that end the wait. */
  predicate Decides(e: Event)
  {
    IsCreate(e) || e.TimerFired?
  }

  /** The error the wait ends with when the timer fires (the timeout is six seconds). */
  const TimeoutError := Msg("roblox log file not found after 6s")

  /** The outcome of waiting on `events`: the first event that decides. */
  function Discover(events: seq<Event>): Discovery
  {
    if events == [] then TimedOut
    else if events[0].TimerFired? then TimedOut
    else if IsCreate(events[0]) then Found(events[0].name)
    else Discover(events[1..])
  }

  predicate NoDecisionBefore(events: seq<Event>, k: int)
    requires 0 <= k <= |events|
  {
    forall j :: 0 <= j < k ==> !Decides(events[j])
  }

  /**
   * The wait finds `name` exactly when some created-file event named `name`
   * comes before every other created-file event and before the timer.
   */
  lemma {:induction false} DiscoverFoundIff(events: seq<Event>, name: string)
    ensures Discover(events) == Found(name) <==>
            exists i :: 0 <= i < |events| && IsCreate(events[i]) && events[i].name == name && NoDecisionBefore(events, i)
    decreases |events|
  {
    if events != [] && !Decides(events[0]) {
      var rest := events[1..];
      DiscoverFoundIff(rest, name);
      if Discover(events) == Found(name) {
        var i :| 0 <= i < |rest| && IsCreate(rest[i]) && rest[i].name == name && NoDecisionBefore(rest, i);
        assert events[i + 1] == rest[i];
        assert NoDecisionBefore(events, i + 1);
      }
      if exists i :: 0 <= i < |events| && IsCreate(events[i]) && events[i].name == name && NoDecisionBefore(events, i) {
        var i :| 0 <= i < |events| && IsCreate(events[i]) && events[i].name == name && NoDecisionBefore(events, i);
        assert i > 0;
        assert rest[i - 1] == events[i];
        assert NoDecisionBefore(rest, i - 1);
      }
    } else if events != [] && events[0].TimerFired? {
      assert forall i :: 0 < i < |events| ==> !NoDecisionBefore(events, i);
    }
  }

  /** The wait times out exactly when the timer comes before any created file (or nothing decides). */
  lemma {:induction false} DiscoverTimedOutIff(events: seq<Event>)
    ensures Discover(events) == TimedOut <==>
            forall i :: 0 <= i < |events| && NoDecisionBefore(events, i) ==> !IsCreate(events[i])
    decreases |events|
  {
    if events != [] && !Decides(events[0]) {
      var rest := events[1..];
      DiscoverTimedOutIff(rest);
      if Discover(events) == TimedOut {
        forall i | 0 <= i < |events| && NoDecisionBefore(events, i) ensures !IsCreate(events[i]) {
          if i > 0 {
            assert rest[i - 1] == events[i];
            assert NoDecisionBefore(rest, i - 1);
          }
        }
      } else {
        var i :| 0 <= i < |rest| && NoDecisionBefore(rest, i) && IsCreate(rest[i]);
        assert events[i + 1] == rest[i];
        assert NoDecisionBefore(events, i + 1);
      }
    } else if events != [] && IsCreate(events[0]) {
      assert NoDecisionBefore(events, 0);
    }
  }

  /** Watcher errors never end the wait: an error anywhere in the trace changes nothing. */
  lemma {:induction false} WatchErrorIgnored(events: seq<Event>, k: nat, err: Error)
    requires k <= |events|
    ensures Discover(events[..k] + [WatchError(err)] + events[k..]) == Discover(events)
    decreases k
  {
    var with := events[..k] + [WatchError(err)] + events[k..];
    if k == 0 {
      assert with[1..] == events;
    } else {
      assert with[0] == events[0];
      assert with[1..] == events[1..][..k - 1] + [WatchError(err)] + events[1..][k - 1..];
      WatchErrorIgnored(events[1..], k - 1, err);
    }
  }

  /** Nothing after the deciding event matters: later events cannot change the outcome. */
  lemma {:induction false} LaterEventsIgnored(events: seq<Event>, later: seq<Event>, i: nat)
    requires i < |events| && Decides(events[i]) && NoDecisionBefore(events, i)
    ensures Discover(events + later) == Discover(events)
    decreases i
  {
    if i > 0 {
      assert (events + later)[1..] == events[1..] + later;
      assert NoDecisionBefore(events[1..], i - 1);
      LaterEventsIgnored(events[1..], later, i - 1);
    }
  }

  /**
   * RobloxLogFile: prepares the watch, then takes events until one decides.
   * The path is empty whenever an error is returned.
   */
  method RobloxLogFile(setup: WatchSetup, events: seq<Event>) returns (name: string, err: Status)
    ensures err.Some? ==> name == ""
    ensures setup.appData.Err? ==> err == Some(Wrap("get appdata", setup.appData.error))
    ensures setup.appData.Ok? && setup.mkdir.Some? ==> err == Some(Wrap("create roblox log dir", setup.mkdir.value))
    ensures setup.appData.Ok? && setup.mkdir.None? && setup.newWatcher.Some? ==>
              err == Some(Wrap("make fsnotify watcher", setup.newWatcher.value))
    ensures setup.appData.Ok? && setup.mkdir.None? && setup.newWatcher.None? && setup.add.Some? ==>
              err == Some(Wrap("watch roblox log dir", setup.add.value))
    ensures setup.appData.Ok? && setup.mkdir.None? && setup.newWatcher.None? && setup.add.None? ==>
              match Discover(events)
              case Found(n) => err.None? && name == n
              case TimedOut => err == Some(TimeoutError)
  {
    if setup.appData.Err? {
      return "", Some(Wrap("get appdata", setup.appData.error));
    }
    if setup.mkdir.Some? {
      return "", Some(Wrap("create roblox log dir", setup.mkdir.value));
    }
    if setup.newWatcher.Some? {
      return "", Some(Wrap("make fsnotify watcher", setup.newWatcher.value));
    }
    if setup.add.Some? {
      return "", Some(Wrap("watch roblox log dir", setup.add.value));
    }

    var i := 0;
    while i < |events|
      invariant 0 <= i <= |events|
      invariant Discover(events) == Discover(events[i..])
    {
      var e := events[i];
      assert events[i..][1..] == events[i + 1..];
      match e {
        case TimerFired =>
          return "", Some(TimeoutError);
        case FsEvent(n, ops) =>
          if Create in ops {
            return n, None;
          }
        case WatchError(_) =>
          // logged; the wait goes on
      }
      i := i + 1;
    }
    return "", Some(TimeoutError);
  }
}
