/**
 * The splash window's state as the launcher sees it: the message and
 * description it shows, the log path its error view points at, and whether it
 * is running, closed by the user, or invalidated into an error view.
 * Its rendering and event loop are not part of this model.
 */
module SplashScreen {

  datatype SplashState = Running | Closed | Invalidated

  class Splash {
    var Message: string
    var Desc: string
    var LogPath: string
    var State: SplashState

    /** splash.New: a fresh window, running and blank. */
    constructor ()
      ensures Message == "" && Desc == "" && LogPath == "" && State == Running
    {
      Message, Desc, LogPath, State := "", "", "", Running;
    }

    predicate IsClosed()
      reads this
    {
      State == Closed
    }

    method SetMessage(m: string)
      modifies this`Message
      ensures Message == m
    {
      Message := m;
    }

    method SetDesc(d: string)
      modifies this`Desc
      ensures Desc == d
    {
      Desc := d;
    }

    /** The user closes the window. */
    method Close()
      modifies this`State
      ensures State == Closed
    {
      State := Closed;
    }

    /** Switches the window into its error view. */
    method Invalidate()
      modifies this`State
      ensures State == Invalidated
    {
      State := Invalidated;
    }
  }
}
