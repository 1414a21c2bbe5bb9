/**
  What a key press or a button click asks of the outside world. The launcher
  never observes a spawn's outcome, so spawning and closing are recorded as
  values in the order the handlers issue them.
 */
module Effects {

  datatype Effect =
    /** Run `command` through `sh -c`, detached; its result is discarded. */
    | Spawn(command: string)
    /** Close the launcher window. */
    | CloseWindow

  /** GTK's `glib::Propagation`: whether the key event is consumed. */
  datatype Propagation = Stop | Proceed

  /** The effects of one handled event together with its propagation decision. */
  datatype Response = Response(effects: seq<Effect>, propagation: Propagation)

  /** Activating an entry: spawn its command, then close the window. */
  function Launch(command: string): seq<Effect>
  {
    [Spawn(command), CloseWindow]
  }
}
