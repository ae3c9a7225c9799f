/** The pygame events the input handler reacts to. */
module Events {
  import opened Geometry

  /** pygame mouse button numbers for the primary and secondary buttons. */
  const LEFT_BUTTON: int := 1
  const RIGHT_BUTTON: int := 3

  /** The keys the handler distinguishes; every other key code is OtherKey. */
  datatype Key = Escape | KeyC | KeyS | KeyP | Return | KeyT | OtherKey(code: int)

  /**
   * One entry of the pygame event queue. MouseDown and MouseUp carry any button
   * number (middle button and wheel included); OtherEvent stands for every event
   * type the program ignores (key release, window events, ...).
   */
  datatype Event =
    | Quit
    | KeyDown(key: Key)
    | MouseDown(pos: Point, button: int)
    | MouseUp(pos: Point, button: int)
    | MouseMotion(pos: Point)
    | OtherEvent

  /** The events after which the main loop stops: window close and Escape. */
  predicate Stops(e: Event) {
    e.Quit? || e == KeyDown(Escape)
  }
}
