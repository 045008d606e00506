/** Keyboard input as the game sees it: pygame events and the held-key snapshot. */
module Events {
  datatype Key = KLeft | KRight | KSpace | KReturn | KF3 | KOther

  /** pygame.event.Event, reduced to what the game inspects. */
  datatype Event = KeyDown(key: Key) | KeyUp(key: Key) | Quit | OtherEvent

  /** pygame.key.get_pressed(), for the three keys the player polls. */
  datatype Keys = Keys(left: bool, right: bool, space: bool)
}
