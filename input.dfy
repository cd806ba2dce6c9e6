/**
 * Input events as the host's input service delivers them, and the outcome of a
 * bounded-wait receive from the application's event queue.
 */
module Input {
  /** The six physical buttons. */
  datatype InputKey = Up | Down | Right | Left | Ok | Back

  /** The phase of a button event; both applications act on Press only. */
  datatype InputType = Press | Release | Short | Long | Repeat

  datatype InputEvent = InputEvent(key: InputKey, kind: InputType)

  /** A receive with a timeout either times out or yields one queued event. */
  datatype Received<E> = Timeout | Got(event: E)
}
