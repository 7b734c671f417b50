/** What the library reports to the application. */
module Events {
  import opened Bits

  datatype Event =
    | ButtonUp(x: uint, y: uint)
    | ButtonDown(x: uint, y: uint)
    | EncoderDelta(number: nat, delta: int)
    | EncoderKeyUp(number: nat)
    | EncoderKeyDown(number: nat)
    | Tilt(sensor: nat, tx: int, ty: int, tz: int)

  const EVENT_MAX := 6

  /** The event's number in the handler table. */
  function TypeOf(e: Event): (i: nat)
    ensures i < EVENT_MAX
  {
    match e
    case ButtonUp(_, _) => 0
    case ButtonDown(_, _) => 1
    case EncoderDelta(_, _) => 2
    case EncoderKeyUp(_) => 3
    case EncoderKeyDown(_) => 4
    case Tilt(_, _, _, _) => 5
  }
}
