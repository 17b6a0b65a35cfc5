/** Which way a leg flows, seen from party A. */
module Directions {
  datatype Direction = Pay | Receive

  function Opposite(d: Direction): Direction { if d.Pay? then Receive else Pay }
}
