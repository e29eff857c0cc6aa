/** The turn direction enum of the robot library (util.enums.Direction). */
module Enums {

  /** Direction used for turns. */
  datatype Direction = RIGHT | LEFT {

    /** The other direction. */
    function Opposite(): (d: Direction)
      ensures d != this
      ensures this == RIGHT ==> d == LEFT
      ensures this == LEFT ==> d == RIGHT
    {
      if this == RIGHT then LEFT else RIGHT
    }
  }

  /** Taking the opposite twice gives back the direction. */
  lemma OppositeInvolution(d: Direction)
    ensures d.Opposite().Opposite() == d
  {}
}
