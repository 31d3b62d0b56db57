/** The chaos game that owns the modifications, reduced to what the
    vertex-selection rule reads from it. */
module ChaosGame {

  /** A chaos game. Its vertex list comes from polygon geometry that is not
      part of this model; only the number of vertexes in that list matters to
      the modifications, so the game is kept as that number. */
  class Game {
    /** The number of vertexes of the initial polygon, which is the length of
        the game's vertex list. */
    var vertexCount: nat

    /** A game with the class default of three vertexes (a triangle). */
    constructor ()
      ensures vertexCount == 3
    {
      vertexCount := 3;
    }
  }
}
