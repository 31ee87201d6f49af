/**
 * Static level geometry. The game hands the player two lists of integer
 * tuples each tick; they are read, never changed.
 */
module Level {

  /** A solid rectangle `{x, y, width, height}`; y grows downward, so y is its top. */
  datatype Rect = Rect(x: int, y: int, width: int, height: int)

  /** A one-way platform `{left, top, right}`: it stops the player only from above. */
  datatype LightFloor = LightFloor(left: int, top: int, right: int)
}
