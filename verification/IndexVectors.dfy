/** Integer index vectors of a three-dimensional mesh, the steps between them, and inverse
    cell sizes. */
module IndexVectors {

  datatype IntVect = IntVect(i: int, j: int, k: int)

  datatype Axis = AxisX | AxisY | AxisZ

  /** Inverse cell sizes. */
  datatype Inverse = Inverse(x: real, y: real, z: real)

  function Coord(c: IntVect, a: Axis): int {
    match a
    case AxisX => c.i
    case AxisY => c.j
    case AxisZ => c.k
  }

  /** The index with one coordinate replaced. */
  function Moved(c: IntVect, a: Axis, x: int): IntVect {
    match a
    case AxisX => c.(i := x)
    case AxisY => c.(j := x)
    case AxisZ => c.(k := x)
  }

  function Back(c: IntVect, a: Axis): IntVect { Moved(c, a, Coord(c, a) - 1) }

  function Ahead(c: IntVect, a: Axis): IntVect { Moved(c, a, Coord(c, a) + 1) }
}
