/** Boxes of cells and their extents as the Python tools keep them: three numbers per
    corner, reached by direction. */
module MeshBoxes {

  type RVec = s: seq<real> | |s| == 3 witness [0.0, 0.0, 0.0]

  type IVec = s: seq<int> | |s| == 3 witness [0, 0, 0]

  datatype Box = Box(smallEnd: IVec, bigEnd: IVec)

  /** Physical extent of a grid, lower and upper ends per direction. */
  datatype Extent = Extent(lo: RVec, hi: RVec)
}
